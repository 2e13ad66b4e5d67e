/** The cleanup service over its two history tables. */
module CleanupService {
  import opened Wrappers
  import opened Cleanup

  lemma {:induction false} HasOldest(rows: Rows, ids: set<nat>) returns (m: nat)
    requires ids != {} && ids <= rows.Keys
    ensures m in ids && NoneNewer(rows, {m}, ids)
    decreases |ids|
  {
    var x :| x in ids;
    if ids == {x} {
      m := x;
    } else {
      var y := HasOldest(rows, ids - {x});
      m := if rows[x].bucket <= rows[y].bucket then x else y;
    }
  }

  lemma {:induction false} PickOne(rows: Rows, all: set<nat>, picked: set<nat>, m: nat)
    requires NoneNewer(rows, picked, all - picked) && NoneNewer(rows, {m}, all - picked)
    ensures NoneNewer(rows, picked + {m}, all - (picked + {m}))
  {
    forall a, b | a in picked + {m} && b in all - (picked + {m}) && a in rows && b in rows
      ensures rows[a].bucket <= rows[b].bucket
    {
      assert b in all - picked;
      if a == m {
        assert a in {m};
      }
    }
  }

  /** The `n` oldest rows of a set, ties broken anyhow. */
  method PickOldest(rows: Rows, all: set<nat>, n: nat) returns (picked: set<nat>)
    requires all <= rows.Keys && n <= |all|
    ensures picked <= all && |picked| == n && NoneNewer(rows, picked, all - picked)
  {
    picked := {};
    while |picked| < n
      invariant picked <= all && |picked| <= n && NoneNewer(rows, picked, all - picked)
    {
      SizeOfRest(all, picked);
      ghost var oldest := HasOldest(rows, all - picked);
      var m :| m in all - picked && NoneNewer(rows, {m}, all - picked);
      PickOne(rows, all, picked, m);
      picked := picked + {m};
    }
  }

  /** What a run of calls on the same table does to the rows it started with. */
  lemma {:induction false} SameBatch(start: Rows, live: set<nat>, f: Filter, limit: int, gone: set<nat>)
    requires live <= start.Keys
    requires var rows := start - (start.Keys - live); TakesBatch(rows, rows.Keys, f, limit, gone)
    ensures TakesBatch(start, live, f, limit, gone)
  {
    var rows := start - (start.Keys - live);
    assert rows.Keys == live;
    assert Matches(start, live, f) == Matches(rows, rows.Keys, f);
  }

  class History {
    var rows: Rows

    constructor (rows: Rows)
      ensures this.rows == rows
    {
      this.rows := rows;
    }

    /** One limited delete. */
    method DeleteBefore(f: Filter, limit: int) returns (deleted: nat, ghost gone: set<nat>)
      modifies this
      ensures TakesBatch(old(rows), old(rows).Keys, f, limit, gone)
      ensures rows == old(rows) - gone && deleted == |gone|
    {
      var ids := Matches(rows, rows.Keys, f);
      if 0 < limit < |ids| {
        ids := PickOldest(rows, ids, limit);
      }
      deleted, gone := |ids|, ids;
      rows := rows - ids;
    }

    /** The batched loop, under a context that is done after `calls` store calls. It does what one unbounded
        delete does, in n / batch + 1 calls, if the batch size is positive and the context lasts that long;
        otherwise it reports the failing call, with the oldest matches gone. */
    method DeleteExpired(f: Filter, batch: int, calls: nat) returns (r: Result<nat, CleanupError>, used: nat)
      modifies this
      ensures r.Ok? <==> Finishes(old(rows), f, batch, calls)
      ensures r.Ok? ==> Cleaned(old(rows), rows, f, r.value) && used == CallsNeeded(old(rows), f, batch)
      ensures r.Err? ==> r.error == TimedOut && PartlyCleaned(old(rows), rows, f) && used == calls
    {
      var total := 0;
      used := 0;
      ghost var start, batches := rows, [];
      while true
        invariant IsBatchRun(start, batches, f, batch, |batches|) && rows == TableAfter(start, batches)
        invariant total == Deleted(batches, |batches|) && used == |batches| <= calls
        invariant batch > 0 ==> AllFull(batches, batch)
        decreases calls - used
      {
        if used == calls {
          StopsEarly(start, batches, f, batch);
          return Err(TimedOut), used;
        }
        ghost var gone;
        var deleted;
        deleted, gone := DeleteBefore(f, batch);
        BatchStep(start, batches, f, batch, gone);
        total := total + deleted;
        used := used + 1;
        batches := batches + [gone];
        if deleted < batch {
          LeavesWith(start, batches, f, batch);
          ShortBatchEnds(batches, batch);
          return Ok(total), used;
        }
      }
    }
  }

  datatype CleanupError = InvalidRequest | TimedOut

  /** What a table is left with, and how many rows it lost. */
  ghost predicate Cleaned(before: Rows, after: Rows, f: Filter, deleted: nat) {
    after == before - Matches(before, before.Keys, f) && deleted == |Matches(before, before.Keys, f)|
  }

  /** Some of the matches are gone, none of them newer than one still there, and no other row. */
  ghost predicate PartlyCleaned(before: Rows, after: Rows, f: Filter) {
    && after.Keys <= before.Keys && after == before - (before.Keys - after.Keys)
    && Progressed(before, f, after.Keys, |before.Keys - after.Keys|)
  }

  ghost function CallsNeeded(rows: Rows, f: Filter, batch: int): nat {
    if batch > 0 then |Matches(rows, rows.Keys, f)| / batch + 1 else 0
  }

  ghost predicate Finishes(rows: Rows, f: Filter, batch: int, calls: nat) {
    batch > 0 && CallsNeeded(rows, f, batch) <= calls
  }

  lemma {:induction false} NotYet(calls: nat, batch: nat, n: nat)
    requires batch > 0 && calls * batch <= n
    ensures n / batch >= calls
  {
    var q := n / batch;
    assert n == q * batch + n % batch;
    assert q < calls ==> (q + 1) * batch <= calls * batch;
  }

  lemma {:induction false} FullRunUnfinished(start: Rows, batches: seq<set<nat>>, f: Filter, batch: nat)
    requires batch > 0 && IsBatchRun(start, batches, f, batch, |batches|) && AllFull(batches, batch)
    ensures |Matches(start, start.Keys, f)| / batch >= |batches|
  {
    RunsProgress(start, batches, f, batch, |batches|);
    assert batches[..|batches|] == batches;
    FullDeleted(batches, batch, |batches|);
    NotYet(|batches|, batch, |Matches(start, start.Keys, f)|);
  }

  lemma {:induction false} RunPartlyCleans(start: Rows, batches: seq<set<nat>>, f: Filter, batch: int)
    requires IsBatchRun(start, batches, f, batch, |batches|)
    ensures PartlyCleaned(start, TableAfter(start, batches), f)
  {
    RunsProgress(start, batches, f, batch, |batches|);
    LiveShrinks(start, batches, |batches|);
    assert TableAfter(start, batches).Keys == Live(start, batches, |batches|);
  }

  /** A run in which every call deleted a full batch, if there is such a thing, has not finished. */
  lemma {:induction false} StopsEarly(start: Rows, batches: seq<set<nat>>, f: Filter, batch: int)
    requires IsBatchRun(start, batches, f, batch, |batches|) && (batch > 0 ==> AllFull(batches, batch))
    ensures !Finishes(start, f, batch, |batches|)
    ensures PartlyCleaned(start, TableAfter(start, batches), f)
  {
    RunPartlyCleans(start, batches, f, batch);
    if batch > 0 {
      FullRunUnfinished(start, batches, f, batch);
    }
  }

  /** Full batches and then a short one. */
  lemma {:induction false} ShortBatchEnds(batches: seq<set<nat>>, batch: nat)
    requires batches != [] && AllFull(batches[..|batches| - 1], batch) && |batches[|batches| - 1]| < batch
    ensures |batches| == Deleted(batches, |batches|) / batch + 1
  {
    var k := |batches| - 1;
    FullDeleted(batches, batch, k);
    CallsCounted(Deleted(batches, k + 1), k, batch, |batches[k]|);
  }

  ghost function TableAfter(start: Rows, batches: seq<set<nat>>): Rows {
    start - (start.Keys - Live(start, batches, |batches|))
  }

  lemma {:induction false} LiveShrinks(rows: Rows, batches: seq<set<nat>>, k: nat)
    requires k <= |batches|
    ensures Live(rows, batches, k) <= rows.Keys
  {
    if k > 0 {
      LiveShrinks(rows, batches, k - 1);
    }
  }

  lemma {:induction false} BatchStep(start: Rows, batches: seq<set<nat>>, f: Filter, batch: int, gone: set<nat>)
    requires IsBatchRun(start, batches, f, batch, |batches|)
    requires var rows := TableAfter(start, batches); TakesBatch(rows, rows.Keys, f, batch, gone)
    ensures var rows, next := TableAfter(start, batches), batches + [gone];
            && IsBatchRun(start, next, f, batch, |next|)
            && TableAfter(start, next) == rows - gone
            && Deleted(next, |next|) == Deleted(batches, |batches|) + |gone|
            && |Matches(rows - gone, (rows - gone).Keys, f)| == |Matches(rows, rows.Keys, f)| - |gone|
  {
    var live := Live(start, batches, |batches|);
    var rows := TableAfter(start, batches);
    LiveShrinks(start, batches, |batches|);
    SameBatch(start, live, f, batch, gone);
    RunGrows(start, batches, f, batch, gone);
    BatchEffect(rows, rows.Keys, f, batch, gone);
    SameMatches(rows, gone, f);
    RemovedTwice(start, live, gone);
  }

  lemma {:induction false} SameMatches(rows: Rows, gone: set<nat>, f: Filter)
    ensures Matches(rows - gone, (rows - gone).Keys, f) == Matches(rows, rows.Keys - gone, f)
  {
  }

  lemma {:induction false} RemovedTwice(start: Rows, live: set<nat>, gone: set<nat>)
    ensures start - (start.Keys - (live - gone)) == start - (start.Keys - live) - gone
  {
  }

  lemma {:induction false} LeavesWith(start: Rows, batches: seq<set<nat>>, f: Filter, batch: int)
    requires IsBatchRun(start, batches, f, batch, |batches|)
    requires batches != [] && LeavesAfter(|batches[|batches| - 1]|, batch)
    ensures TableAfter(start, batches) == start - Matches(start, start.Keys, f)
    ensures Deleted(batches, |batches|) == |Matches(start, start.Keys, f)|
  {
    LeavesSurvivors(start, batches, f, batch);
    assert start.Keys - Survivors(start, f) == Matches(start, start.Keys, f);
  }

  lemma {:induction false} CallsCounted(total: nat, full: nat, batch: nat, last: nat)
    requires last < batch && total == full * batch + last
    ensures full == total / batch
  {
    var q := total / batch;
    assert total == q * batch + total % batch;
    assert full < q ==> (full + 1) * batch <= q * batch;
    assert q < full ==> (q + 1) * batch <= full * batch;
  }

  ghost predicate AllFull(batches: seq<set<nat>>, batch: int) {
    forall i :: 0 <= i < |batches| ==> |batches[i]| == batch
  }

  lemma {:induction false} FullDeleted(batches: seq<set<nat>>, batch: nat, k: nat)
    requires k <= |batches| && AllFull(batches[..k], batch)
    ensures Deleted(batches, k) == k * batch
  {
    if k > 0 {
      assert batches[..k][..k - 1] == batches[..k - 1];
      assert batches[..k][k - 1] == batches[k - 1];
      FullDeleted(batches, batch, k - 1);
      assert k * batch == (k - 1) * batch + batch;
    }
  }

  lemma {:induction false} LiveSame(rows: Rows, xs: seq<set<nat>>, ys: seq<set<nat>>, f: Filter, limit: int, k: nat)
    requires k <= |xs| && xs <= ys
    ensures Live(rows, xs, k) == Live(rows, ys, k) && Deleted(xs, k) == Deleted(ys, k)
    ensures IsBatchRun(rows, xs, f, limit, k) <==> IsBatchRun(rows, ys, f, limit, k)
  {
    if k > 0 {
      LiveSame(rows, xs, ys, f, limit, k - 1);
    }
  }

  lemma {:induction false} RunGrows(rows: Rows, batches: seq<set<nat>>, f: Filter, limit: int, gone: set<nat>)
    requires IsBatchRun(rows, batches, f, limit, |batches|)
    requires TakesBatch(rows, Live(rows, batches, |batches|), f, limit, gone)
    ensures var next := batches + [gone];
            && IsBatchRun(rows, next, f, limit, |next|)
            && Live(rows, next, |next|) == Live(rows, batches, |batches|) - gone
            && Deleted(next, |next|) == Deleted(batches, |batches|) + |gone|
  {
    LiveSame(rows, batches, batches + [gone], f, limit, |batches|);
  }

  // ----- The service -----

  datatype Config = Config(samplesDays: int, alertsDays: int, batchSize: int)

  datatype CleanupRequest = CleanupRequest(
    machineID: Option<nat>, deleteSamples: bool, deleteAlerts: bool,
    samplesDays: Option<int>, alertsDays: Option<int>)

  datatype CleanupResponse = CleanupResponse(deletedSamples: nat, deletedAlerts: nat)

  const DAY := 86400

  function Days(asked: Option<int>, configured: int): int {
    if asked.Some? then asked.value else configured
  }

  /** Asking for neither table means both. */
  predicate WantsSamples(req: CleanupRequest) {
    req.deleteSamples || !req.deleteAlerts
  }

  predicate WantsAlerts(req: CleanupRequest) {
    req.deleteAlerts || !req.deleteSamples
  }

  function Cutoff(req: CleanupRequest, now: int, days: int): Filter {
    Filter(req.machineID, now - days * DAY)
  }

  function CallsFor(wanted: bool, needed: nat): nat {
    if wanted then needed else 0
  }

  class Service {
    const cfg: Config
    const samples: History
    const alerts: History

    constructor (cfg: Config, samples: History, alerts: History)
      ensures this.cfg == cfg && this.samples == samples && this.alerts == alerts
    {
      this.cfg, this.samples, this.alerts := cfg, samples, alerts;
    }

    ghost predicate ValidRequest(req: CleanupRequest) {
      && (WantsSamples(req) ==> Days(req.samplesDays, cfg.samplesDays) > 0)
      && (WantsAlerts(req) ==> Days(req.alertsDays, cfg.alertsDays) > 0)
    }

    ghost function SamplesFilter(req: CleanupRequest, now: int): Filter {
      Cutoff(req, now, Days(req.samplesDays, cfg.samplesDays))
    }

    ghost function AlertsFilter(req: CleanupRequest, now: int): Filter {
      Cutoff(req, now, Days(req.alertsDays, cfg.alertsDays))
    }

    /** A request with a non-positive age for a wanted table is refused before anything is deleted. Otherwise
        each wanted table loses exactly its expired rows and the other table none, provided the batch size
        is positive and the timeout leaves enough store calls; if not, the failure is reported, with only
        expired rows gone, oldest first. */
    method Cleanup(req: CleanupRequest, now: int, calls: nat) returns (r: Result<CleanupResponse, CleanupError>)
      requires samples != alerts
      modifies samples, alerts
      ensures r == Err(InvalidRequest) <==> !ValidRequest(req)
      ensures r == Err(InvalidRequest) || !WantsSamples(req) ==> samples.rows == old(samples.rows)
      ensures r == Err(InvalidRequest) || !WantsAlerts(req) ==> alerts.rows == old(alerts.rows)
      ensures r.Ok? <==>
                && ValidRequest(req) && cfg.batchSize > 0
                && CallsFor(WantsSamples(req), CallsNeeded(old(samples.rows), SamplesFilter(req, now), cfg.batchSize))
                   + CallsFor(WantsAlerts(req), CallsNeeded(old(alerts.rows), AlertsFilter(req, now), cfg.batchSize)) <= calls
      ensures r.Ok? && WantsSamples(req) ==>
                Cleaned(old(samples.rows), samples.rows, SamplesFilter(req, now), r.value.deletedSamples)
      ensures r.Ok? && WantsAlerts(req) ==>
                Cleaned(old(alerts.rows), alerts.rows, AlertsFilter(req, now), r.value.deletedAlerts)
      ensures r == Err(TimedOut) ==>
                && PartlyCleaned(old(samples.rows), samples.rows, SamplesFilter(req, now))
                && PartlyCleaned(old(alerts.rows), alerts.rows, AlertsFilter(req, now))
    {
      var deleteSamples, deleteAlerts := req.deleteSamples, req.deleteAlerts;
      if !deleteSamples && !deleteAlerts {
        deleteSamples, deleteAlerts := true, true;
      }
      var samplesDays, alertsDays := Days(req.samplesDays, cfg.samplesDays), Days(req.alertsDays, cfg.alertsDays);
      if (deleteSamples && samplesDays <= 0) || (deleteAlerts && alertsDays <= 0) {
        return Err(InvalidRequest);
      }
      NothingGone(samples.rows, SamplesFilter(req, now));
      NothingGone(alerts.rows, AlertsFilter(req, now));
      CleanedPartly(samples.rows, SamplesFilter(req, now));
      var deletedSamples, deletedAlerts, left := 0, 0, calls;
      if deleteSamples {
        var deleted, used := samples.DeleteExpired(Cutoff(req, now, samplesDays), cfg.batchSize, left);
        if deleted.Err? {
          return Err(deleted.error);
        }
        deletedSamples, left := deleted.value, left - used;
      }
      if deleteAlerts {
        var deleted, used := alerts.DeleteExpired(Cutoff(req, now, alertsDays), cfg.batchSize, left);
        if deleted.Err? {
          return Err(deleted.error);
        }
        deletedAlerts := deleted.value;
      }
      r := Ok(CleanupResponse(deletedSamples, deletedAlerts));
    }
  }

  lemma {:induction false} NothingGone(rows: Rows, f: Filter)
    ensures PartlyCleaned(rows, rows, f)
  {
    assert rows.Keys - rows.Keys == {};
  }

  lemma {:induction false} CleanedPartly(rows: Rows, f: Filter)
    ensures PartlyCleaned(rows, rows - Matches(rows, rows.Keys, f), f)
  {
    var gone := Matches(rows, rows.Keys, f);
    var after := rows - gone;
    assert after.Keys == rows.Keys - gone && rows.Keys - after.Keys == gone;
    assert Matches(rows, after.Keys, f) == {};
  }
}
