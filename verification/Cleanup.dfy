/** History cleanup: deleting everything older than a cutoff in batches, oldest first. */
module Cleanup {
  import opened Wrappers

  datatype Row = Row(machineID: nat, bucket: int)

  /** Rows of one machine, or of all, from before a moment. */
  datatype Filter = Filter(machineID: Option<nat>, before: int)

  type Rows = map<nat, Row>

  predicate IsMatch(f: Filter, r: Row) {
    r.bucket < f.before && (f.machineID == None || f.machineID == Some(r.machineID))
  }

  /** The matching rows among those still there; rows are only ever removed, never changed. */
  function Matches(rows: Rows, live: set<nat>, f: Filter): set<nat> {
    set id | id in live && id in rows && IsMatch(f, rows[id])
  }

  /** What one unbounded delete leaves. */
  function Survivors(rows: Rows, f: Filter): set<nat> {
    rows.Keys - Matches(rows, rows.Keys, f)
  }

  // ----- One limited delete -----

  predicate NoneNewer(rows: Rows, gone: set<nat>, kept: set<nat>) {
    forall a, b :: a in gone && b in kept && a in rows && b in rows ==> rows[a].bucket <= rows[b].bucket
  }

  function Capped(limit: int, n: nat): nat {
    if 0 < limit < n then limit else n
  }

  /** One call: up to `limit` matches, oldest first, with ties broken anyhow; without a limit, all of them. */
  ghost predicate TakesBatch(rows: Rows, live: set<nat>, f: Filter, limit: int, gone: set<nat>) {
    var all := Matches(rows, live, f);
    gone <= all && |gone| == Capped(limit, |all|) && NoneNewer(rows, gone, all - gone)
  }

  lemma {:induction false} SizeOfRest(all: set<nat>, part: set<nat>)
    requires part <= all
    ensures |all - part| == |all| - |part|
  {
    assert all == part + (all - part);
  }

  /** A batch takes exactly its rows from the matches. */
  lemma {:induction false} BatchEffect(rows: Rows, live: set<nat>, f: Filter, limit: int, gone: set<nat>)
    requires TakesBatch(rows, live, f, limit, gone)
    ensures Matches(rows, live - gone, f) == Matches(rows, live, f) - gone
    ensures |Matches(rows, live - gone, f)| == |Matches(rows, live, f)| - |gone|
  {
    assert Matches(rows, live - gone, f) == Matches(rows, live, f) - gone;
    SizeOfRest(Matches(rows, live, f), gone);
  }

  // ----- A run of batches -----

  /** What is still there after the first `k` batches. */
  ghost function Live(rows: Rows, batches: seq<set<nat>>, k: nat): set<nat>
    requires k <= |batches|
  {
    if k == 0 then rows.Keys else Live(rows, batches, k - 1) - batches[k - 1]
  }

  /** The first `k` calls, all with one limit. */
  ghost predicate IsBatchRun(rows: Rows, batches: seq<set<nat>>, f: Filter, limit: int, k: nat)
    requires k <= |batches|
  {
    k == 0
    || (IsBatchRun(rows, batches, f, limit, k - 1)
        && TakesBatch(rows, Live(rows, batches, k - 1), f, limit, batches[k - 1]))
  }

  ghost function Deleted(batches: seq<set<nat>>, k: nat): nat
    requires k <= |batches|
  {
    if k == 0 then 0 else Deleted(batches, k - 1) + |batches[k - 1]|
  }

  /** Only matches are gone, as many as were reported, and none of them is newer than a match still there. */
  ghost predicate Progressed(rows: Rows, f: Filter, live: set<nat>, total: nat) {
    && live <= rows.Keys
    && rows.Keys - live <= Matches(rows, rows.Keys, f)
    && NoneNewer(rows, rows.Keys - live, Matches(rows, live, f))
    && total == |rows.Keys - live|
    && total + |Matches(rows, live, f)| == |Matches(rows, rows.Keys, f)|
  }

  lemma {:induction false} ProgressOn(rows: Rows, f: Filter, live: set<nat>, total: nat, limit: int, gone: set<nat>)
    requires Progressed(rows, f, live, total) && TakesBatch(rows, live, f, limit, gone)
    ensures Progressed(rows, f, live - gone, total + |gone|)
  {
    BatchEffect(rows, live, f, limit, gone);
    assert rows.Keys - (live - gone) == (rows.Keys - live) + gone;
    SizeOfRest(rows.Keys - (live - gone), gone);
    assert (rows.Keys - live) + gone - gone == rows.Keys - live;
  }

  /** At every intermediate point the deleted rows are the oldest matches, and no other row is touched. */
  lemma {:induction false} RunsProgress(rows: Rows, batches: seq<set<nat>>, f: Filter, limit: int, k: nat)
    requires k <= |batches| && IsBatchRun(rows, batches, f, limit, k)
    ensures Progressed(rows, f, Live(rows, batches, k), Deleted(batches, k))
  {
    if k == 0 {
      assert rows.Keys - rows.Keys == {};
    } else {
      RunsProgress(rows, batches, f, limit, k - 1);
      ProgressOn(rows, f, Live(rows, batches, k - 1), Deleted(batches, k - 1), limit, batches[k - 1]);
    }
  }

  /** The loop leaves after a call that deleted fewer rows than the batch size. */
  predicate LeavesAfter(deleted: nat, batch: int) {
    deleted < batch
  }

  /** With a positive batch size, all calls before the last delete a full batch. */
  lemma {:induction false} FullBatches(rows: Rows, batches: seq<set<nat>>, f: Filter, batch: nat, k: nat)
    requires batch > 0 && k <= |batches| && IsBatchRun(rows, batches, f, batch, k)
    requires k * batch <= |Matches(rows, rows.Keys, f)|
    ensures |Matches(rows, Live(rows, batches, k), f)| == |Matches(rows, rows.Keys, f)| - k * batch
  {
    if k > 0 {
      assert (k - 1) * batch == k * batch - batch;
      FullBatches(rows, batches, f, batch, k - 1);
      BatchEffect(rows, Live(rows, batches, k - 1), f, batch, batches[k - 1]);
    }
  }

  lemma {:induction false} Division(k: nat, n: nat, batch: nat)
    requires batch > 0 && k <= n / batch
    ensures k * batch <= n
    ensures n - k * batch < batch <==> k == n / batch
  {
    var q := n / batch;
    assert q * batch <= n < q * batch + batch;
    assert k * batch <= q * batch;
    if k < q {
      assert (k + 1) * batch <= q * batch;
      assert (k + 1) * batch == k * batch + batch;
    }
  }

  /** Termination, exactly: for n matching rows the loop leaves after call number n / batch (from zero), and
      after no earlier one, if the batch size is positive; it leaves after no call at all if it is not. */
  lemma {:induction false} LeavesExactly(rows: Rows, batches: seq<set<nat>>, f: Filter, batch: int, k: nat)
    requires k < |batches| && IsBatchRun(rows, batches, f, batch, k + 1)
    ensures batch <= 0 ==> !LeavesAfter(|batches[k]|, batch)
    ensures batch > 0 && k <= |Matches(rows, rows.Keys, f)| / batch ==>
              (LeavesAfter(|batches[k]|, batch) <==> k == |Matches(rows, rows.Keys, f)| / batch)
  {
    var n := |Matches(rows, rows.Keys, f)|;
    if batch > 0 && k <= n / batch {
      Division(k, n, batch);
      FullBatches(rows, batches, f, batch, k);
    }
  }

  lemma {:induction false} NoMatchLeft(rows: Rows, f: Filter, live: set<nat>, total: nat)
    requires Progressed(rows, f, live, total) && Matches(rows, live, f) == {}
    ensures live == Survivors(rows, f) && total == |Matches(rows, rows.Keys, f)|
  {
    assert forall id :: id in Matches(rows, rows.Keys, f) && id in live ==> id in Matches(rows, live, f);
  }

  /** When the loop leaves, exactly the rows of one unbounded delete are gone. */
  lemma {:induction false} LeavesSurvivors(rows: Rows, batches: seq<set<nat>>, f: Filter, batch: int)
    requires IsBatchRun(rows, batches, f, batch, |batches|)
    requires batches != [] && LeavesAfter(|batches[|batches| - 1]|, batch)
    ensures Live(rows, batches, |batches|) == Survivors(rows, f)
    ensures Deleted(batches, |batches|) == |Matches(rows, rows.Keys, f)|
  {
    var k := |batches| - 1;
    BatchEffect(rows, Live(rows, batches, k), f, batch, batches[k]);
    RunsProgress(rows, batches, f, batch, k + 1);
    NoMatchLeft(rows, f, Live(rows, batches, k + 1), Deleted(batches, k + 1));
  }
}
