/** The alert service: loops over samples, metrics, alerts and channels that create alerts, record
    deliveries and set one status per alert. */
module AlertService {
  import opened Wrappers
  import opened Text
  import opened BackupModel
  import opened Thresholds
  import opened Alerts
  import D = AlertDispatch

  // ----- Looking rules up by text key -----

  function RuleAt(index: map<string, RuleView>, d: Dimension): Option<Rule> {
    var key := DimensionKey(d);
    if key in index then Some(Rule(index[key].thresholdMB, index[key].enabled)) else None
  }

  /** The index answers with the effective rule, for every period text and every colon-free metric. */
  ghost predicate IndexesEffective(index: map<string, RuleView>, globals: map<Dimension, Rule>, own: map<Dimension, Rule>) {
    forall d: Dimension :: ColonFree(d.metric) ==> RuleAt(index, d) == Effective(globals, own, d)
  }

  lemma {:induction false} ShownRule(v: RuleView, globals: map<Dimension, Rule>, own: map<Dimension, Rule>, d: Dimension)
    requires Shows(v, globals, own, d)
    ensures v.dim == d && Effective(globals, own, d) == Some(Rule(v.thresholdMB, v.enabled))
  {
  }

  ghost predicate Indexed(index: map<string, RuleView>, globals: map<Dimension, Rule>, own: map<Dimension, Rule>) {
    && (forall d :: d in globals.Keys + own.Keys ==> DimensionKey(d) in index)
    && (forall k :: k in index ==> DimensionKey(index[k].dim) == k && Shows(index[k], globals, own, index[k].dim))
  }

  lemma {:induction false} IndexedAnswers(index: map<string, RuleView>, globals: map<Dimension, Rule>, own: map<Dimension, Rule>, d: Dimension)
    requires Indexed(index, globals, own) && ValidDims(globals.Keys + own.Keys) && ColonFree(d.metric)
    ensures RuleAt(index, d) == Effective(globals, own, d)
  {
    var key := DimensionKey(d);
    if key in index {
      DimensionKeyInjective(index[key].dim, d);
      ShownRule(index[key], globals, own, d);
    } else {
      assert d !in globals.Keys + own.Keys;
    }
  }

  /** Every view is found under its text key, and nothing else is. */
  ghost predicate KeysViews(index: map<string, RuleView>, vs: seq<RuleView>) {
    && (forall i :: 0 <= i < |vs| ==> DimensionKey(vs[i].dim) in index)
    && (forall k :: k in index ==> index[k] in vs && DimensionKey(index[k].dim) == k)
  }

  method IndexViews(vs: seq<RuleView>) returns (index: map<string, RuleView>)
    ensures KeysViews(index, vs)
  {
    index := map[];
    for i := 0 to |vs|
      invariant forall j :: 0 <= j < i ==> DimensionKey(vs[j].dim) in index
      invariant forall k :: k in index ==> index[k] in vs && DimensionKey(index[k].dim) == k
    {
      index := index[DimensionKey(vs[i].dim) := vs[i]];
    }
  }

  lemma {:induction false} KeyedCovers(index: map<string, RuleView>, vs: seq<RuleView>, d: Dimension)
    requires KeysViews(index, vs) && d in ViewDims(vs)
    ensures DimensionKey(d) in index
  {
    var i :| 0 <= i < |vs| && ViewDims(vs)[i] == d;
    assert vs[i].dim == d;
  }

  lemma {:induction false} KeyedShows(index: map<string, RuleView>, vs: seq<RuleView>, globals: map<Dimension, Rule>, own: map<Dimension, Rule>, k: string)
    requires KeysViews(index, vs) && AllShow(vs, ViewDims(vs), globals, own) && k in index
    ensures Shows(index[k], globals, own, index[k].dim)
  {
    var i :| 0 <= i < |vs| && vs[i] == index[k];
    assert Shows(vs[i], globals, own, ViewDims(vs)[i]);
  }

  lemma {:induction false} KeyedMerge(index: map<string, RuleView>, vs: seq<RuleView>, globals: map<Dimension, Rule>, own: map<Dimension, Rule>)
    requires KeysViews(index, vs) && IsMerge(vs, ViewDims(vs), globals, own)
    ensures Indexed(index, globals, own)
  {
    forall d | d in globals.Keys + own.Keys
      ensures DimensionKey(d) in index
    {
      KeyedCovers(index, vs, d);
    }
    forall k | k in index
      ensures Shows(index[k], globals, own, index[k].dim)
    {
      KeyedShows(index, vs, globals, own, k);
    }
  }

  lemma {:induction false} IndexedEverywhere(index: map<string, RuleView>, globals: map<Dimension, Rule>, own: map<Dimension, Rule>)
    requires Indexed(index, globals, own) && ValidDims(globals.Keys + own.Keys)
    ensures IndexesEffective(index, globals, own)
  {
    forall d: Dimension | ColonFree(d.metric)
      ensures RuleAt(index, d) == Effective(globals, own, d)
    {
      IndexedAnswers(index, globals, own, d);
    }
  }

  // ----- Creating in two goes -----

  lemma {:induction false} CreatedInTurn(alerts: seq<Alert>, xs: seq<Alert>, ys: seq<Alert>)
    ensures Created(alerts, xs + ys) == Created(Created(alerts, xs), ys)
    decreases |ys|
  {
    if ys == [] {
      assert xs + ys == xs;
    } else {
      var n := |ys| - 1;
      CreatedInTurn(alerts, xs, ys[..n]);
      assert (xs + ys)[..|xs| + n] == xs + ys[..n];
    }
  }

  function Range(lo: nat, hi: nat): (r: seq<nat>)
    ensures lo <= hi ==> |r| == hi - lo
    ensures forall i :: 0 <= i < |r| ==> r[i] == lo + i
    decreases hi
  {
    if lo >= hi then [] else Range(lo, hi - 1) + [hi - 1]
  }

  lemma {:induction false} RangeJoin(lo: nat, mid: nat, hi: nat)
    requires lo <= mid <= hi
    ensures Range(lo, mid) + Range(mid, hi) == Range(lo, hi)
  {
  }

  lemma {:induction false} WantedInTurn(alerts: seq<Alert>, globals: map<Dimension, Rule>, own: map<Dimension, Rule>,
                                        samples: seq<Sample>, now: int, i: nat)
    requires i < |samples|
    ensures Created(alerts, Wanted(globals, own, samples[..i + 1], now))
         == Created(Created(alerts, Wanted(globals, own, samples[..i], now)), Judged(globals, own, samples[i], now))
  {
    assert samples[..i + 1][..i] == samples[..i];
    CreatedInTurn(alerts, Wanted(globals, own, samples[..i], now), Judged(globals, own, samples[i], now));
  }

  class Service {
    /** Alerts in creation order; an alert's position is its row key. */
    var alerts: seq<Alert>
    var deliveries: seq<D.Delivery>

    constructor ()
      ensures alerts == [] && deliveries == []
    {
      alerts, deliveries := [], [];
    }

    /** One INSERT with ON CONFLICT DO NOTHING on the alert key. */
    method CreateIfAbsent(a: Alert) returns (created: bool)
      modifies this`alerts
      ensures created == !HasKey(old(alerts), a.key)
      ensures alerts == if created then old(alerts) + [a] else old(alerts)
    {
      for i := 0 to |alerts|
        invariant alerts == old(alerts)
        invariant forall j :: 0 <= j < i ==> alerts[j].key != a.key
      {
        if alerts[i].key == a.key {
          return false;
        }
      }
      alerts := alerts + [a];
      created := true;
    }

    method EvaluateMetric(s: Sample, metric: string, index: map<string, RuleView>,
                          ghost globals: map<Dimension, Rule>, ghost own: map<Dimension, Rule>) returns (created: seq<nat>)
      requires IndexesEffective(index, globals, own) && ColonFree(metric)
      modifies this`alerts
      ensures alerts == Created(old(alerts), MetricAlerts(globals, own, s, metric))
      ensures created == Range(|old(alerts)|, |alerts|)
    {
      created := [];
      var rule := RuleAt(index, Dimension(s.period, metric));
      if rule.None? || !rule.value.enabled || Actual(s, metric) <= rule.value.thresholdMB {
        return;
      }
      var a := NewAlert(s, metric, rule.value.thresholdMB);
      assert MetricAlerts(globals, own, s, metric) == [a];
      assert [a][..0] == [];
      var ok := CreateIfAbsent(a);
      if ok {
        created := [|alerts| - 1];
      }
    }

    /** The three metrics of one sample, in order. */
    method EvaluateSample(s: Sample, index: map<string, RuleView>,
                          ghost globals: map<Dimension, Rule>, ghost own: map<Dimension, Rule>) returns (created: seq<nat>)
      requires IndexesEffective(index, globals, own)
      modifies this`alerts
      ensures alerts == Created(old(alerts), SampleAlerts(globals, own, s))
      ensures created == Range(|old(alerts)|, |alerts|)
    {
      ghost var u := MetricAlerts(globals, own, s, "upload");
      ghost var d := MetricAlerts(globals, own, s, "download");
      ghost var t := MetricAlerts(globals, own, s, "total");
      created := EvaluateMetric(s, "upload", index, globals, own);
      ghost var mid := |alerts|;
      var more := EvaluateMetric(s, "download", index, globals, own);
      CreatedInTurn(old(alerts), u, d);
      RangeJoin(|old(alerts)|, mid, |alerts|);
      created, mid := created + more, |alerts|;
      more := EvaluateMetric(s, "total", index, globals, own);
      CreatedInTurn(old(alerts), u + d, t);
      RangeJoin(|old(alerts)|, mid, |alerts|);
      created := created + more;
    }

    /** All samples of one evaluation, before anything is dispatched. */
    method EvaluateAll(samples: seq<Sample>, now: int, index: map<string, RuleView>,
                       ghost globals: map<Dimension, Rule>, ghost own: map<Dimension, Rule>) returns (created: seq<nat>)
      requires IndexesEffective(index, globals, own)
      modifies this`alerts
      ensures alerts == Created(old(alerts), Wanted(globals, own, samples, now))
      ensures created == Range(|old(alerts)|, |alerts|)
    {
      created := [];
      for i := 0 to |samples|
        invariant alerts == Created(old(alerts), Wanted(globals, own, samples[..i], now))
        invariant created == Range(|old(alerts)|, |alerts|)
      {
        WantedInTurn(old(alerts), globals, own, samples, now, i);
        if IsCompleted(samples[i].period, samples[i].bucket, now) {
          ghost var mid := |alerts|;
          var more := EvaluateSample(samples[i], index, globals, own);
          RangeJoin(|old(alerts)|, mid, |alerts|);
          created := created + more;
        }
      }
      assert samples[..|samples|] == samples;
    }

    // ----- Dispatch -----

    /** Sets the status of one row; a key without a row changes nothing. */
    method UpdateNotifyStatus(id: nat, status: string)
      modifies this`alerts
      ensures alerts == if id < |old(alerts)| then old(alerts)[id := old(alerts)[id].(status := status)] else old(alerts)
    {
      if id < |alerts| {
        alerts := alerts[id := alerts[id].(status := status)];
      }
    }

    method CreateNotificationDelivery(channelType: string, id: nat, success: bool)
      modifies this`deliveries
      ensures deliveries == old(deliveries) + [D.Delivery(id, channelType, success)]
    {
      deliveries := deliveries + [D.Delivery(id, channelType, success)];
    }

    /** One channel, all alerts of the batch: Telegram sends once for all, every other channel once each. */
    method DispatchChannel(c: D.Channel, ids: seq<nat>, world: D.World, succeeded: map<nat, bool>)
      returns (succeeded': map<nat, bool>)
      requires forall i :: 0 <= i < |ids| ==> ids[i] in succeeded
      modifies this`deliveries
      ensures deliveries == old(deliveries) + D.ChannelDeliveries(world, c, ids, |ids|)
      ensures succeeded'.Keys == succeeded.Keys
      ensures forall id :: id in ids ==> succeeded'[id] == (succeeded[id] && D.Outcome(world, c, ids, id))
    {
      succeeded' := succeeded;
      var batchSent := false;
      if c.channelType == "telegram" {
        batchSent := world.telegramBatch(c.config, ids);
      }
      for i := 0 to |ids|
        invariant deliveries == old(deliveries) + D.ChannelDeliveries(world, c, ids, i)
        invariant succeeded'.Keys == succeeded.Keys
        invariant forall id :: id in succeeded ==>
                    succeeded'[id] == (succeeded[id] && (id in ids[..i] ==> D.Outcome(world, c, ids, id)))
      {
        assert ids[..i + 1] == ids[..i] + [ids[i]];
        var sent := batchSent;
        if c.channelType != "telegram" {
          sent := c.channelType == "webhook" && world.webhook(c.config, ids[i]);
        }
        CreateNotificationDelivery(c.channelType, ids[i], sent);
        if !sent {
          succeeded' := succeeded'[ids[i] := false];
        }
      }
      assert ids[..|ids|] == ids;
    }

    method SetStatuses(ids: seq<nat>, statuses: map<nat, string>)
      requires forall i :: 0 <= i < |ids| ==> ids[i] < |alerts| && ids[i] in statuses
      modifies this`alerts
      ensures |alerts| == |old(alerts)|
      ensures forall i :: 0 <= i < |alerts| ==>
                alerts[i] == if i in ids then old(alerts)[i].(status := statuses[i]) else old(alerts)[i]
    {
      for i := 0 to |ids|
        invariant |alerts| == |old(alerts)|
        invariant forall j :: 0 <= j < |alerts| ==>
                    alerts[j] == if j in ids[..i] then old(alerts)[j].(status := statuses[j]) else old(alerts)[j]
      {
        assert ids[..i + 1] == ids[..i] + [ids[i]];
        UpdateNotifyStatus(ids[i], statuses[ids[i]]);
      }
      assert ids[..|ids|] == ids;
    }

    method DispatchThrough(enabled: seq<D.Channel>, ids: seq<nat>, world: D.World) returns (succeeded: map<nat, bool>)
      modifies this`deliveries
      ensures deliveries == old(deliveries) + D.Deliveries(world, enabled, ids)
      ensures forall id :: id in ids ==> id in succeeded && succeeded[id] == AllDeliver(world, enabled, ids, |enabled|, id)
    {
      succeeded := map id | id in ids :: true;
      for c := 0 to |enabled|
        invariant deliveries == old(deliveries) + D.Deliveries(world, enabled[..c], ids)
        invariant succeeded.Keys == set id | id in ids
        invariant forall id :: id in ids ==> succeeded[id] == AllDeliver(world, enabled, ids, c, id)
      {
        DeliveriesGrow(old(deliveries), world, enabled, ids, c);
        succeeded := DispatchChannel(enabled[c], ids, world, succeeded);
      }
      assert enabled[..|enabled|] == enabled;
    }

    /** dispatchAlerts: every alert through every enabled channel, then one status per alert. */
    method DispatchAlerts(ids: seq<nat>, channels: seq<D.Channel>, world: D.World)
      requires forall i :: 0 <= i < |ids| ==> ids[i] < |alerts|
      modifies this
      ensures deliveries == old(deliveries) + D.Deliveries(world, D.Enabled(channels), ids)
      ensures Notified(old(alerts), alerts, ids, world, D.Enabled(channels))
    {
      if ids == [] {
        D.DeliveriesCounted(world, D.Enabled(channels), ids);
        return;
      }
      var enabled := EnabledChannels(channels);
      if enabled == [] {
        SetStatuses(ids, map id | id in ids :: "skipped");
        return;
      }
      var succeeded := DispatchThrough(enabled, ids, world);
      StatusFromOutcomes(world, enabled, ids);
      SetStatuses(ids, map id | id in ids :: if succeeded[id] then "sent" else "failed");
    }

    method EffectiveIndex(rules: seq<RuleView>,
                          ghost globals: map<Dimension, Rule>, ghost own: map<Dimension, Rule>) returns (index: map<string, RuleView>)
      requires IsMerge(rules, ViewDims(rules), globals, own) && ValidDims(globals.Keys + own.Keys)
      ensures IndexesEffective(index, globals, own)
    {
      index := IndexViews(rules);
      KeyedMerge(index, rules, globals, own);
      IndexedEverywhere(index, globals, own);
    }

    /** EvaluateSamples without store errors: the wanted alerts that did not exist yet are created, and
        exactly those are dispatched, each getting its status. */
    method EvaluateSamples(samples: seq<Sample>, now: int, rules: seq<RuleView>, channels: seq<D.Channel>, world: D.World,
                           ghost globals: map<Dimension, Rule>, ghost own: map<Dimension, Rule>)
      requires IsMerge(rules, ViewDims(rules), globals, own) && ValidDims(globals.Keys + own.Keys)
      modifies this
      ensures var all := Created(old(alerts), Wanted(globals, own, samples, now));
              var ids := Range(|old(alerts)|, |all|);
              && deliveries == old(deliveries) + D.Deliveries(world, D.Enabled(channels), ids)
              && Notified(all, alerts, ids, world, D.Enabled(channels))
    {
      var index := EffectiveIndex(rules, globals, own);
      var ids := EvaluateAll(samples, now, index, globals, own);
      DispatchAlerts(ids, channels, world);
    }
  }

  /** Exactly the dispatched alerts got their status; nothing else changed. */
  ghost predicate Notified(before: seq<Alert>, after: seq<Alert>, ids: seq<nat>, world: D.World, enabled: seq<D.Channel>) {
    && |after| == |before|
    && forall i :: 0 <= i < |after| ==>
         after[i] == if i in ids then before[i].(status := D.Status(world, enabled, ids, i)) else before[i]
  }

  lemma {:induction false} DeliveriesGrow(base: seq<D.Delivery>, world: D.World, enabled: seq<D.Channel>, ids: seq<nat>, c: nat)
    requires c < |enabled|
    ensures base + D.Deliveries(world, enabled[..c + 1], ids)
         == base + D.Deliveries(world, enabled[..c], ids) + D.ChannelDeliveries(world, enabled[c], ids, |ids|)
  {
    assert enabled[..c + 1][..c] == enabled[..c];
  }

  /** The first `c` channels all deliver the alert. */
  ghost predicate AllDeliver(world: D.World, enabled: seq<D.Channel>, ids: seq<nat>, c: nat, id: nat)
    requires c <= |enabled|
  {
    c == 0 || (AllDeliver(world, enabled, ids, c - 1, id) && D.Outcome(world, enabled[c - 1], ids, id))
  }

  lemma {:induction false} AllDeliverMeans(world: D.World, enabled: seq<D.Channel>, ids: seq<nat>, c: nat, id: nat)
    requires c <= |enabled|
    ensures AllDeliver(world, enabled, ids, c, id) <==> forall e :: 0 <= e < c ==> D.Outcome(world, enabled[e], ids, id)
  {
    if c > 0 {
      AllDeliverMeans(world, enabled, ids, c - 1, id);
    }
  }

  lemma {:induction false} StatusFromOutcomes(world: D.World, enabled: seq<D.Channel>, ids: seq<nat>)
    requires enabled != []
    ensures forall id :: id in ids ==>
              D.Status(world, enabled, ids, id) == if AllDeliver(world, enabled, ids, |enabled|, id) then "sent" else "failed"
  {
    forall id | id in ids
      ensures D.Status(world, enabled, ids, id) == if AllDeliver(world, enabled, ids, |enabled|, id) then "sent" else "failed"
    {
      var i :| 0 <= i < |ids| && ids[i] == id;
      D.StatusMeans(world, enabled, ids, i);
      AllDeliverMeans(world, enabled, ids, |enabled|, id);
    }
  }

  /** An evaluation leaves existing alerts alone, and every alert it adds has left "pending". */
  lemma {:induction false} EvaluationSettlesNewAlerts(before: seq<Alert>, wanted: seq<Alert>, after: seq<Alert>,
                                                      world: D.World, enabled: seq<D.Channel>)
    requires var all := Created(before, wanted);
             Notified(all, after, Range(|before|, |all|), world, enabled)
    ensures before <= after
    ensures forall i :: |before| <= i < |after| ==> after[i].status in {"skipped", "sent", "failed"}
  {
    CreatedExtends(before, wanted);
    InRange(|before|, |after|);
  }

  method EnabledChannels(channels: seq<D.Channel>) returns (enabled: seq<D.Channel>)
    ensures enabled == D.Enabled(channels)
  {
    enabled := [];
    for i := 0 to |channels|
      invariant enabled == D.Enabled(channels[..i])
    {
      assert channels[..i + 1][..i] == channels[..i];
      if channels[i].enabled {
        enabled := enabled + [channels[i]];
      }
    }
    assert channels[..|channels|] == channels;
  }

  lemma {:induction false} InRange(lo: nat, hi: nat)
    ensures forall k: nat :: k in Range(lo, hi) <==> lo <= k < hi
  {
    forall k: nat | lo <= k < hi
      ensures k in Range(lo, hi)
    {
      assert Range(lo, hi)[k - lo] == k;
    }
  }
}
