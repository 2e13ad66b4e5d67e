/** What holds over whole runs of evaluations and cleanups. */
module AlertRuns {
  import opened Wrappers
  import opened Tables
  import opened BackupModel
  import opened Alerts
  import opened AlertProtocol
  import D = AlertDispatch
  import C = Cleanup

  ghost predicate IsStep(s: State, a: Action, t: State) {
    Enabled(s, a) && t == Apply(s, a)
  }

  ghost predicate IsPath(states: seq<State>, actions: seq<Action>) {
    && |states| == |actions| + 1
    && forall i {:trigger actions[i]} :: 0 <= i < |actions| ==> IsStep(states[i], actions[i], states[i + 1])
  }

  ghost predicate IsRun(states: seq<State>, actions: seq<Action>) {
    IsPath(states, actions) && Initial(states[0])
  }

  lemma {:induction false} RunInv(states: seq<State>, actions: seq<Action>, n: nat)
    requires IsRun(states, actions) && n < |states|
    ensures Inv(states[n])
  {
    if n > 0 {
      RunInv(states, actions, n - 1);
      assert IsStep(states[n - 1], actions[n - 1], states[n]);
      StepInv(states[n - 1], actions[n - 1]);
    }
  }

  // ----- At most once -----

  predicate SameSubject(a: Alert, b: Alert) {
    a.machineID == b.machineID && a.period == b.period && a.metric == b.metric && a.bucket == b.bucket
  }

  /** Of two alerts about one machine, period, metric and second the older has been deleted, so at most one
      is there. */
  ghost predicate OneAlertEach(s: State) {
    forall i, j :: 0 <= i < j < |s.alerts| && SameSubject(s.alerts[i], s.alerts[j]) ==> i in s.gone
  }

  /** No alert is dispatched by two evaluations. */
  ghost predicate OneDispatcherEach(s: State) {
    forall e, f, k, l :: 0 <= e < f < |s.evals| && 0 <= k < |s.evals[e].created| && 0 <= l < |s.evals[f].created| ==>
      s.evals[e].created[k] != s.evals[f].created[l]
  }

  ghost predicate SameDelivery(d: D.Delivery, f: D.Delivery) {
    d.alertID == f.alertID && d.channelType == f.channelType
  }

  /** At most one delivery of each alert through each channel type, and none for alerts older than the run. */
  ghost predicate OneDeliveryEach(s: State) {
    && (forall k :: 0 <= k < |s.deliveries| ==> s.base <= s.deliveries[k].record.alertID < |s.alerts|)
    && forall k, l :: 0 <= k < l < |s.deliveries| ==> !SameDelivery(s.deliveries[k].record, s.deliveries[l].record)
  }

  /** No alert is in both messages. */
  ghost predicate Apart(m: Sending, n: Sending) {
    forall p, q :: 0 <= p < |m.ids| && 0 <= q < |n.ids| ==> m.ids[p] != n.ids[q]
  }

  /** Each alert is sent at most once through each channel type, recorded or not, and alerts older than the run
      are not sent. */
  ghost predicate OneSendEach(s: State) {
    && (forall k, p :: 0 <= k < |s.sends| && 0 <= p < |s.sends[k].ids| ==> s.base <= s.sends[k].ids[p] < |s.alerts|)
    && forall k, l :: 0 <= k < l < |s.sends| && s.sends[k].channelType == s.sends[l].channelType ==>
         Apart(s.sends[k], s.sends[l])
  }

  lemma {:induction false} AlertsDiffer(s: State)
    requires Inv(s)
    ensures OneAlertEach(s)
  {
    assert forall i :: 0 <= i < |s.alerts| ==> WellKeyed(s.alerts[i]);
  }

  lemma {:induction false} DeliveriesDiffer(s: State, k: nat, l: nat)
    requires Inv(s) && k < l < |s.deliveries|
    ensures !SameDelivery(s.deliveries[k].record, s.deliveries[l].record)
  {
    var d, f := s.deliveries[k], s.deliveries[l];
    assert DeliveryOk(s, d) && DeliveryOk(s, f) && InOrder(d, f);
    assert EvaluationOk(s, d.from) && EvaluationOk(s, f.from);
    if d.from != f.from {
      OwnersDiffer(s, d.from, f.from);
    }
  }

  lemma {:induction false} SendsDiffer(s: State, k: nat, l: nat)
    requires Inv(s) && k < l < |s.sends| && s.sends[k].channelType == s.sends[l].channelType
    ensures Apart(s.sends[k], s.sends[l])
  {
    var m, n := s.sends[k], s.sends[l];
    assert SendOk(s, m) && SendOk(s, n) && SendsInOrder(m, n);
    assert EvaluationOk(s, m.from) && EvaluationOk(s, n.from);
    if m.from != n.from {
      OwnersDiffer(s, m.from, n.from);
    }
  }

  lemma {:induction false} SendsInside(s: State, k: nat, p: nat)
    requires Inv(s) && k < |s.sends| && p < |s.sends[k].ids|
    ensures s.base <= s.sends[k].ids[p] < |s.alerts|
  {
    assert SendOk(s, s.sends[k]);
    assert EvaluationOk(s, s.sends[k].from);
  }

  lemma {:induction false} DeliveriesInside(s: State, k: nat)
    requires Inv(s) && k < |s.deliveries|
    ensures s.base <= s.deliveries[k].record.alertID < |s.alerts|
  {
    assert DeliveryOk(s, s.deliveries[k]);
    assert EvaluationOk(s, s.deliveries[k].from);
  }

  /** Alerts fire at most once while they are there, in every state of every interleaving. */
  lemma {:induction false} AlertsFireAtMostOnce(states: seq<State>, actions: seq<Action>, n: nat)
    requires IsRun(states, actions) && n < |states|
    ensures OneAlertEach(states[n]) && OneDispatcherEach(states[n]) && OneSendEach(states[n]) && OneDeliveryEach(states[n])
  {
    RunInv(states, actions, n);
    var s := states[n];
    AlertsDiffer(s);
    forall e, f, k, l | 0 <= e < f < |s.evals| && 0 <= k < |s.evals[e].created| && 0 <= l < |s.evals[f].created|
      ensures s.evals[e].created[k] != s.evals[f].created[l]
    {
      OwnersDiffer(s, e, f);
    }
    forall k, p | 0 <= k < |s.sends| && 0 <= p < |s.sends[k].ids|
      ensures s.base <= s.sends[k].ids[p] < |s.alerts|
    {
      SendsInside(s, k, p);
    }
    forall k, l | 0 <= k < l < |s.sends| && s.sends[k].channelType == s.sends[l].channelType
      ensures Apart(s.sends[k], s.sends[l])
    {
      SendsDiffer(s, k, l);
    }
    forall k | 0 <= k < |s.deliveries|
      ensures s.base <= s.deliveries[k].record.alertID < |s.alerts|
    {
      DeliveriesInside(s, k);
    }
    forall k, l | 0 <= k < l < |s.deliveries|
      ensures !SameDelivery(s.deliveries[k].record, s.deliveries[l].record)
    {
      DeliveriesDiffer(s, k, l);
    }
  }

  ghost predicate HasAlert(s: State, a: Alert) {
    exists i :: 0 <= i < |s.alerts| && i !in s.gone && SameSubject(s.alerts[i], a)
  }

  /** Deduplication suppresses nothing else: whoever wins, after an attempt there is an alert about exactly
      the attempted subject. This is where the key must be injective. */
  lemma {:induction false} AttemptLeavesAlert(s: State, e: nat)
    requires Inv(s) && Enabled(s, Create(e))
    ensures HasAlert(Apply(s, Create(e)), s.evals[e].todo[0])
  {
    var x := s.evals[e].todo[0];
    var t := Apply(s, Create(e));
    assert EvaluationOk(s, e);
    if i :| 0 <= i < |s.alerts| && i !in s.gone && s.alerts[i].key == x.key {
      var y := s.alerts[i];
      AlertKeyInjective(y.machineID, y.period, y.metric, y.bucket, x.machineID, x.period, x.metric, x.bucket);
      assert SameSubject(t.alerts[i], x);
    } else {
      assert SameSubject(t.alerts[|s.alerts|], x);
    }
  }

  // ----- What never changes back -----

  /** The alert is about the same, and its status stays once it has left "pending" or the row is gone. */
  ghost predicate AlertEvolves(s: State, t: State, i: nat)
    requires i < |s.alerts| && i < |t.alerts|
  {
    && SameSubject(t.alerts[i], s.alerts[i])
    && (s.alerts[i].status != "pending" || i in s.gone ==> t.alerts[i] == s.alerts[i])
  }

  /** Alerts are never renamed, deleted ones never change or return, and a status never changes once it has
      left "pending". */
  ghost predicate Evolves(s: State, t: State) {
    && |s.alerts| <= |t.alerts| && |s.evals| <= |t.evals| && s.gone <= t.gone
    && (forall i :: 0 <= i < |s.alerts| ==> AlertEvolves(s, t, i))
    && (forall e :: 0 <= e < |s.evals| && s.evals[e].phase.Ended? ==> t.evals[e] == s.evals[e])
  }

  lemma {:induction false} SettleEvolves(s: State, e: nat, i: nat)
    requires Inv(s) && Enabled(s, Settle(e)) && i < |s.alerts|
    ensures AlertEvolves(s, Apply(s, Settle(e)), i)
  {
    assert EvaluationOk(s, e);
    assert StatusOk(s, s.evals[e], s.evals[e].settled);
  }

  lemma {:induction false} StepKeepsEnded(s: State, a: Action, e: nat)
    requires Enabled(s, a) && e < |s.evals| && s.evals[e].phase.Ended?
    ensures e < |Apply(s, a).evals| && Apply(s, a).evals[e] == s.evals[e]
  {
  }

  lemma {:induction false} StepEvolves(s: State, a: Action)
    requires Inv(s) && Enabled(s, a)
    ensures Evolves(s, Apply(s, a))
  {
    var t := Apply(s, a);
    assert |s.alerts| <= |t.alerts| && |s.evals| <= |t.evals| && s.gone <= t.gone;
    forall i | 0 <= i < |s.alerts|
      ensures AlertEvolves(s, t, i)
    {
      if a.Settle? {
        SettleEvolves(s, a.e, i);
      }
    }
    forall e | 0 <= e < |s.evals| && s.evals[e].phase.Ended?
      ensures t.evals[e] == s.evals[e]
    {
      StepKeepsEnded(s, a, e);
    }
  }

  lemma {:induction false} RunStepEvolves(states: seq<State>, actions: seq<Action>, n: nat)
    requires IsRun(states, actions) && n < |actions|
    ensures Evolves(states[n], states[n + 1])
  {
    RunInv(states, actions, n);
    assert IsStep(states[n], actions[n], states[n + 1]);
    StepEvolves(states[n], actions[n]);
  }

  lemma {:induction false} EvolvesOn(r: State, s: State, t: State)
    requires Evolves(r, s) && Evolves(s, t)
    ensures Evolves(r, t)
  {
    forall i | 0 <= i < |r.alerts|
      ensures AlertEvolves(r, t, i)
    {
      assert AlertEvolves(r, s, i) && AlertEvolves(s, t, i);
    }
  }

  /** A status leaves "pending" at most once in any run. */
  lemma {:induction false} RunEvolves(states: seq<State>, actions: seq<Action>, m: nat, n: nat)
    requires IsRun(states, actions) && m <= n < |states|
    ensures Evolves(states[m], states[n])
    decreases n - m
  {
    if m < n {
      RunEvolves(states, actions, m, n - 1);
      RunStepEvolves(states, actions, n - 1);
      EvolvesOn(states[m], states[n - 1], states[n]);
    }
  }

  /** The alerts an evaluation had not settled when it stopped stay pending for good. */
  lemma {:induction false} UnsettledStayPending(states: seq<State>, actions: seq<Action>, m: nat, n: nat, e: nat, k: nat)
    requires IsRun(states, actions) && m <= n < |states|
    requires e < |states[m].evals| && states[m].evals[e].phase.Ended?
    requires states[m].evals[e].settled <= k < |states[m].evals[e].created|
    ensures var id := states[m].evals[e].created[k]; id < |states[n].alerts| && states[n].alerts[id].status == "pending"
  {
    RunEvolves(states, actions, m, n);
    RunInv(states, actions, n);
    assert EvaluationOk(states[n], e);
    assert StatusOk(states[n], states[n].evals[e], k);
  }

  // ----- Cleanup and firing again -----

  /** Call number `p` deleted alert `i`, as its filter says. */
  ghost predicate DeletedBy(states: seq<State>, actions: seq<Action>, p: int, i: nat)
    requires |states| == |actions| + 1
  {
    && 0 <= p < |actions| && actions[p].Delete? && i in actions[p].ids
    && i < |states[p].alerts| && Expires(actions[p].f, states[p].alerts[i])
  }

  lemma {:induction false} GoneMeansDeleted(states: seq<State>, actions: seq<Action>, n: nat, i: nat) returns (p: nat)
    requires IsRun(states, actions) && n < |states| && i in states[n].gone
    ensures p < n && DeletedBy(states, actions, p, i)
  {
    var s, a := states[n - 1], actions[n - 1];
    assert IsStep(s, a, states[n]);
    if i in s.gone {
      p := GoneMeansDeleted(states, actions, n - 1, i);
    } else {
      DeletedExpire(s, a.f, a.limit, a.ids);
      p := n - 1;
    }
  }

  lemma {:induction false} LastCreated(states: seq<State>, actions: seq<Action>, n: nat, i: nat) returns (p: nat)
    requires IsRun(states, actions) && 0 < n < |states| && i < |states[n - 1].alerts| < |states[n].alerts| && i in states[n].gone
    ensures p < n && DeletedBy(states, actions, p, i) && |states[p].alerts| <= |states[n - 1].alerts|
    ensures SameSubject(states[n].alerts[i], states[p].alerts[i])
  {
    assert IsStep(states[n - 1], actions[n - 1], states[n]);
    p := GoneMeansDeleted(states, actions, n - 1, i);
    RunEvolves(states, actions, p, n - 1);
    RunEvolves(states, actions, p, n);
    assert AlertEvolves(states[p], states[n], i);
  }

  /** Two alerts about one subject exist only if a cleanup whose filter covers it deleted the older one before
      the younger one was created. */
  lemma {:induction false} TwiceMeansDeleted(states: seq<State>, actions: seq<Action>, n: nat, i: nat, j: nat) returns (p: nat)
    requires IsRun(states, actions) && n < |states| && i < j < |states[n].alerts|
    requires SameSubject(states[n].alerts[i], states[n].alerts[j])
    ensures p < n && DeletedBy(states, actions, p, i) && |states[p].alerts| <= j
    ensures Expires(actions[p].f, states[n].alerts[j])
  {
    assert i in states[n].gone by {
      RunInv(states, actions, n);
      AlertsDiffer(states[n]);
    }
    RunStepEvolves(states, actions, n - 1);
    if j < |states[n - 1].alerts| {
      assert AlertEvolves(states[n - 1], states[n], i) && AlertEvolves(states[n - 1], states[n], j);
      p := TwiceMeansDeleted(states, actions, n - 1, i, j);
    } else {
      OneMore(states, actions, n - 1);
      p := LastCreated(states, actions, n, i);
    }
  }

  lemma {:induction false} OneMore(states: seq<State>, actions: seq<Action>, n: nat)
    requires IsRun(states, actions) && n < |actions|
    ensures |states[n + 1].alerts| <= |states[n].alerts| + 1
  {
    assert IsStep(states[n], actions[n], states[n + 1]);
  }

  /** A run whose cleanups use only filters of some kind. */
  ghost predicate IsRunWith(states: seq<State>, actions: seq<Action>, allowed: C.Filter -> bool) {
    IsRun(states, actions) && forall i :: 0 <= i < |actions| && actions[i].Delete? ==> allowed(actions[i].f)
  }

  ghost predicate FiredOnce(s: State, a: Alert) {
    forall i, j :: 0 <= i < j < |s.alerts| ==> !(SameSubject(s.alerts[i], a) && SameSubject(s.alerts[j], a))
  }

  /** With such cleanups a subject never gets a second alert, deleted alerts included. */
  ghost predicate AlwaysOnce(a: Alert, allowed: C.Filter -> bool) {
    forall states, actions, n :: IsRunWith(states, actions, allowed) && 0 <= n < |states| ==> FiredOnce(states[n], a)
  }

  lemma {:induction false} OnceUnlessExpired(states: seq<State>, actions: seq<Action>, n: nat, a: Alert, allowed: C.Filter -> bool)
    requires IsRunWith(states, actions, allowed) && n < |states|
    requires forall f :: allowed(f) ==> !Expires(f, a)
    ensures FiredOnce(states[n], a)
  {
    if i, j :| 0 <= i < j < |states[n].alerts| && SameSubject(states[n].alerts[i], a) && SameSubject(states[n].alerts[j], a) {
      var p := TwiceMeansDeleted(states, actions, n, i, j);
      assert Expires(actions[p].f, a);
      assert false;
    }
  }

  /** One evaluation from start to end, with one alert and one channel that works. */
  function Firing(e: nat, a: Alert, channel: string): seq<Action> {
    [Begin([a]), Create(e)] + [ListChannels(e, [channel]), Send(e, true), Record(e), Settle(e)]
  }

  /** After its first half the alert is there. */
  ghost function Raised(s: State, a: Alert): State {
    s.(alerts := s.alerts + [a], evals := s.evals + [Evaluation(Creating, [], [|s.alerts|], [], 0, 0, None, {}, 0)])
  }

  /** After its second half the alert is sent and recorded once. */
  ghost function Fired(s: State, a: Alert, channel: string): State {
    var id, e := |s.alerts|, |s.evals|;
    s.(alerts := s.alerts + [a.(status := "sent")],
       sends := s.sends + [Sending([id], channel, true, e, 0, 0)],
       deliveries := s.deliveries + [Delivery(D.Delivery(id, channel, true), e, 0, 0)],
       evals := s.evals + [Evaluation(Ended, [], [id], [channel], 1, 0, None, {}, 1)])
  }

  lemma {:induction false} Raises(s: State, a: Alert) returns (states: seq<State>)
    requires WellKeyed(a) && a.status == "pending" && !HasLiveKey(s, a.key)
    ensures IsPath(states, [Begin([a]), Create(|s.evals|)])
    ensures states[0] == s && states[|states| - 1] == Raised(s, a)
  {
    var e := |s.evals|;
    var began := s.(evals := s.evals + [Evaluation(Creating, [a], [], [], 0, 0, None, {}, 0)]);
    assert IsStep(s, Begin([a]), began);
    assert !HasLiveKey(began, a.key);
    var x := began.evals[e];
    assert x.todo[1..] == [] && x.created + [|s.alerts|] == [|s.alerts|];
    assert IsStep(began, Create(e), Raised(s, a));
    states := [s, began, Raised(s, a)];
  }

  lemma {:induction false} Dispatches(s: State, a: Alert, channel: string) returns (states: seq<State>)
    requires |s.alerts| !in s.gone
    ensures var e := |s.evals|; IsPath(states, [ListChannels(e, [channel]), Send(e, true), Record(e), Settle(e)])
    ensures states[0] == Raised(s, a) && states[|states| - 1] == Fired(s, a, channel)
  {
    var id, e := |s.alerts|, |s.evals|;
    var raised := Raised(s, a);
    var listed := raised.(evals := s.evals + [Evaluation(Delivering, [], [id], [channel], 0, 0, None, {}, 0)]);
    assert IsStep(raised, ListChannels(e, [channel]), listed);
    var sent := listed.(sends := s.sends + [Sending([id], channel, true, e, 0, 0)],
                        evals := s.evals + [Evaluation(Delivering, [], [id], [channel], 0, 0, Some(true), {}, 0)]);
    assert IsStep(listed, Send(e, true), sent);
    var recorded := sent.(deliveries := s.deliveries + [Delivery(D.Delivery(id, channel, true), e, 0, 0)],
                          evals := s.evals + [Evaluation(Settling, [], [id], [channel], 1, 0, None, {}, 0)]);
    assert IsStep(sent, Record(e), recorded);
    assert IsStep(recorded, Settle(e), Fired(s, a, channel));
    states := [raised, listed, sent, recorded, Fired(s, a, channel)];
  }

  lemma {:induction false} PathsJoin(p: seq<State>, first: seq<Action>, q: seq<State>, second: seq<Action>)
    requires IsPath(p, first) && IsPath(q, second) && p[|p| - 1] == q[0]
    ensures IsPath(p + q[1..], first + second)
  {
    var states, actions := p + q[1..], first + second;
    forall i {:trigger actions[i]} | 0 <= i < |actions|
      ensures IsStep(states[i], actions[i], states[i + 1])
    {
      if i < |first| {
        assert IsStep(p[i], first[i], p[i + 1]);
      } else {
        assert IsStep(q[i - |first|], second[i - |first|], q[i - |first| + 1]);
      }
    }
  }

  lemma {:induction false} Fires(s: State, a: Alert, channel: string) returns (states: seq<State>)
    requires WellKeyed(a) && a.status == "pending" && !HasLiveKey(s, a.key) && |s.alerts| !in s.gone
    ensures IsPath(states, Firing(|s.evals|, a, channel))
    ensures states[0] == s && states[|states| - 1] == Fired(s, a, channel)
  {
    var e := |s.evals|;
    var p := Raises(s, a);
    var q := Dispatches(s, a, channel);
    PathsJoin(p, [Begin([a]), Create(e)], q, [ListChannels(e, [channel]), Send(e, true), Record(e), Settle(e)]);
    states := p + q[1..];
  }

  const NOTHING := State(0, [], {}, [], [], [])

  /** For any alert, any filter that covers it and any channel: evaluating, cleaning up and evaluating again
      alerts twice about the same second, and sends the notification twice. */
  lemma {:induction false} CleanupFiresAgain(a: Alert, f: C.Filter, channel: string) returns (states: seq<State>, actions: seq<Action>)
    requires WellKeyed(a) && a.status == "pending" && Expires(f, a)
    ensures actions == Firing(0, a, channel) + [Delete(f, 0, {0})] + Firing(1, a, channel)
    ensures IsRun(states, actions)
    ensures var t := states[|states| - 1];
            && t.alerts == [a.(status := "sent"), a.(status := "sent")] && t.gone == {0}
            && Records(t.deliveries) == [D.Delivery(0, channel, true), D.Delivery(1, channel, true)]
            && |t.sends| == 2 && t.sends[0].ids == [0] && t.sends[1].ids == [1]
            && t.sends[0].channelType == t.sends[1].channelType == channel
  {
    var once := Fired(NOTHING, a, channel);
    var cleaned := once.(gone := {0});
    assert C.Matches(History(once.alerts), LiveRows(once), f) == {0};
    var delete := Delete(f, 0, {0});
    assert IsStep(once, delete, cleaned);
    assert IsPath([once, cleaned], [delete]);
    var p := Fires(NOTHING, a, channel);
    var q := Fires(cleaned, a, channel);
    PathsJoin(p, Firing(0, a, channel), [once, cleaned], [delete]);
    PathsJoin(p + [once, cleaned][1..], Firing(0, a, channel) + [delete], q, Firing(1, a, channel));
    states := p + [once, cleaned][1..] + q[1..];
    actions := Firing(0, a, channel) + [delete] + Firing(1, a, channel);
  }

  lemma {:induction false} ExpiredTwice(a: Alert, f: C.Filter, allowed: C.Filter -> bool)
    requires WellKeyed(a) && a.status == "pending" && allowed(f) && Expires(f, a)
    ensures !AlwaysOnce(a, allowed)
  {
    var states, actions := CleanupFiresAgain(a, f, "webhook");
    var n := |states| - 1;
    assert IsRunWith(states, actions, allowed);
    assert SameSubject(states[n].alerts[0], a) && SameSubject(states[n].alerts[1], a);
    assert !FiredOnce(states[n], a);
  }

  /** A subject never gets a second alert if and only if no cleanup filter in use covers it. */
  lemma {:induction false} FiresOnceExactly(a: Alert, allowed: C.Filter -> bool)
    requires WellKeyed(a) && a.status == "pending"
    ensures AlwaysOnce(a, allowed) <==> forall f :: allowed(f) ==> !Expires(f, a)
  {
    if f :| allowed(f) && Expires(f, a) {
      ExpiredTwice(a, f, allowed);
    } else {
      forall states, actions, n | IsRunWith(states, actions, allowed) && 0 <= n < |states|
        ensures FiredOnce(states[n], a)
      {
        OnceUnlessExpired(states, actions, n, a, allowed);
      }
    }
  }

  /** With alerts kept for some days, a subject gets a second alert only through a cleanup that runs more than
      that many days after its bucket, and such a cleanup makes it possible. */
  lemma {:induction false} RetentionDecides(a: Alert, days: nat, last: int)
    requires WellKeyed(a) && a.status == "pending"
    ensures AlwaysOnce(a, (f: C.Filter) => f.before <= last - days * DAY) <==> last <= a.bucket + days * DAY
  {
    var allowed := (f: C.Filter) => f.before <= last - days * DAY;
    FiresOnceExactly(a, allowed);
    var widest := C.Filter(None, last - days * DAY);
    assert allowed(widest);
  }

  // ----- Sends, records and statuses -----

  function Records(ds: seq<Delivery>): seq<D.Delivery> {
    Map((d: Delivery) => d.record, ds)
  }

  /** The k-th alert of evaluation `e` was delivered through each channel the evaluation listed, and its
      status is what all recorded deliveries of the alert call for, unless the row was deleted while it was
      still pending. */
  ghost predicate SettledRight(s: State, e: nat, k: nat)
    requires e < |s.evals| && k < |s.evals[e].created|
  {
    var x := s.evals[e];
    var id := x.created[k];
    && id < |s.alerts|
    && (forall c :: 0 <= c < |x.channels| ==> D.Delivered(Records(s.deliveries), id, x.channels[c]))
    && (|| s.alerts[id].status == D.StatusFrom(x.channels != [], Records(s.deliveries), id)
        || (id in s.gone && s.alerts[id].status == "pending"))
  }

  lemma {:induction false} OwnersDiffer(s: State, e: nat, f: nat)
    requires Inv(s) && e < |s.evals| && f < |s.evals| && e != f
    ensures Disjoint(s.evals[e], s.evals[f])
  {
    if f < e {
      assert Disjoint(s.evals[f], s.evals[e]);
    }
  }

  /** No other evaluation has the k-th alert of evaluation `e`. */
  lemma {:induction false} OneOwner(s: State, e: nat, k: nat)
    requires Inv(s) && e < |s.evals| && k < |s.evals[e].created|
    ensures forall f, l :: 0 <= f < |s.evals| && f != e && 0 <= l < |s.evals[f].created| ==>
              s.evals[f].created[l] != s.evals[e].created[k]
  {
    forall f, l | 0 <= f < |s.evals| && f != e && 0 <= l < |s.evals[f].created|
      ensures s.evals[f].created[l] != s.evals[e].created[k]
    {
      OwnersDiffer(s, e, f);
    }
  }

  /** All failed deliveries of an alert are its evaluation's. */
  lemma {:induction false} FailureRemembered(s: State, e: nat, k: nat, j: nat)
    requires Inv(s) && e < |s.evals| && k < |s.evals[e].created| && j < |s.deliveries|
    requires s.deliveries[j].record.alertID == s.evals[e].created[k] && !s.deliveries[j].record.success
    ensures k in s.evals[e].failed
  {
    OneOwner(s, e, k);
    assert DeliveryOk(s, s.deliveries[j]) && EvaluationOk(s, e);
  }

  lemma {:induction false} VerdictRight(s: State, e: nat, k: nat)
    requires Inv(s) && e < |s.evals| && k < |s.evals[e].created|
    ensures D.AllSucceeded(Records(s.deliveries), s.evals[e].created[k]) <==> k !in s.evals[e].failed
  {
    var id := s.evals[e].created[k];
    var ds := Records(s.deliveries);
    if k in s.evals[e].failed {
      assert Logged(s.deliveries, s.evals[e], e);
      var j :| 0 <= j < |s.deliveries| && IsFailure(s.deliveries[j], e, k);
      assert DeliveryOk(s, s.deliveries[j]);
      assert ds[j].alertID == id && !ds[j].success;
    } else {
      forall j | 0 <= j < |ds| && ds[j].alertID == id
        ensures ds[j].success
      {
        if !ds[j].success {
          FailureRemembered(s, e, k, j);
        }
      }
    }
  }

  /** The places the loop has passed are recorded. */
  lemma {:induction false} PassedDelivered(s: State, e: nat, k: nat, c: nat)
    requires Inv(s) && e < |s.evals| && k < |s.evals[e].created| && c < |s.evals[e].channels|
    requires Before(c, k, s.evals[e].c, s.evals[e].i)
    ensures D.Delivered(Records(s.deliveries), s.evals[e].created[k], s.evals[e].channels[c])
  {
    assert Logged(s.deliveries, s.evals[e], e);
    var j :| 0 <= j < |s.deliveries| && IsAt(s.deliveries[j], e, c, k);
    assert DeliveryOk(s, s.deliveries[j]);
    assert Records(s.deliveries)[j] == s.deliveries[j].record;
  }

  /** In every state of every run, each alert an evaluation has settled was delivered through every channel
      it listed, and has the status its deliveries call for. */
  lemma {:induction false} StatusesAgree(states: seq<State>, actions: seq<Action>, n: nat, e: nat, k: nat)
    requires IsRun(states, actions) && n < |states|
    requires e < |states[n].evals| && k < states[n].evals[e].settled
    ensures k < |states[n].evals[e].created| && SettledRight(states[n], e, k)
  {
    var s := states[n];
    RunInv(states, actions, n);
    assert EvaluationOk(s, e);
    assert StatusOk(s, s.evals[e], k);
    VerdictRight(s, e, k);
    forall c | 0 <= c < |s.evals[e].channels|
      ensures D.Delivered(Records(s.deliveries), s.evals[e].created[k], s.evals[e].channels[c])
    {
      PassedDelivered(s, e, k, c);
    }
  }

  lemma {:induction false} CalledFresh(globals: map<Dimension, Rule>, own: map<Dimension, Rule>, s: Sample, now: int, a: Alert)
    requires Calls(globals, own, s, now, a)
    ensures WellKeyed(a) && a.status == "pending"
  {
  }

  /** What an evaluation sets out to create is what the protocol starts from. */
  lemma {:induction false} WantedFresh(globals: map<Dimension, Rule>, own: map<Dimension, Rule>, samples: seq<Sample>, now: int)
    ensures FreshAlerts(Wanted(globals, own, samples, now))
  {
    var xs := Wanted(globals, own, samples, now);
    forall k | 0 <= k < |xs|
      ensures WellKeyed(xs[k]) && xs[k].status == "pending"
    {
      WantedExactly(globals, own, samples, now, xs[k]);
      var i :| 0 <= i < |samples| && Calls(globals, own, samples[i], now, xs[k]);
      CalledFresh(globals, own, samples[i], now, xs[k]);
    }
  }

  /** Every record tells the outcome of a message that was sent for its alert. */
  lemma {:induction false} RecordsTellSends(states: seq<State>, actions: seq<Action>, n: nat, k: nat) returns (l: nat)
    requires IsRun(states, actions) && n < |states| && k < |states[n].deliveries|
    ensures var s, d := states[n], states[n].deliveries[k].record;
            l < |s.sends| && d.alertID in s.sends[l].ids && d.channelType == s.sends[l].channelType && d.success == s.sends[l].success
  {
    RunInv(states, actions, n);
    var s, d := states[n], states[n].deliveries[k];
    assert DeliveryOk(s, d) && WasSent(s.sends, d);
    l :| 0 <= l < |s.sends| && IsSendAt(s.sends[l], d.from, d.c, SentAt(d.record.channelType, d.i), d.record.success);
    assert SendOk(s, s.sends[l]);
  }

  /** A failing record can leave only the last message of its evaluation unrecorded. */
  lemma {:induction false} OnlyLastUnrecorded(states: seq<State>, actions: seq<Action>, n: nat, k: nat, l: nat, p: nat)
    requires IsRun(states, actions) && n < |states| && k < l < |states[n].sends|
    requires states[n].sends[k].from == states[n].sends[l].from && p < |states[n].sends[k].ids|
    ensures D.Delivered(Records(states[n].deliveries), states[n].sends[k].ids[p], states[n].sends[k].channelType)
  {
    RunInv(states, actions, n);
    var s := states[n];
    var m := s.sends[k];
    assert SendOk(s, m) && SendOk(s, s.sends[l]) && SendsInOrder(m, s.sends[l]);
    var x, i := s.evals[m.from], if InBatches(m.channelType) then p else m.i;
    assert EvaluationOk(s, m.from) && Logged(s.deliveries, x, m.from);
    assert Before(m.c, i, x.c, x.i);
    PassedDelivered(s, m.from, i, m.c);
  }
}
