/** Evaluations running side by side: scheduler workers, manual collections and retries all create alerts,
    send and record deliveries and set statuses, one call at a time, and may stop at any call that fails,
    while the history cleanup deletes alert rows under them. */
module AlertProtocol {
  import opened Wrappers
  import opened Text
  import opened Tables
  import opened Alerts
  import D = AlertDispatch
  import C = Cleanup

  /** A message that went out, or failed to, for these alerts. Evaluation `from` sent it at alert number `i`
      of channel number `c`. */
  datatype Sending = Sending(ids: seq<nat>, channelType: string, success: bool, from: nat, c: nat, i: nat)

  /** The recorded delivery of alert number `i` of evaluation `from` through channel number `c`. */
  datatype Delivery = Delivery(record: D.Delivery, from: nat, c: nat, i: nat)

  datatype Phase = Creating | Delivering | Settling | Ended

  /** One call of EvaluateSamples: the alerts still to create, those it created, the enabled channels it
      listed, its place in the nested delivery loop, the outcome of a send that is still to be recorded
      there, the alerts some send of which failed, and how many statuses it has set. */
  datatype Evaluation = Evaluation(
    phase: Phase, todo: seq<Alert>, created: seq<nat>, channels: seq<string>, c: nat, i: nat,
    outcome: Option<bool>, failed: set<nat>, settled: nat)

  /** An alert's position is its row key, which is never given out again; the rows in `gone` have been
      deleted and are listed as they were then. `base` alerts were there before the run. */
  datatype State = State(
    base: nat, alerts: seq<Alert>, gone: set<nat>, sends: seq<Sending>, deliveries: seq<Delivery>,
    evals: seq<Evaluation>)

  // ----- Steps -----

  datatype Action =
    | Begin(todo: seq<Alert>)
    | Create(e: nat)
    | ListChannels(e: nat, types: seq<string>)
    | Send(e: nat, success: bool)
    | Record(e: nat)
    | Settle(e: nat)
    | Fail(e: nat)
    | Delete(f: C.Filter, limit: int, ids: set<nat>)

  /** The key is the one made from what the alert is about. */
  predicate WellKeyed(a: Alert) {
    ColonFree(a.metric) && a.key == AlertKey(a.machineID, a.period, a.metric, a.bucket)
  }

  /** What an evaluation sets out to create: the alerts its samples call for. */
  ghost predicate FreshAlerts(xs: seq<Alert>) {
    forall i :: 0 <= i < |xs| ==> WellKeyed(xs[i]) && xs[i].status == "pending"
  }

  /** The alerts as the cleanup sees them. */
  ghost function History(alerts: seq<Alert>): C.Rows {
    map i: nat | i < |alerts| :: C.Row(alerts[i].machineID, alerts[i].bucket)
  }

  ghost function LiveRows(s: State): set<nat> {
    set i: nat | i < |s.alerts| && i !in s.gone
  }

  /** A cleanup with this filter deletes such alerts. */
  predicate Expires(f: C.Filter, a: Alert) {
    C.IsMatch(f, C.Row(a.machineID, a.bucket))
  }

  ghost predicate AtPlace(x: Evaluation) {
    x.phase.Delivering? && x.c < |x.channels| && x.i < |x.created|
  }

  ghost predicate Enabled(s: State, a: Action) {
    match a
    case Begin(todo) => FreshAlerts(todo)
    case Create(e) => e < |s.evals| && s.evals[e].phase.Creating? && s.evals[e].todo != []
    case ListChannels(e, types) => e < |s.evals| && s.evals[e].phase.Creating? && s.evals[e].todo == [] && Distinct(types)
    case Send(e, _) => e < |s.evals| && AtPlace(s.evals[e]) && s.evals[e].outcome.None?
    case Record(e) => e < |s.evals| && AtPlace(s.evals[e]) && s.evals[e].outcome.Some?
    case Settle(e) =>
      && e < |s.evals| && s.evals[e].phase.Settling?
      && s.evals[e].settled < |s.evals[e].created| && s.evals[e].created[s.evals[e].settled] < |s.alerts|
    case Fail(e) => e < |s.evals| && !s.evals[e].phase.Ended?
    case Delete(f, limit, ids) => C.TakesBatch(History(s.alerts), LiveRows(s), f, limit, ids)
  }

  ghost predicate HasLiveKey(s: State, key: string) {
    exists i :: 0 <= i < |s.alerts| && i !in s.gone && s.alerts[i].key == key
  }

  /** Insert-if-absent, as one statement: only the caller whose insert took effect keeps the alert. */
  ghost function CreateNext(s: State, e: nat): State
    requires Enabled(s, Create(e))
  {
    var x := s.evals[e];
    var next := x.(todo := x.todo[1..]);
    if HasLiveKey(s, x.todo[0].key) then s.(evals := s.evals[e := next])
    else s.(alerts := s.alerts + [x.todo[0]], evals := s.evals[e := next.(created := x.created + [|s.alerts|])])
  }

  /** The channel loop is the outer one, the alert loop the inner one. */
  function Advance(x: Evaluation): Evaluation {
    if x.i + 1 < |x.created| then x.(i := x.i + 1)
    else if x.c + 1 < |x.channels| then x.(c := x.c + 1, i := 0)
    else x.(c := x.c + 1, i := 0, phase := Settling)
  }

  /** One Telegram message goes out for all alerts of the evaluation, and its outcome is recorded for each;
      every other channel sends alert by alert. */
  predicate InBatches(channelType: string) {
    channelType == "telegram"
  }

  /** The alert at which the message for the i-th alert goes out. */
  function SentAt(channelType: string, i: nat): nat {
    if InBatches(channelType) then 0 else i
  }

  function Addressees(x: Evaluation, channelType: string, i: nat): seq<nat>
    requires i < |x.created|
  {
    if InBatches(channelType) then x.created else [x.created[i]]
  }

  ghost function SendingNow(x: Evaluation, e: nat, success: bool): Sending
    requires AtPlace(x)
  {
    Sending(Addressees(x, x.channels[x.c], x.i), x.channels[x.c], success, e, x.c, x.i)
  }

  ghost function DeliveryNow(x: Evaluation, e: nat): Delivery
    requires AtPlace(x) && x.outcome.Some?
  {
    Delivery(D.Delivery(x.created[x.i], x.channels[x.c], x.outcome.value), e, x.c, x.i)
  }

  /** The evaluation after it has recorded the outcome for one alert. */
  ghost function Recorded(x: Evaluation): Evaluation
    requires AtPlace(x) && x.outcome.Some?
  {
    Advance(x.(failed := if x.outcome.value then x.failed else x.failed + {x.i},
               outcome := if InBatches(x.channels[x.c]) && x.i + 1 < |x.created| then x.outcome else None))
  }

  /** The status the evaluation has come to for its k-th alert. */
  function Verdict(x: Evaluation, k: nat): string {
    if x.channels == [] then "skipped" else if k in x.failed then "failed" else "sent"
  }

  /** Setting the status of a row that is gone does nothing. */
  ghost function WithStatus(s: State, id: nat, status: string): seq<Alert>
    requires id < |s.alerts|
  {
    if id in s.gone then s.alerts else s.alerts[id := s.alerts[id].(status := status)]
  }

  ghost function Apply(s: State, a: Action): State
    requires Enabled(s, a)
  {
    match a
    case Begin(todo) => s.(evals := s.evals + [Evaluation(Creating, todo, [], [], 0, 0, None, {}, 0)])
    case Create(e) => CreateNext(s, e)
    case ListChannels(e, types) =>
      var x := s.evals[e];
      var phase := if x.created == [] then Ended else if types == [] then Settling else Delivering;
      s.(evals := s.evals[e := x.(phase := phase, channels := types)])
    case Send(e, success) =>
      var x := s.evals[e];
      s.(sends := s.sends + [SendingNow(x, e, success)], evals := s.evals[e := x.(outcome := Some(success))])
    case Record(e) =>
      var x := s.evals[e];
      s.(deliveries := s.deliveries + [DeliveryNow(x, e)], evals := s.evals[e := Recorded(x)])
    case Settle(e) =>
      var x := s.evals[e];
      var phase := if x.settled + 1 == |x.created| then Ended else Settling;
      s.(alerts := WithStatus(s, x.created[x.settled], Verdict(x, x.settled)),
         evals := s.evals[e := x.(settled := x.settled + 1, phase := phase)])
    case Fail(e) => s.(evals := s.evals[e := s.evals[e].(phase := Ended)])
    case Delete(_, _, ids) => s.(gone := s.gone + ids)
  }

  // ----- The invariant -----

  ghost predicate GoodRows(alerts: seq<Alert>) {
    forall i :: 0 <= i < |alerts| ==> WellKeyed(alerts[i])
  }

  /** The unique index holds for the rows that are there: a key is given out again only after the row that
      had it was deleted. */
  ghost predicate RowsOk(s: State) {
    && s.base <= |s.alerts| && GoodRows(s.alerts)
    && (forall i :: i in s.gone ==> i < |s.alerts|)
    && (forall i, j :: 0 <= i < j < |s.alerts| && s.alerts[i].key == s.alerts[j].key ==> i in s.gone)
  }

  predicate Before(c: nat, i: nat, d: nat, j: nat) {
    c < d || (c == d && i < j)
  }

  ghost predicate PhaseOk(x: Evaluation) {
    && (x.phase.Creating? ==> x.channels == [] && x.c == 0 && x.i == 0 && x.settled == 0 && x.failed == {})
    && (x.phase.Delivering? ==> x.created != [] && x.c < |x.channels| && x.i < |x.created| && x.settled == 0)
    && (x.phase.Settling? ==> x.c == |x.channels| && x.i == 0)
    && (x.settled > 0 ==> x.c == |x.channels| && x.i == 0)
    && x.settled <= |x.created| && x.c <= |x.channels| && Distinct(x.channels)
  }

  /** An evaluation's alerts are its own rows, pending until it settles them one by one, or for good if they
      are deleted before that. */
  ghost predicate CreatedOk(s: State, x: Evaluation) {
    && (forall k :: 0 <= k < |x.created| ==> s.base <= x.created[k] < |s.alerts|)
    && (forall k, l :: 0 <= k < l < |x.created| ==> x.created[k] < x.created[l])
    && (forall k :: 0 <= k < |x.created| ==> StatusOk(s, x, k))
  }

  ghost predicate StatusOk(s: State, x: Evaluation, k: nat)
    requires k < |x.created| && x.created[k] < |s.alerts|
  {
    var status := s.alerts[x.created[k]].status;
    || status == (if k < x.settled then Verdict(x, k) else "pending")
    || (x.created[k] in s.gone && status == "pending")
  }

  ghost predicate EvaluationOk(s: State, e: nat)
    requires e < |s.evals|
  {
    PhaseOk(s.evals[e]) && CreatedOk(s, s.evals[e]) && FreshAlerts(s.evals[e].todo)
  }

  /** No two evaluations created the same alert. */
  ghost predicate Disjoint(x: Evaluation, y: Evaluation) {
    forall k, l :: 0 <= k < |x.created| && 0 <= l < |y.created| ==> x.created[k] != y.created[l]
  }

  /** A delivery belongs to a place its evaluation's loop has passed, and a failed one is remembered. */
  ghost predicate DeliveryOk(s: State, d: Delivery) {
    && d.from < |s.evals|
    && var x := s.evals[d.from];
       && d.c < |x.channels| && d.i < |x.created|
       && d.record.alertID == x.created[d.i] && d.record.channelType == x.channels[d.c]
       && Before(d.c, d.i, x.c, x.i) && !x.phase.Creating?
       && (!d.record.success ==> d.i in x.failed)
  }

  ghost predicate InOrder(d: Delivery, f: Delivery) {
    d.from == f.from ==> Before(d.c, d.i, f.c, f.i)
  }

  ghost predicate IsAt(d: Delivery, e: nat, c: nat, i: nat) {
    d.from == e && d.c == c && d.i == i
  }

  /** Every place of the loop that has been passed has its delivery. */
  ghost predicate AllRecorded(ds: seq<Delivery>, x: Evaluation, e: nat) {
    forall c: nat, i: nat :: c < |x.channels| && i < |x.created| && Before(c, i, x.c, x.i) ==>
      exists k :: 0 <= k < |ds| && IsAt(ds[k], e, c, i)
  }

  ghost predicate IsFailure(d: Delivery, e: nat, i: nat) {
    d.from == e && d.i == i && !d.record.success
  }

  /** What is remembered as failed has a failed delivery. */
  ghost predicate FailuresRecorded(ds: seq<Delivery>, x: Evaluation, e: nat) {
    forall i :: i in x.failed ==> exists k :: 0 <= k < |ds| && IsFailure(ds[k], e, i)
  }

  ghost predicate Logged(ds: seq<Delivery>, x: Evaluation, e: nat) {
    AllRecorded(ds, x, e) && FailuresRecorded(ds, x, e)
  }

  /** What holds of rows, evaluations and records. */
  ghost predicate RecordsInv(s: State) {
    && RowsOk(s)
    && (forall e :: 0 <= e < |s.evals| ==> EvaluationOk(s, e))
    && (forall e :: 0 <= e < |s.evals| ==> Logged(s.deliveries, s.evals[e], e))
    && (forall e, f :: 0 <= e < f < |s.evals| ==> Disjoint(s.evals[e], s.evals[f]))
    && (forall k :: 0 <= k < |s.deliveries| ==> DeliveryOk(s, s.deliveries[k]))
    && (forall k, l :: 0 <= k < l < |s.deliveries| ==> InOrder(s.deliveries[k], s.deliveries[l]))
  }

  ghost predicate IsSendAt(m: Sending, e: nat, c: nat, i: nat, success: bool) {
    m.from == e && m.c == c && m.i == i && m.success == success
  }

  ghost predicate HasSend(sends: seq<Sending>, e: nat, c: nat, i: nat, success: bool) {
    exists k :: 0 <= k < |sends| && IsSendAt(sends[k], e, c, i, success)
  }

  /** An outcome waiting to be recorded is that of a send; within a batch one is always waiting. */
  ghost predicate OutcomeOk(sends: seq<Sending>, x: Evaluation, e: nat) {
    && (x.outcome.Some? ==>
          && (x.phase.Delivering? || x.phase.Ended?) && x.c < |x.channels|
          && HasSend(sends, e, x.c, SentAt(x.channels[x.c], x.i), x.outcome.value))
    && (x.phase.Delivering? && x.c < |x.channels| && InBatches(x.channels[x.c]) && x.i > 0 ==> x.outcome.Some?)
  }

  /** A send went to the alerts of a place its evaluation's loop has reached. */
  ghost predicate SendOk(s: State, m: Sending) {
    && m.from < |s.evals|
    && var x := s.evals[m.from];
       && m.c < |x.channels| && m.i < |x.created| && m.channelType == x.channels[m.c] && !x.phase.Creating?
       && m.i == SentAt(m.channelType, m.i) && m.ids == Addressees(x, m.channelType, m.i)
       && (Before(m.c, m.i, x.c, x.i) || (m.c == x.c && m.i == x.i && x.outcome.Some?))
  }

  ghost predicate SendsInOrder(m: Sending, n: Sending) {
    m.from == n.from ==> Before(m.c, m.i, n.c, n.i)
  }

  /** A record tells the outcome of a send. */
  ghost predicate WasSent(sends: seq<Sending>, d: Delivery) {
    HasSend(sends, d.from, d.c, SentAt(d.record.channelType, d.i), d.record.success)
  }

  ghost predicate SendsInv(s: State) {
    && (forall e :: 0 <= e < |s.evals| ==> OutcomeOk(s.sends, s.evals[e], e))
    && (forall k :: 0 <= k < |s.sends| ==> SendOk(s, s.sends[k]))
    && (forall k, l :: 0 <= k < l < |s.sends| ==> SendsInOrder(s.sends[k], s.sends[l]))
    && (forall k :: 0 <= k < |s.deliveries| ==> WasSent(s.sends, s.deliveries[k]))
  }

  ghost predicate Inv(s: State) {
    RecordsInv(s) && SendsInv(s)
  }

  ghost predicate Initial(s: State) {
    && s.base == |s.alerts| && DistinctKeys(s.alerts) && GoodRows(s.alerts)
    && s.gone == {} && s.sends == [] && s.deliveries == [] && s.evals == []
  }

  // ----- Every step keeps it -----

  lemma {:induction false} BeginInv(s: State, todo: seq<Alert>)
    requires RecordsInv(s) && Enabled(s, Begin(todo))
    ensures RecordsInv(Apply(s, Begin(todo)))
  {
    var t := Apply(s, Begin(todo));
    forall e | 0 <= e < |t.evals|
      ensures EvaluationOk(t, e)
    {
      if e < |s.evals| {
        assert EvaluationOk(s, e);
        CreatedOkLater(s, t, s.evals[e], s.evals[e]);
      }
    }
    forall e | 0 <= e < |t.evals|
      ensures Logged(t.deliveries, t.evals[e], e)
    {
      if e < |s.evals| {
        assert Logged(s.deliveries, s.evals[e], e);
      }
    }
    forall k | 0 <= k < |t.deliveries|
      ensures DeliveryOk(t, t.deliveries[k])
    {
      assert DeliveryOk(s, s.deliveries[k]);
    }
  }

  /** Further rows and deletions leave an evaluation's alerts as it knows them, and before it settles the
      first one nothing else it learns matters to them. */
  lemma {:induction false} CreatedOkLater(s: State, t: State, x: Evaluation, y: Evaluation)
    requires CreatedOk(s, x) && t.base == s.base && s.alerts <= t.alerts && s.gone <= t.gone
    requires y.created == x.created && y.settled == x.settled
    requires x.settled == 0 || (y.channels == x.channels && y.failed == x.failed)
    ensures CreatedOk(t, y)
  {
    forall k | 0 <= k < |x.created|
      ensures StatusOk(t, y, k)
    {
      assert StatusOk(s, x, k);
      assert t.alerts[x.created[k]] == s.alerts[x.created[k]];
    }
  }

  lemma {:induction false} CreatedOkGrows(s: State, x: Evaluation, id: nat)
    requires CreatedOk(s, x) && id < |s.alerts| && s.base <= id && s.alerts[id].status == "pending"
    requires forall k :: 0 <= k < |x.created| ==> x.created[k] < id
    requires x.settled == 0
    ensures CreatedOk(s, x.(created := x.created + [id]))
  {
    var y := x.(created := x.created + [id]);
    forall k | 0 <= k < |y.created|
      ensures StatusOk(s, y, k)
    {
      if k < |x.created| {
        assert StatusOk(s, x, k);
      }
    }
  }

  lemma {:induction false} CreateOwn(s: State, e: nat)
    requires Enabled(s, Create(e)) && EvaluationOk(s, e) && s.base <= |s.alerts|
    ensures EvaluationOk(CreateNext(s, e), e)
  {
    var t := CreateNext(s, e);
    var next := s.evals[e].(todo := s.evals[e].todo[1..]);
    CreatedOkLater(s, t, s.evals[e], next);
    assert FreshAlerts(next.todo) && PhaseOk(next);
    if |t.alerts| > |s.alerts| {
      CreatedOkGrows(t, next, |s.alerts|);
    }
  }

  lemma {:induction false} CreateKeepsEvaluation(s: State, e: nat, f: nat)
    requires Enabled(s, Create(e)) && f < |s.evals| && EvaluationOk(s, e) && EvaluationOk(s, f) && s.base <= |s.alerts|
    ensures EvaluationOk(CreateNext(s, e), f)
  {
    if f == e {
      CreateOwn(s, e);
    } else {
      CreatedOkLater(s, CreateNext(s, e), s.evals[f], s.evals[f]);
    }
  }

  lemma {:induction false} CreateKeepsDisjoint(s: State, e: nat, f: nat, g: nat)
    requires Enabled(s, Create(e)) && f < g < |s.evals| && EvaluationOk(s, f) && EvaluationOk(s, g)
    requires Disjoint(s.evals[f], s.evals[g])
    ensures Disjoint(CreateNext(s, e).evals[f], CreateNext(s, e).evals[g])
  {
  }

  lemma {:induction false} CreateKeepsKeys(s: State, e: nat)
    requires Enabled(s, Create(e)) && RowsOk(s) && FreshAlerts(s.evals[e].todo)
    ensures RowsOk(CreateNext(s, e))
  {
  }

  lemma {:induction false} CreateKeepsLog(s: State, e: nat, f: nat)
    requires Enabled(s, Create(e)) && f < |s.evals| && Logged(s.deliveries, s.evals[f], f) && PhaseOk(s.evals[e])
    ensures Logged(CreateNext(s, e).deliveries, CreateNext(s, e).evals[f], f)
  {
  }

  lemma {:induction false} CreateKeepsDelivery(s: State, e: nat, d: Delivery)
    requires Enabled(s, Create(e)) && DeliveryOk(s, d)
    ensures DeliveryOk(CreateNext(s, e), d)
  {
  }

  lemma {:induction false} CreateInv(s: State, e: nat)
    requires RecordsInv(s) && Enabled(s, Create(e))
    ensures RecordsInv(CreateNext(s, e))
  {
    var t := CreateNext(s, e);
    assert EvaluationOk(s, e);
    CreateKeepsKeys(s, e);
    forall f | 0 <= f < |t.evals|
      ensures EvaluationOk(t, f)
    {
      assert EvaluationOk(s, f);
      CreateKeepsEvaluation(s, e, f);
    }
    forall f | 0 <= f < |t.evals|
      ensures Logged(t.deliveries, t.evals[f], f)
    {
      assert Logged(s.deliveries, s.evals[f], f);
      CreateKeepsLog(s, e, f);
    }
    forall f, g | 0 <= f < g < |t.evals|
      ensures Disjoint(t.evals[f], t.evals[g])
    {
      assert EvaluationOk(s, f) && EvaluationOk(s, g);
      CreateKeepsDisjoint(s, e, f, g);
    }
    forall k | 0 <= k < |t.deliveries|
      ensures DeliveryOk(t, t.deliveries[k])
    {
      CreateKeepsDelivery(s, e, s.deliveries[k]);
    }
  }

  /** Nothing is passed before the first place, so listing the channels asks for no delivery. */
  lemma {:induction false} LoggedSame(ds: seq<Delivery>, x: Evaluation, y: Evaluation, e: nat)
    requires Logged(ds, x, e) && y.created == x.created && y.failed == x.failed && y.c == x.c && y.i == x.i
    requires y.channels == x.channels || (x.c == 0 && x.i == 0)
    ensures Logged(ds, y, e)
  {
  }

  /** A step of one evaluation that touches neither the alerts nor its list of them: it may change the phase,
      the outcome to be recorded, and at the start the channels. */
  ghost predicate PhaseChange(x: Evaluation, y: Evaluation) {
    && PhaseOk(y) && y.created == x.created && y.settled == x.settled && FreshAlerts(y.todo)
    && y.failed == x.failed && y.c == x.c && y.i == x.i
    && (x.phase.Creating? || (y.channels == x.channels && !y.phase.Creating?))
  }


  lemma {:induction false} PhaseKeepsDelivery(s: State, e: nat, x: Evaluation, d: Delivery)
    requires e < |s.evals| && PhaseChange(s.evals[e], x) && DeliveryOk(s, d)
    ensures DeliveryOk(s.(evals := s.evals[e := x]), d)
  {
  }

  lemma {:induction false} PhaseInv(s: State, e: nat, x: Evaluation)
    requires RecordsInv(s) && e < |s.evals| && PhaseChange(s.evals[e], x)
    ensures RecordsInv(s.(evals := s.evals[e := x]))
  {
    var t := s.(evals := s.evals[e := x]);
    assert EvaluationOk(s, e);
    forall f | 0 <= f < |t.evals|
      ensures EvaluationOk(t, f)
    {
      assert EvaluationOk(s, f);
      CreatedOkLater(s, t, s.evals[f], t.evals[f]);
    }
    forall f | 0 <= f < |t.evals|
      ensures Logged(t.deliveries, t.evals[f], f)
    {
      assert Logged(s.deliveries, s.evals[f], f);
      LoggedSame(s.deliveries, s.evals[f], t.evals[f], f);
    }
    forall f, g | 0 <= f < g < |t.evals|
      ensures Disjoint(t.evals[f], t.evals[g])
    {
      assert Disjoint(s.evals[f], s.evals[g]);
    }
    forall k | 0 <= k < |t.deliveries|
      ensures DeliveryOk(t, t.deliveries[k])
    {
      PhaseKeepsDelivery(s, e, x, s.deliveries[k]);
    }
  }

  lemma {:induction false} RecordedPhase(x: Evaluation)
    requires PhaseOk(x) && AtPlace(x) && x.outcome.Some?
    ensures PhaseOk(Recorded(x))
  {
  }


  lemma {:induction false} RecordKeepsEvaluation(s: State, e: nat, f: nat)
    requires Enabled(s, Record(e)) && f < |s.evals| && EvaluationOk(s, e) && EvaluationOk(s, f)
    ensures EvaluationOk(Apply(s, Record(e)), f)
  {
    var t := Apply(s, Record(e));
    if f == e {
      RecordedPhase(s.evals[e]);
      CreatedOkLater(s, t, s.evals[e], t.evals[e]);
    } else {
      CreatedOkLater(s, t, s.evals[f], s.evals[f]);
    }
  }

  lemma {:induction false} RecordKeepsDelivery(s: State, e: nat, d: Delivery)
    requires Enabled(s, Record(e)) && EvaluationOk(s, e)
    requires DeliveryOk(s, d) || d == DeliveryNow(s.evals[e], e)
    ensures DeliveryOk(Apply(s, Record(e)), d)
  {
  }

  lemma {:induction false} LoggedLater(ds: seq<Delivery>, more: seq<Delivery>, x: Evaluation, e: nat)
    requires Logged(ds, x, e) && ds <= more
    ensures Logged(more, x, e)
  {
    forall c: nat, i: nat | c < |x.channels| && i < |x.created| && Before(c, i, x.c, x.i)
      ensures exists k :: 0 <= k < |more| && IsAt(more[k], e, c, i)
    {
      var k :| 0 <= k < |ds| && IsAt(ds[k], e, c, i);
      assert IsAt(more[k], e, c, i);
    }
    forall i | i in x.failed
      ensures exists k :: 0 <= k < |more| && IsFailure(more[k], e, i)
    {
      var k :| 0 <= k < |ds| && IsFailure(ds[k], e, i);
      assert IsFailure(more[k], e, i);
    }
  }

  /** The place the loop passes gets its delivery, and a failure is remembered with it. */
  lemma {:induction false} RecordLogs(ds: seq<Delivery>, x: Evaluation, e: nat)
    requires PhaseOk(x) && AtPlace(x) && x.outcome.Some? && Logged(ds, x, e)
    ensures Logged(ds + [DeliveryNow(x, e)], Recorded(x), e)
  {
    var d := DeliveryNow(x, e);
    var more := ds + [d];
    LoggedLater(ds, more, x, e);
    assert more[|ds|] == d;
    var y := Recorded(x);
    forall c: nat, i: nat | c < |y.channels| && i < |y.created| && Before(c, i, y.c, y.i)
      ensures exists k :: 0 <= k < |more| && IsAt(more[k], e, c, i)
    {
      if c == x.c && i == x.i {
        assert IsAt(more[|ds|], e, c, i);
      } else {
        assert Before(c, i, x.c, x.i);
      }
    }
    forall i | i in y.failed
      ensures exists k :: 0 <= k < |more| && IsFailure(more[k], e, i)
    {
      if i !in x.failed {
        assert IsFailure(more[|ds|], e, i);
      }
    }
  }

  lemma {:induction false} RecordInv(s: State, e: nat)
    requires RecordsInv(s) && Enabled(s, Record(e))
    ensures RecordsInv(Apply(s, Record(e)))
  {
    var t := Apply(s, Record(e));
    assert EvaluationOk(s, e);
    forall f | 0 <= f < |t.evals|
      ensures EvaluationOk(t, f)
    {
      assert EvaluationOk(s, f);
      RecordKeepsEvaluation(s, e, f);
    }
    forall f | 0 <= f < |t.evals|
      ensures Logged(t.deliveries, t.evals[f], f)
    {
      assert Logged(s.deliveries, s.evals[f], f);
      if f == e {
        RecordLogs(s.deliveries, s.evals[e], e);
      } else {
        LoggedLater(s.deliveries, t.deliveries, s.evals[f], f);
      }
    }
    forall f, g | 0 <= f < g < |t.evals|
      ensures Disjoint(t.evals[f], t.evals[g])
    {
      assert Disjoint(s.evals[f], s.evals[g]);
    }
    forall k | 0 <= k < |t.deliveries|
      ensures DeliveryOk(t, t.deliveries[k])
    {
      RecordKeepsDelivery(s, e, t.deliveries[k]);
    }
    RecordInOrder(s, e);
  }

  lemma {:induction false} RecordInOrder(s: State, e: nat)
    requires RecordsInv(s) && Enabled(s, Record(e))
    ensures var ds := Apply(s, Record(e)).deliveries;
            forall k, l :: 0 <= k < l < |ds| ==> InOrder(ds[k], ds[l])
  {
    var ds := Apply(s, Record(e)).deliveries;
    forall k, l | 0 <= k < l < |ds|
      ensures InOrder(ds[k], ds[l])
    {
      assert DeliveryOk(s, s.deliveries[k]);
      if l < |s.deliveries| {
        assert InOrder(s.deliveries[k], s.deliveries[l]);
      }
    }
  }

  lemma {:induction false} SettleKeepsOther(s: State, id: nat, status: string, x: Evaluation)
    requires CreatedOk(s, x) && id < |s.alerts| && id !in x.created
    ensures CreatedOk(s.(alerts := WithStatus(s, id, status)), x)
  {
    var t := s.(alerts := WithStatus(s, id, status));
    forall k | 0 <= k < |x.created|
      ensures StatusOk(t, x, k)
    {
      assert StatusOk(s, x, k);
    }
  }

  lemma {:induction false} SettleOwn(s: State, x: Evaluation)
    requires CreatedOk(s, x) && x.settled < |x.created| && x.created[x.settled] < |s.alerts|
    ensures var alerts := WithStatus(s, x.created[x.settled], Verdict(x, x.settled));
            CreatedOk(s.(alerts := alerts), x.(settled := x.settled + 1))
  {
    var t := s.(alerts := WithStatus(s, x.created[x.settled], Verdict(x, x.settled)));
    var y := x.(settled := x.settled + 1);
    forall k | 0 <= k < |y.created|
      ensures StatusOk(t, y, k)
    {
      assert StatusOk(s, x, k);
      assert k != x.settled ==> x.created[k] != x.created[x.settled];
    }
  }


  lemma {:induction false} SettleKeepsEvaluation(s: State, e: nat, f: nat)
    requires Enabled(s, Settle(e)) && f < |s.evals| && EvaluationOk(s, e) && EvaluationOk(s, f)
    requires f == e || Disjoint(s.evals[e], s.evals[f])
    ensures EvaluationOk(Apply(s, Settle(e)), f)
  {
    var x := s.evals[e];
    var id := x.created[x.settled];
    var u := s.(alerts := WithStatus(s, id, Verdict(x, x.settled)));
    var t := Apply(s, Settle(e));
    if f == e {
      SettleOwn(s, x);
      CreatedOkLater(u, t, x.(settled := x.settled + 1), t.evals[e]);
    } else {
      SettleKeepsOther(s, id, Verdict(x, x.settled), s.evals[f]);
      CreatedOkLater(u, t, s.evals[f], t.evals[f]);
    }
  }

  lemma {:induction false} SettleKeepsKeys(s: State, e: nat)
    requires Enabled(s, Settle(e)) && RowsOk(s)
    ensures RowsOk(Apply(s, Settle(e)))
  {
    var t := Apply(s, Settle(e)).alerts;
    assert forall i :: 0 <= i < |t| ==> t[i].key == s.alerts[i].key && WellKeyed(s.alerts[i]) == WellKeyed(t[i]);
  }

  lemma {:induction false} SettleInv(s: State, e: nat)
    requires RecordsInv(s) && Enabled(s, Settle(e))
    ensures RecordsInv(Apply(s, Settle(e)))
  {
    var t := Apply(s, Settle(e));
    assert EvaluationOk(s, e);
    forall f | 0 <= f < |t.evals|
      ensures EvaluationOk(t, f)
    {
      assert EvaluationOk(s, f);
      if f != e {
        assert Disjoint(s.evals[if e < f then e else f], s.evals[if e < f then f else e]);
      }
      SettleKeepsEvaluation(s, e, f);
    }
    forall f | 0 <= f < |t.evals|
      ensures Logged(t.deliveries, t.evals[f], f)
    {
      assert Logged(s.deliveries, s.evals[f], f);
    }
    SettleKeepsKeys(s, e);
    forall f, g | 0 <= f < g < |t.evals|
      ensures Disjoint(t.evals[f], t.evals[g])
    {
      assert Disjoint(s.evals[f], s.evals[g]);
    }
    forall k | 0 <= k < |t.deliveries|
      ensures DeliveryOk(t, t.deliveries[k])
    {
      assert DeliveryOk(s, s.deliveries[k]);
    }
  }

  /** Only live rows that match are deleted. */
  lemma {:induction false} DeletedExpire(s: State, f: C.Filter, limit: int, ids: set<nat>)
    requires Enabled(s, Delete(f, limit, ids))
    ensures forall i :: i in ids ==> i < |s.alerts| && i !in s.gone && Expires(f, s.alerts[i])
  {
    assert forall i :: i in ids ==> i in C.Matches(History(s.alerts), LiveRows(s), f);
  }

  lemma {:induction false} DeleteInv(s: State, f: C.Filter, limit: int, ids: set<nat>)
    requires RecordsInv(s) && Enabled(s, Delete(f, limit, ids))
    ensures RecordsInv(Apply(s, Delete(f, limit, ids)))
  {
    var t := Apply(s, Delete(f, limit, ids));
    DeletedExpire(s, f, limit, ids);
    forall e | 0 <= e < |t.evals|
      ensures EvaluationOk(t, e)
    {
      assert EvaluationOk(s, e);
      CreatedOkLater(s, t, s.evals[e], s.evals[e]);
    }
    forall k | 0 <= k < |t.deliveries|
      ensures DeliveryOk(t, t.deliveries[k])
    {
      assert DeliveryOk(s, s.deliveries[k]);
    }
  }

  lemma {:induction false} StepRecordsInv(s: State, a: Action)
    requires RecordsInv(s) && Enabled(s, a)
    ensures RecordsInv(Apply(s, a))
  {
    match a
    case Begin(todo) => BeginInv(s, todo);
    case Create(e) => CreateInv(s, e);
    case ListChannels(e, types) =>
      assert EvaluationOk(s, e);
      PhaseInv(s, e, Apply(s, a).evals[e]);
    case Send(e, success) => SendRecordsInv(s, e, success);
    case Record(e) => RecordInv(s, e);
    case Settle(e) => SettleInv(s, e);
    case Fail(e) =>
      assert EvaluationOk(s, e);
      PhaseInv(s, e, Apply(s, a).evals[e]);
    case Delete(f, limit, ids) => DeleteInv(s, f, limit, ids);
  }

  /** Of the send log no other part of the invariant depends. */
  lemma {:induction false} SendRecordsInv(s: State, e: nat, success: bool)
    requires RecordsInv(s) && Enabled(s, Send(e, success))
    ensures RecordsInv(Apply(s, Send(e, success)))
  {
    assert EvaluationOk(s, e);
    var t := Apply(s, Send(e, success));
    var u := s.(evals := s.evals[e := t.evals[e]]);
    PhaseInv(s, e, t.evals[e]);
    forall f | 0 <= f < |t.evals|
      ensures EvaluationOk(t, f)
    {
      assert EvaluationOk(u, f);
      CreatedOkLater(u, t, u.evals[f], u.evals[f]);
    }
    forall k | 0 <= k < |t.deliveries|
      ensures DeliveryOk(t, t.deliveries[k])
    {
      assert DeliveryOk(u, u.deliveries[k]);
    }
  }

  // ----- The send log -----

  /** An evaluation keeps what its sends rely on, and goes on to later places only. */
  ghost predicate GoesOn(x: Evaluation, y: Evaluation) {
    && (x.phase.Creating? || (y.channels == x.channels && y.created == x.created && !y.phase.Creating?))
    && (Before(x.c, x.i, y.c, y.i) || (y.c == x.c && y.i == x.i && (x.outcome.Some? ==> y.outcome.Some?)))
  }

  lemma {:induction false} SendOkLater(s: State, t: State, m: Sending)
    requires SendOk(s, m) && |s.evals| <= |t.evals|
    requires t.evals[m.from] == s.evals[m.from] || GoesOn(s.evals[m.from], t.evals[m.from])
    ensures SendOk(t, m)
  {
  }

  lemma {:induction false} SendsLater(s: State, t: State, e: nat)
    requires SendsInv(s) && e < |s.evals| == |t.evals| && t.evals == s.evals[e := t.evals[e]] && t.sends == s.sends
    requires GoesOn(s.evals[e], t.evals[e]) && OutcomeOk(t.sends, t.evals[e], e)
    requires forall k :: 0 <= k < |t.deliveries| ==> WasSent(t.sends, t.deliveries[k])
    ensures SendsInv(t)
  {
    forall f | 0 <= f < |t.evals|
      ensures OutcomeOk(t.sends, t.evals[f], f)
    {
      assert OutcomeOk(s.sends, s.evals[f], f);
    }
    forall k | 0 <= k < |t.sends|
      ensures SendOk(t, t.sends[k])
    {
      assert SendOk(s, s.sends[k]);
      SendOkLater(s, t, s.sends[k]);
    }
  }

  lemma {:induction false} HasSendLater(sends: seq<Sending>, m: Sending, e: nat, c: nat, i: nat, success: bool)
    requires HasSend(sends, e, c, i, success)
    ensures HasSend(sends + [m], e, c, i, success)
  {
    var k :| 0 <= k < |sends| && IsSendAt(sends[k], e, c, i, success);
    assert IsSendAt((sends + [m])[k], e, c, i, success);
  }

  lemma {:induction false} SendKeepsOutcome(s: State, e: nat, success: bool, f: nat)
    requires Enabled(s, Send(e, success)) && f < |s.evals|
    requires OutcomeOk(s.sends, s.evals[e], e) && OutcomeOk(s.sends, s.evals[f], f)
    ensures OutcomeOk(Apply(s, Send(e, success)).sends, Apply(s, Send(e, success)).evals[f], f)
  {
    var x, m := s.evals[e], SendingNow(s.evals[e], e, success);
    if f == e {
      assert IsSendAt((s.sends + [m])[|s.sends|], e, x.c, SentAt(x.channels[x.c], x.i), success);
    } else if s.evals[f].outcome.Some? {
      var y := s.evals[f];
      HasSendLater(s.sends, m, f, y.c, SentAt(y.channels[y.c], y.i), y.outcome.value);
    }
  }

  lemma {:induction false} SendSendsInv(s: State, e: nat, success: bool)
    requires SendsInv(s) && Enabled(s, Send(e, success))
    ensures SendsInv(Apply(s, Send(e, success)))
  {
    var t := Apply(s, Send(e, success));
    var m := SendingNow(s.evals[e], e, success);
    assert OutcomeOk(s.sends, s.evals[e], e);
    forall f | 0 <= f < |t.evals|
      ensures OutcomeOk(t.sends, t.evals[f], f)
    {
      SendKeepsOutcome(s, e, success, f);
    }
    forall k | 0 <= k < |t.sends|
      ensures SendOk(t, t.sends[k])
    {
      if k < |s.sends| {
        assert SendOk(s, s.sends[k]);
        SendOkLater(s, t, s.sends[k]);
      }
    }
    forall k, l | 0 <= k < l < |t.sends|
      ensures SendsInOrder(t.sends[k], t.sends[l])
    {
      assert SendOk(s, s.sends[k]);
      assert l < |s.sends| ==> SendsInOrder(s.sends[k], s.sends[l]);
    }
    forall k | 0 <= k < |t.deliveries|
      ensures WasSent(t.sends, t.deliveries[k])
    {
      var d := s.deliveries[k];
      assert WasSent(s.sends, d);
      HasSendLater(s.sends, m, d.from, d.c, SentAt(d.record.channelType, d.i), d.record.success);
    }
  }

  lemma {:induction false} RecordSendsInv(s: State, e: nat)
    requires SendsInv(s) && Enabled(s, Record(e))
    ensures SendsInv(Apply(s, Record(e)))
  {
    var t := Apply(s, Record(e));
    assert OutcomeOk(s.sends, s.evals[e], e);
    forall k | 0 <= k < |t.deliveries|
      ensures WasSent(t.sends, t.deliveries[k])
    {
      if k < |s.deliveries| {
        assert WasSent(s.sends, s.deliveries[k]);
      }
    }
    SendsLater(s, t, e);
  }

  lemma {:induction false} BeginSendsInv(s: State, todo: seq<Alert>)
    requires SendsInv(s) && Enabled(s, Begin(todo))
    ensures SendsInv(Apply(s, Begin(todo)))
  {
    var t := Apply(s, Begin(todo));
    forall f | 0 <= f < |t.evals|
      ensures OutcomeOk(t.sends, t.evals[f], f)
    {
      if f < |s.evals| {
        assert OutcomeOk(s.sends, s.evals[f], f);
      }
    }
    forall k | 0 <= k < |t.sends|
      ensures SendOk(t, t.sends[k])
    {
      assert SendOk(s, s.sends[k]);
      SendOkLater(s, t, s.sends[k]);
    }
  }

  lemma {:induction false} StepSendsInv(s: State, a: Action)
    requires SendsInv(s) && Enabled(s, a) && (forall e :: 0 <= e < |s.evals| ==> PhaseOk(s.evals[e]))
    ensures SendsInv(Apply(s, a))
  {
    match a
    case Begin(todo) => BeginSendsInv(s, todo);
    case Send(e, success) => SendSendsInv(s, e, success);
    case Record(e) => RecordSendsInv(s, e);
    case Delete(_, _, _) =>
      assert forall k :: 0 <= k < |s.sends| ==> SendOk(s, s.sends[k]) && SendOk(Apply(s, a), s.sends[k]);
    case Create(e) =>
      assert PhaseOk(s.evals[e]) && OutcomeOk(s.sends, s.evals[e], e);
      SendsLater(s, Apply(s, a), e);
    case ListChannels(e, _) =>
      assert PhaseOk(s.evals[e]) && OutcomeOk(s.sends, s.evals[e], e);
      SendsLater(s, Apply(s, a), e);
    case Settle(e) =>
      assert PhaseOk(s.evals[e]) && OutcomeOk(s.sends, s.evals[e], e);
      SendsLater(s, Apply(s, a), e);
    case Fail(e) =>
      assert PhaseOk(s.evals[e]) && OutcomeOk(s.sends, s.evals[e], e);
      SendsLater(s, Apply(s, a), e);
  }

  /** Every call of every evaluation, and every call of the cleanup, keeps the invariant. */
  lemma {:induction false} StepInv(s: State, a: Action)
    requires Inv(s) && Enabled(s, a)
    ensures Inv(Apply(s, a))
  {
    assert forall e :: 0 <= e < |s.evals| && EvaluationOk(s, e) ==> PhaseOk(s.evals[e]);
    StepRecordsInv(s, a);
    StepSendsInv(s, a);
  }
}
