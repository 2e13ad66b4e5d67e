/** The one-time restore token: a request consumes it under a lock, tries to reset the password, and
    releases it if that fails. */
module RestoreToken {
  import opened Text

  /** Five minutes, in seconds. */
  const TTL := 300

  /** The token as configured, and until when it is good. */
  datatype Token = Token(configured: string, expiresAt: int)

  predicate Accepts(t: Token, used: bool, given: string, now: int) {
    !used && now <= t.expiresAt && Trim(t.configured) != "" && Trim(given) == Trim(t.configured)
  }

  datatype Reply = Rejected | Reset | ResetFailed

  class Handler {
    const token: Token
    var tokenUsed: bool

    constructor (configured: string, now: int)
      ensures token == Token(configured, now + TTL) && !tokenUsed
    {
      token, tokenUsed := Token(configured, now + TTL), false;
    }

    method ConsumeRestoreToken(given: string, now: int) returns (ok: bool)
      modifies this
      ensures ok == Accepts(token, old(tokenUsed), given, now)
      ensures tokenUsed == (old(tokenUsed) || ok)
    {
      if tokenUsed {
        return false;
      }
      if now > token.expiresAt {
        return false;
      }
      var expected, actual := Trim(token.configured), Trim(given);
      if expected == "" || |expected| != |actual| {
        return false;
      }
      if expected != actual {
        return false;
      }
      tokenUsed := true;
      ok := true;
    }

    method ReleaseRestoreToken()
      modifies this
      ensures !tokenUsed
    {
      tokenUsed := false;
    }

    /** One request on its own; whether the reset itself works is up to the account store. */
    method ResetAdminPassword(given: string, now: int, resetWorks: bool) returns (reply: Reply)
      modifies this
      ensures reply == if !Accepts(token, old(tokenUsed), given, now) then Rejected else if resetWorks then Reset else ResetFailed
      ensures tokenUsed == (if reply == Rejected then old(tokenUsed) else reply == Reset)
    {
      var ok := ConsumeRestoreToken(given, now);
      if !ok {
        return Rejected;
      }
      if !resetWorks {
        ReleaseRestoreToken();
        return ResetFailed;
      }
      reply := Reset;
    }
  }

  // ----- Requests side by side -----

  datatype Phase =
    | Arrived
    | Refused
    | Holding(since: int)
    | Releasing(since: int)
    | Released
    | Done(since: int)

  datatype Request = Request(given: string, phase: Phase)

  datatype State = State(token: Token, tokenUsed: bool, now: int, requests: seq<Request>)

  datatype Action =
    | Arrive(given: string)
    | Consume(r: nat)
    | Succeed(r: nat)
    | Fail(r: nat)
    | Release(r: nat)
    | Pass(seconds: nat)

  predicate Enabled(s: State, a: Action) {
    match a
    case Arrive(_) => true
    case Consume(r) => r < |s.requests| && s.requests[r].phase.Arrived?
    case Succeed(r) => r < |s.requests| && s.requests[r].phase.Holding?
    case Fail(r) => r < |s.requests| && s.requests[r].phase.Holding?
    case Release(r) => r < |s.requests| && s.requests[r].phase.Releasing?
    case Pass(_) => true
  }

  function Move(s: State, r: nat, phase: Phase, used: bool): State
    requires r < |s.requests|
  {
    s.(requests := s.requests[r := s.requests[r].(phase := phase)], tokenUsed := used)
  }

  function Apply(s: State, a: Action): State
    requires Enabled(s, a)
  {
    match a
    case Arrive(given) => s.(requests := s.requests + [Request(given, Arrived)])
    case Consume(r) =>
      if Accepts(s.token, s.tokenUsed, s.requests[r].given, s.now)
      then Move(s, r, Holding(s.now), true) else Move(s, r, Refused, s.tokenUsed)
    case Succeed(r) => Move(s, r, Done(s.requests[r].phase.since), s.tokenUsed)
    case Fail(r) => Move(s, r, Releasing(s.requests[r].phase.since), s.tokenUsed)
    case Release(r) => Move(s, r, Released, false)
    case Pass(seconds) => s.(now := s.now + seconds)
  }

  /** Holds the token now, or reset the password with it. */
  predicate IsHolder(p: Phase) {
    p.Holding? || p.Releasing?
  }

  predicate Counts(p: Phase) {
    IsHolder(p) || p.Done?
  }

  function CountHolders(rs: seq<Request>): nat {
    if rs == [] then 0
    else CountHolders(rs[..|rs| - 1]) + (if IsHolder(rs[|rs| - 1].phase) then 1 else 0)
  }

  function CountDone(rs: seq<Request>): nat {
    if rs == [] then 0
    else CountDone(rs[..|rs| - 1]) + (if rs[|rs| - 1].phase.Done? then 1 else 0)
  }

  ghost predicate InTime(s: State) {
    forall r :: 0 <= r < |s.requests| && Counts(s.requests[r].phase) ==>
      s.requests[r].phase.since <= s.token.expiresAt && Trim(s.requests[r].given) == Trim(s.token.configured) != ""
  }

  ghost predicate Inv(s: State) {
    && CountHolders(s.requests) + CountDone(s.requests) == (if s.tokenUsed then 1 else 0)
    && InTime(s)
  }

  lemma {:induction false} CountsSet(rs: seq<Request>, r: nat, x: Request)
    requires r < |rs|
    ensures CountHolders(rs[r := x])
         == CountHolders(rs) - (if IsHolder(rs[r].phase) then 1 else 0) + (if IsHolder(x.phase) then 1 else 0)
    ensures CountDone(rs[r := x])
         == CountDone(rs) - (if rs[r].phase.Done? then 1 else 0) + (if x.phase.Done? then 1 else 0)
    decreases |rs|
  {
    var n := |rs| - 1;
    if r < n {
      CountsSet(rs[..n], r, x);
      assert rs[r := x][..n] == rs[..n][r := x];
    } else {
      assert rs[r := x][..n] == rs[..n];
    }
  }

  lemma {:induction false} CountedOnce(rs: seq<Request>, r: nat)
    requires r < |rs|
    ensures IsHolder(rs[r].phase) ==> CountHolders(rs) >= 1
    ensures rs[r].phase.Done? ==> CountDone(rs) >= 1
  {
    CountsSet(rs, r, rs[r].(phase := Arrived));
  }

  /** Moving one request on counts it out of its old phase and into its new one. */
  lemma {:induction false} MoveInv(s: State, r: nat, phase: Phase, used: bool)
    requires Inv(s) && r < |s.requests|
    requires (if used then 1 else 0) - (if s.tokenUsed then 1 else 0)
          == (if Counts(phase) then 1 else 0) - (if Counts(s.requests[r].phase) then 1 else 0)
    requires Counts(phase) ==>
               phase.since <= s.token.expiresAt && Trim(s.requests[r].given) == Trim(s.token.configured) != ""
    ensures Inv(Move(s, r, phase, used))
  {
    CountsSet(s.requests, r, s.requests[r].(phase := phase));
  }

  lemma {:induction false} StepInv(s: State, a: Action)
    requires Inv(s) && Enabled(s, a)
    ensures Inv(Apply(s, a))
  {
    match a
    case Arrive(_) => assert Apply(s, a).requests[..|s.requests|] == s.requests;
    case Pass(_) =>
    case Consume(r) =>
      var ok := Accepts(s.token, s.tokenUsed, s.requests[r].given, s.now);
      MoveInv(s, r, if ok then Holding(s.now) else Refused, s.tokenUsed || ok);
    case Succeed(r) => MoveInv(s, r, Done(s.requests[r].phase.since), s.tokenUsed);
    case Fail(r) => MoveInv(s, r, Releasing(s.requests[r].phase.since), s.tokenUsed);
    case Release(r) =>
      CountedOnce(s.requests, r);
      MoveInv(s, r, Released, false);
  }

  ghost predicate Initial(s: State) {
    !s.tokenUsed && s.requests == []
  }

  ghost predicate IsStep(s: State, a: Action, t: State) {
    Enabled(s, a) && t == Apply(s, a)
  }

  ghost predicate IsRun(states: seq<State>, actions: seq<Action>) {
    && |states| == |actions| + 1 && Initial(states[0])
    && forall i {:trigger actions[i]} :: 0 <= i < |actions| ==> IsStep(states[i], actions[i], states[i + 1])
  }

  /** In every state of every interleaving, the requests holding the token and the successful resets
      together are at most one, and exactly one if and only if the token is marked used; each of them
      presented the right token no later than its expiry. */
  lemma {:induction false} OneUse(states: seq<State>, actions: seq<Action>, n: nat)
    requires IsRun(states, actions) && n < |states|
    ensures var s := states[n];
            && CountHolders(s.requests) + CountDone(s.requests) <= 1
            && (CountHolders(s.requests) + CountDone(s.requests) == 1 <==> s.tokenUsed)
            && InTime(s)
  {
    if n > 0 {
      OneUse(states, actions, n - 1);
      assert IsStep(states[n - 1], actions[n - 1], states[n]);
      StepInv(states[n - 1], actions[n - 1]);
    }
  }

  /** A finished reset stays finished, so no later request can even consume the token. */
  lemma {:induction false} ResetIsFinal(states: seq<State>, actions: seq<Action>, m: nat, n: nat, r: nat)
    requires IsRun(states, actions) && m <= n < |states|
    requires r < |states[m].requests| && states[m].requests[r].phase.Done?
    ensures r < |states[n].requests| && states[n].requests[r] == states[m].requests[r]
    ensures states[n].tokenUsed
    ensures forall given, now :: !Accepts(states[n].token, states[n].tokenUsed, given, now)
    decreases n - m
  {
    OneUse(states, actions, n);
    if m < n {
      ResetIsFinal(states, actions, m, n - 1, r);
      assert IsStep(states[n - 1], actions[n - 1], states[n]);
    }
    CountedOnce(states[n].requests, r);
  }

  /** After a failed reset the token is good again: the next request with it, in time, gets it. */
  lemma {:induction false} FailureFreesToken(s: State, r: nat, q: nat)
    requires Inv(s) && Enabled(s, Release(r)) && Enabled(s, Consume(q))
    requires s.now <= s.token.expiresAt && Trim(s.requests[q].given) == Trim(s.token.configured)
    ensures var freed := Apply(s, Release(r));
            && Enabled(freed, Consume(q))
            && Apply(freed, Consume(q)).requests[q].phase == Holding(s.now)
            && CountHolders(freed.requests) + CountDone(freed.requests) == 0
  {
    StepInv(s, Release(r));
    CountedOnce(s.requests, r);
    assert Counts(s.requests[r].phase);
  }
}
