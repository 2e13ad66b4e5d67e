/** What holds over whole runs of the scheduler, and that shutting down terminates. */
module SchedulerRuns {
  import opened Scheduler

  // ----- Runs -----

  ghost predicate IsStep(cfg: Config, s: State, a: Action, t: State) {
    Enabled(cfg, s, a) && t == Apply(cfg, s, a)
  }

  ghost predicate IsRun(cfg: Config, states: seq<State>, actions: seq<Action>) {
    && |states| == |actions| + 1
    && Initial(cfg, states[0])
    && forall i {:trigger actions[i]} :: 0 <= i < |actions| ==> IsStep(cfg, states[i], actions[i], states[i + 1])
  }

  lemma {:induction false} RunInv(cfg: Config, states: seq<State>, actions: seq<Action>, i: nat)
    requires ValidConfig(cfg) && IsRun(cfg, states, actions) && i < |states|
    ensures Inv(cfg, states[i])
  {
    if i == 0 {
      InitialInv(cfg, states[0]);
    } else {
      RunInv(cfg, states, actions, i - 1);
      assert IsStep(cfg, states[i - 1], actions[i - 1], states[i]);
      StepInv(cfg, states[i - 1], actions[i - 1]);
    }
  }

  /** No job is on two workers. */
  ghost predicate OneWorkerPerJob(s: State) {
    forall v, w :: 0 <= v < w < |s.workers| && IsBusy(s.workers[v]) && IsBusy(s.workers[w]) ==>
      s.workers[v].job != s.workers[w].job
  }

  /** In every state of every run: the pool and the channel stay within their bounds, every job sent is
      queued, in progress or finished, the n-th receive took the n-th job, no job is on two workers, and
      the channel was neither sent to nor closed again after it was closed. */
  lemma {:induction false} RunsAreSafe(cfg: Config, states: seq<State>, actions: seq<Action>, i: nat)
    requires ValidConfig(cfg) && IsRun(cfg, states, actions) && i < |states|
    ensures var s := states[i];
            && Busy(s.workers) <= cfg.maxWorkers && |s.queue| <= cfg.maxWorkers
            && |s.jobs| == |s.queue| + Busy(s.workers) + FinishedJobs(s.jobs)
            && Fifo(s) && OneWorkerPerJob(s) && !s.panicked
  {
    RunInv(cfg, states, actions, i);
    var s := states[i];
    BusyBounded(s.workers);
    forall v, w | 0 <= v < w < |s.workers| && IsBusy(s.workers[v]) && IsBusy(s.workers[w])
      ensures s.workers[v].job != s.workers[w].job
    {
      assert WorkerOk(s, v) && WorkerOk(s, w);
    }
  }

  // ----- History -----

  ghost predicate JobEvolves(x: Job, y: Job) {
    y.machine == x.machine && x.attempts <= y.attempts && (x.finished ==> y == x)
  }

  /** Receives are never undone, jobs keep their machine, finished jobs stay as they are, and once the
      channel is closed no job is added. */
  ghost predicate Evolves(s: State, t: State) {
    && s.takes <= t.takes && |s.jobs| <= |t.jobs|
    && (forall j :: 0 <= j < |s.jobs| ==> JobEvolves(s.jobs[j], t.jobs[j]))
    && (s.closed ==> t.closed && |t.jobs| == |s.jobs|)
  }

  /** A job that is not finished yet changes. */
  lemma {:induction false} ChangeEvolves(s: State, w: nat, x: Worker, j: nat, y: Job)
    requires w < |s.workers| && j < |s.jobs| && !s.jobs[j].finished
    requires y.machine == s.jobs[j].machine && s.jobs[j].attempts <= y.attempts
    ensures Evolves(s, SetJob(SetWorker(s, w, x), j, y))
  {
  }

  lemma {:induction false} WorkerEvolves(cfg: Config, s: State, a: Action)
    requires Enabled(cfg, s, a) && (a.Succeed? || a.Fail? || a.Retry? || a.GiveUp?) && WorkerOk(s, a.w)
    ensures Evolves(s, Apply(cfg, s, a))
  {
    var t := Apply(cfg, s, a);
    var j := s.workers[a.w].job;
    assert s.jobs[j := s.jobs[j]] == s.jobs;
    ChangeEvolves(s, a.w, t.workers[a.w], j, t.jobs[j]);
  }

  lemma {:induction false} ReceiveEvolves(cfg: Config, s: State, w: nat)
    requires Enabled(cfg, s, Receive(w)) && !s.jobs[s.queue[0]].finished
    ensures Evolves(s, ReceiveJob(s, w))
  {
    var j := s.queue[0];
    ChangeEvolves(s, w, Collecting(j, 0), j, s.jobs[j].(attempts := s.jobs[j].attempts + 1));
  }

  lemma {:induction false} StepEvolves(cfg: Config, s: State, a: Action)
    requires Inv(cfg, s) && Enabled(cfg, s, a)
    ensures Evolves(s, Apply(cfg, s, a))
  {
    if a.Receive? {
      assert JobOk(cfg, s, s.queue[0]);
      ReceiveEvolves(cfg, s, a.w);
    } else if a.Succeed? || a.Fail? || a.Retry? || a.GiveUp? {
      assert WorkerOk(s, a.w);
      WorkerEvolves(cfg, s, a);
    }
  }

  lemma {:induction false} EvolvesOn(r: State, s: State, t: State)
    requires Evolves(r, s) && Evolves(s, t)
    ensures Evolves(r, t)
  {
    assert forall j :: 0 <= j < |r.jobs| ==> JobEvolves(r.jobs[j], s.jobs[j]) && JobEvolves(s.jobs[j], t.jobs[j]);
  }

  lemma {:induction false} RunStepEvolves(cfg: Config, states: seq<State>, actions: seq<Action>, i: nat)
    requires ValidConfig(cfg) && IsRun(cfg, states, actions) && i < |actions|
    ensures Evolves(states[i], states[i + 1])
  {
    RunInv(cfg, states, actions, i);
    assert IsStep(cfg, states[i], actions[i], states[i + 1]);
    StepEvolves(cfg, states[i], actions[i]);
  }

  lemma {:induction false} RunEvolves(cfg: Config, states: seq<State>, actions: seq<Action>, i: nat, j: nat)
    requires ValidConfig(cfg) && IsRun(cfg, states, actions) && i <= j < |states|
    ensures Evolves(states[i], states[j])
    decreases j - i
  {
    if i < j {
      RunEvolves(cfg, states, actions, i, j - 1);
      RunStepEvolves(cfg, states, actions, j - 1);
      EvolvesOn(states[i], states[j - 1], states[j]);
    }
  }

  // ----- Shutdown loses nothing -----

  /** Both wait groups have reached zero, so Wait returns. */
  ghost predicate WaitReturns(s: State) {
    s.loop.Exited? && forall w :: 0 <= w < |s.workers| ==> s.workers[w].Done?
  }

  /** When Wait returns, Stop was called, the channel is closed and drained, every job ever sent was
      received and is finished after one to retryTimes + 1 attempts, and from then on nothing changes. */
  lemma {:induction false} ShutdownLosesNothing(cfg: Config, states: seq<State>, actions: seq<Action>, i: nat)
    requires ValidConfig(cfg) && IsRun(cfg, states, actions) && i < |states| && WaitReturns(states[i])
    ensures var s := states[i];
            && StopRequested(s) && s.closed && s.queue == [] && |s.takes| == |s.jobs|
            && (forall j :: 0 <= j < |s.jobs| ==>
                  s.jobs[j].finished && EndedWell(cfg, s.jobs[j], StopRequested(s)))
            && (forall k :: i <= k < |states| ==> states[k].jobs == s.jobs && states[k].takes == s.takes)
  {
    var s := states[i];
    RunInv(cfg, states, actions, i);
    assert s.workers[0].Done?;
    forall j | 0 <= j < |s.jobs|
      ensures s.jobs[j].finished && EndedWell(cfg, s.jobs[j], StopRequested(s))
    {
      assert JobOk(cfg, s, j);
    }
    forall k | i <= k < |states|
      ensures states[k].jobs == s.jobs && states[k].takes == s.takes
    {
      RunEvolves(cfg, states, actions, i, k);
      RunInv(cfg, states, actions, k);
      assert states[k].jobs == s.jobs;
      assert |states[k].takes| <= |states[k].jobs|;
    }
  }

  /** A job that gave up early did so in a state where Stop had been requested. */
  lemma {:induction false} GivingUpNeedsStop(cfg: Config, states: seq<State>, actions: seq<Action>, i: nat, j: nat)
    requires ValidConfig(cfg) && IsRun(cfg, states, actions) && i < |states| && j < |states[i].jobs|
    requires var job := states[i].jobs[j]; job.finished && !job.succeeded && job.attempts <= cfg.retryTimes
    ensures StopRequested(states[i])
  {
    RunInv(cfg, states, actions, i);
    assert JobOk(cfg, states[i], j);
  }

  // ----- Termination after Stop -----

  function Phase(l: Loop): nat {
    match l
    case Listing => 5
    case Sending(_, _) => 4
    case Selecting => 3
    case Closing => 2
    case Finishing => 1
    case Exited => 0
  }

  /** The most steps a worker still has on what it is doing. */
  function WorkerWeight(cfg: Config, w: Worker): int {
    match w
    case Idle => 1
    case Collecting(_, a) => 2 * (cfg.retryTimes - a) + 3
    case Delaying(_, a) => 2 * (cfg.retryTimes - a) + 2
    case Done => 0
  }

  function WorkersWeight(cfg: Config, ws: seq<Worker>): int {
    if ws == [] then 0 else WorkersWeight(cfg, ws[..|ws| - 1]) + WorkerWeight(cfg, ws[|ws| - 1])
  }

  function Unsent(l: Loop): int {
    if l.Sending? then |l.machines| - l.sent else 0
  }

  /** A queued job weighs as much as a worker's whole effort on it, an unsent machine one step more. */
  function Weight(cfg: Config, s: State): int {
    WorkersWeight(cfg, s.workers) + |s.queue| * (2 * cfg.retryTimes + 3) + Unsent(s.loop) * (2 * cfg.retryTimes + 4)
  }

  lemma {:induction false} WorkersWeightSet(cfg: Config, ws: seq<Worker>, i: nat, x: Worker)
    requires i < |ws|
    ensures WorkersWeight(cfg, ws[i := x]) == WorkersWeight(cfg, ws) - WorkerWeight(cfg, ws[i]) + WorkerWeight(cfg, x)
    decreases |ws|
  {
    var n := |ws| - 1;
    if i < n {
      WorkersWeightSet(cfg, ws[..n], i, x);
      assert ws[i := x][..n] == ws[..n][i := x];
    } else {
      assert ws[i := x][..n] == ws[..n];
    }
  }

  ghost predicate WorkersBounded(cfg: Config, ws: seq<Worker>) {
    forall w :: 0 <= w < |ws| && IsBusy(ws[w]) ==> ws[w].attempt <= cfg.retryTimes
  }

  lemma {:induction false} WorkersWeightNonnegative(cfg: Config, ws: seq<Worker>)
    requires WorkersBounded(cfg, ws)
    ensures WorkersWeight(cfg, ws) >= 0
    decreases |ws|
  {
    if ws != [] {
      WorkersWeightNonnegative(cfg, ws[..|ws| - 1]);
    }
  }

  lemma {:induction false} WeightNonnegative(cfg: Config, s: State)
    requires Inv(cfg, s)
    ensures Weight(cfg, s) >= 0
  {
    forall w | 0 <= w < |s.workers| && IsBusy(s.workers[w])
      ensures s.workers[w].attempt <= cfg.retryTimes
    {
      assert WorkerOk(s, w) && JobOk(cfg, s, s.workers[w].job);
    }
    WorkersWeightNonnegative(cfg, s.workers);
  }

  ghost predicate Below(cfg: Config, t: State, s: State) {
    || Phase(t.loop) < Phase(s.loop)
    || (Phase(t.loop) == Phase(s.loop) && Weight(cfg, t) < Weight(cfg, s))
  }

  lemma {:induction false} WorkerStepDecreases(cfg: Config, s: State, a: Action)
    requires Inv(cfg, s) && Enabled(cfg, s, a)
    requires a.ExitWorker? || a.Succeed? || a.Fail? || a.Retry? || a.GiveUp?
    ensures Below(cfg, Apply(cfg, s, a), s)
  {
    var t := Apply(cfg, s, a);
    if !a.ExitWorker? {
      assert WorkerOk(s, a.w) && JobOk(cfg, s, s.workers[a.w].job);
    }
    WorkersWeightSet(cfg, s.workers, a.w, t.workers[a.w]);
    assert t.workers == s.workers[a.w := t.workers[a.w]];
  }

  lemma {:induction false} ReceiveDecreases(cfg: Config, s: State, w: nat)
    requires Enabled(cfg, s, Receive(w))
    ensures Below(cfg, ReceiveJob(s, w), s)
  {
    var t := ReceiveJob(s, w);
    var q := 2 * cfg.retryTimes + 3;
    WorkersWeightSet(cfg, s.workers, w, t.workers[w]);
    assert |t.queue| * q == |s.queue| * q - q;
  }

  lemma {:induction false} SendDecreases(cfg: Config, s: State)
    requires Enabled(cfg, s, Send) && !s.closed
    ensures Below(cfg, Apply(cfg, s, Send), s)
  {
    var t := Apply(cfg, s, Send);
    var q := 2 * cfg.retryTimes + 3;
    assert |t.queue| * q == |s.queue| * q + q;
    assert Unsent(t.loop) * (q + 1) == Unsent(s.loop) * (q + 1) - (q + 1);
  }

  /** After Stop, every step except accepting another tick brings the shutdown nearer. */
  lemma {:induction false} StopStepDecreases(cfg: Config, s: State, a: Action)
    requires Inv(cfg, s) && s.stopClosed && Enabled(cfg, s, a) && !a.Tick?
    ensures Below(cfg, Apply(cfg, s, a), s) && Apply(cfg, s, a).stopClosed
  {
    if a.ExitWorker? || a.Succeed? || a.Fail? || a.Retry? || a.GiveUp? {
      WorkerStepDecreases(cfg, s, a);
    } else if a.Send? {
      SendDecreases(cfg, s);
    } else if a.Receive? {
      ReceiveDecreases(cfg, s, a.w);
    }
  }

  /** Until all goroutines have exited, one of them can take a step; after Stop, one that is not a tick. */
  lemma {:induction false} NoDeadlock(cfg: Config, s: State) returns (a: Action)
    requires Inv(cfg, s) && !WaitReturns(s)
    ensures Enabled(cfg, s, a) && !a.CancelContext? && !a.CloseStop?
    ensures StopRequested(s) ==> !a.Tick?
  {
    match s.loop
    case Listing => a := ListFails;
    case Selecting => a := if StopRequested(s) then LeaveLoop else Tick;
    case Closing => a := CloseJobs;
    case Finishing => a := ExitLoop;
    case Sending(ms, sent) =>
      if sent >= |ms| {
        a := EndDispatch;
      } else if |s.queue| < cfg.maxWorkers {
        a := Send;
      } else {
        a := WorkerCanStep(cfg, s, 0);
      }
    case Exited =>
      var w :| 0 <= w < |s.workers| && !s.workers[w].Done?;
      a := WorkerCanStep(cfg, s, w);
  }

  lemma {:induction false} WorkerCanStep(cfg: Config, s: State, w: nat) returns (a: Action)
    requires Inv(cfg, s) && w < |s.workers| && !s.workers[w].Done? && (s.closed || s.queue != [])
    ensures Enabled(cfg, s, a) && (a.Receive? || a.ExitWorker? || a.Fail? || a.Retry?)
  {
    assert WorkerOk(s, w);
    a := match s.workers[w]
         case Idle => if s.queue == [] then ExitWorker(w) else Receive(w)
         case Collecting(_, _) => Fail(w)
         case Delaying(_, _) => Retry(w);
  }

  /** An endless run: a state and an action for every moment. */
  ghost predicate EndlessFrom(cfg: Config, states: nat -> State, actions: nat -> Action, n: nat) {
    forall i: nat :: i >= n ==> IsStep(cfg, states(i), actions(i), states(i + 1))
  }

  /** Once Stop is done, the scheduler can only go on forever by accepting ticks forever: from any moment
      on, some later step is a tick. With finitely many ticks every run therefore ends, and by NoDeadlock
      it ends where Wait returns. */
  lemma {:induction false} EndlessRunsTick(cfg: Config, states: nat -> State, actions: nat -> Action, n: nat) returns (m: nat)
    requires Inv(cfg, states(n)) && states(n).stopClosed && EndlessFrom(cfg, states, actions, n)
    ensures m >= n && actions(m).Tick?
    decreases Phase(states(n).loop), Weight(cfg, states(n))
  {
    WeightNonnegative(cfg, states(n));
    assert IsStep(cfg, states(n), actions(n), states(n + 1));
    if actions(n).Tick? {
      m := n;
    } else {
      StepInv(cfg, states(n), actions(n));
      StopStepDecreases(cfg, states(n), actions(n));
      m := EndlessRunsTick(cfg, states, actions, n + 1);
    }
  }
}
