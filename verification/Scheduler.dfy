/** The traffic scheduler as a state machine: one dispatcher, a bounded channel of jobs, a fixed pool of
    workers that retry, and Stop, which cancels the run context and then closes the stop channel. Every
    interleaving of the goroutines is a run. */
module Scheduler {
  /** The validated configuration. */
  datatype Config = Config(maxWorkers: nat, retryTimes: nat)

  ghost predicate ValidConfig(cfg: Config) {
    cfg.maxWorkers > 0
  }

  /** Where the dispatcher stands. `sent` counts the machines of the current listing already queued. */
  datatype Loop =
    | Listing
    | Sending(machines: seq<nat>, sent: nat)
    | Selecting
    | Closing
    | Finishing
    | Exited

  datatype Worker =
    | Idle
    | Collecting(job: nat, attempt: nat)
    | Delaying(job: nat, attempt: nat)
    | Done

  /** A queued collection and what became of it; jobs are numbered in the order they were sent. */
  datatype Job = Job(machine: nat, attempts: nat, succeeded: bool, finished: bool)

  datatype Take = Take(job: nat, worker: nat)

  datatype State = State(
    loop: Loop, queue: seq<nat>, closed: bool, panicked: bool, workers: seq<Worker>,
    cancelled: bool, stopClosed: bool,
    jobs: seq<Job>, takes: seq<Take>)

  predicate StopRequested(s: State) {
    s.cancelled || s.stopClosed
  }

  /** Stop may even precede Start, in which case there is no context to cancel yet. */
  ghost predicate Initial(cfg: Config, s: State) {
    && s.loop == Listing && s.queue == [] && !s.closed && !s.panicked && !s.cancelled
    && s.jobs == [] && s.takes == []
    && |s.workers| == cfg.maxWorkers && forall w :: 0 <= w < |s.workers| ==> s.workers[w] == Idle
  }

  // ----- Steps -----

  datatype Action =
    | ListMachines(machines: seq<nat>)
    | ListFails
    | Send
    | EndDispatch
    | AbandonDispatch
    | Tick
    | LeaveLoop
    | CloseJobs
    | ExitLoop
    | Receive(w: nat)
    | ExitWorker(w: nat)
    | Succeed(w: nat)
    | Fail(w: nat)
    | Retry(w: nat)
    | GiveUp(w: nat)
    | CancelContext
    | CloseStop

  predicate Working(s: State, w: nat) {
    w < |s.workers| && s.workers[w].Collecting? && s.workers[w].job < |s.jobs|
  }

  predicate Pausing(s: State, w: nat) {
    w < |s.workers| && s.workers[w].Delaying? && s.workers[w].job < |s.jobs|
  }

  /** A send to a closed channel is possible too: it panics. */
  predicate Enabled(cfg: Config, s: State, a: Action) {
    && !s.panicked
    && match a
       case ListMachines(_) => s.loop.Listing?
       case ListFails => s.loop.Listing?
       case Send => s.loop.Sending? && s.loop.sent < |s.loop.machines| && (s.closed || |s.queue| < cfg.maxWorkers)
       case EndDispatch => s.loop.Sending? && s.loop.sent >= |s.loop.machines|
       case AbandonDispatch => s.loop.Sending? && s.loop.sent < |s.loop.machines| && StopRequested(s)
       case Tick => s.loop.Selecting?
       case LeaveLoop => s.loop.Selecting? && StopRequested(s)
       case CloseJobs => s.loop.Closing?
       case ExitLoop => s.loop.Finishing?
       case Receive(w) => w < |s.workers| && s.workers[w].Idle? && s.queue != [] && s.queue[0] < |s.jobs|
       case ExitWorker(w) => w < |s.workers| && s.workers[w].Idle? && s.closed && s.queue == []
       case Succeed(w) => Working(s, w)
       case Fail(w) => Working(s, w)
       case Retry(w) => Pausing(s, w)
       case GiveUp(w) => Pausing(s, w) && StopRequested(s)
       case CancelContext => !s.cancelled && !s.stopClosed
       case CloseStop => !s.stopClosed
  }

  function SetWorker(s: State, w: nat, x: Worker): State
    requires w < |s.workers|
  {
    s.(workers := s.workers[w := x])
  }

  function SetJob(s: State, j: nat, x: Job): State
    requires j < |s.jobs|
  {
    s.(jobs := s.jobs[j := x])
  }

  function ReceiveJob(s: State, w: nat): State
    requires w < |s.workers| && s.queue != [] && s.queue[0] < |s.jobs|
  {
    var j := s.queue[0];
    SetJob(SetWorker(s, w, Collecting(j, 0)), j, s.jobs[j].(attempts := s.jobs[j].attempts + 1))
      .(queue := s.queue[1..], takes := s.takes + [Take(j, w)])
  }

  function FinishJob(s: State, w: nat, succeeded: bool): State
    requires w < |s.workers| && (s.workers[w].Collecting? || s.workers[w].Delaying?) && s.workers[w].job < |s.jobs|
  {
    var j := s.workers[w].job;
    SetJob(SetWorker(s, w, Idle), j, s.jobs[j].(succeeded := succeeded, finished := true))
  }

  function RetryJob(s: State, w: nat): State
    requires Pausing(s, w)
  {
    var j := s.workers[w].job;
    SetJob(SetWorker(s, w, Collecting(j, s.workers[w].attempt + 1)), j, s.jobs[j].(attempts := s.jobs[j].attempts + 1))
  }

  function Apply(cfg: Config, s: State, a: Action): State
    requires Enabled(cfg, s, a)
  {
    match a
    case ListMachines(ms) => s.(loop := Sending(ms, 0))
    case ListFails => s.(loop := Selecting)
    case Send =>
      if s.closed then s.(panicked := true)
      else s.(loop := Sending(s.loop.machines, s.loop.sent + 1), queue := s.queue + [|s.jobs|],
              jobs := s.jobs + [Job(s.loop.machines[s.loop.sent], 0, false, false)])
    case EndDispatch => s.(loop := Selecting)
    case AbandonDispatch => s.(loop := Selecting)
    case Tick => s.(loop := Listing)
    case LeaveLoop => s.(loop := Closing)
    case CloseJobs => if s.closed then s.(panicked := true) else s.(loop := Finishing, closed := true)
    case ExitLoop => s.(loop := Exited)
    case Receive(w) => ReceiveJob(s, w)
    case ExitWorker(w) => SetWorker(s, w, Done)
    case Succeed(w) => FinishJob(s, w, true)
    case Fail(w) =>
      if s.workers[w].attempt < cfg.retryTimes
      then SetWorker(s, w, Delaying(s.workers[w].job, s.workers[w].attempt))
      else FinishJob(s, w, false)
    case Retry(w) => RetryJob(s, w)
    case GiveUp(w) => FinishJob(s, w, false)
    case CancelContext => s.(cancelled := true)
    case CloseStop => s.(stopClosed := true)
  }

  // ----- The invariant -----

  predicate IsBusy(w: Worker) {
    w.Collecting? || w.Delaying?
  }

  function Busy(ws: seq<Worker>): nat {
    if ws == [] then 0 else Busy(ws[..|ws| - 1]) + (if IsBusy(ws[|ws| - 1]) then 1 else 0)
  }

  function FinishedJobs(jobs: seq<Job>): nat {
    if jobs == [] then 0 else FinishedJobs(jobs[..|jobs| - 1]) + (if jobs[|jobs| - 1].finished then 1 else 0)
  }

  /** Worker `x` is on job `j`, in its `attempts`-th attempt or in the pause after it. */
  predicate IsOn(cfg: Config, x: Worker, j: nat, attempts: nat) {
    && IsBusy(x) && x.job == j && x.attempt + 1 == attempts
    && (if x.Collecting? then x.attempt <= cfg.retryTimes else x.attempt < cfg.retryTimes)
  }

  /** A finished job had its attempts; it gave up early only on request. */
  predicate EndedWell(cfg: Config, job: Job, stop: bool) {
    && 1 <= job.attempts <= cfg.retryTimes + 1
    && (!job.succeeded && job.attempts < cfg.retryTimes + 1 ==> stop)
  }

  ghost predicate JobOk(cfg: Config, s: State, j: nat)
    requires j < |s.jobs|
  {
    var job := s.jobs[j];
    if j >= |s.takes| then job.attempts == 0 && !job.succeeded && !job.finished
    else if job.finished then EndedWell(cfg, job, StopRequested(s))
    else !job.succeeded && s.takes[j].worker < |s.workers| && IsOn(cfg, s.workers[s.takes[j].worker], j, job.attempts)
  }

  ghost predicate WorkerOk(s: State, w: nat)
    requires w < |s.workers|
  {
    IsBusy(s.workers[w]) ==>
      var j := s.workers[w].job;
      j < |s.takes| <= |s.jobs| && s.takes[j].worker == w && !s.jobs[j].finished
  }

  /** First in, first out: the n-th receive took the n-th job sent, and the rest wait in order. */
  ghost predicate Fifo(s: State) {
    && |s.takes| + |s.queue| == |s.jobs|
    && (forall k :: 0 <= k < |s.takes| ==> s.takes[k].job == k)
    && (forall k :: 0 <= k < |s.queue| ==> s.queue[k] == |s.takes| + k)
  }

  /** What the current dispatch has queued is the beginning of its listing. */
  ghost predicate DispatchOk(s: State) {
    s.loop.Sending? ==>
      && s.loop.sent <= |s.loop.machines| && s.loop.sent <= |s.jobs|
      && forall k :: 0 <= k < s.loop.sent ==> s.jobs[|s.jobs| - s.loop.sent + k].machine == s.loop.machines[k]
  }

  ghost predicate ChannelOk(s: State) {
    && !s.panicked
    && (s.closed <==> s.loop.Finishing? || s.loop.Exited?)
    && (s.loop.Closing? || s.loop.Finishing? || s.loop.Exited? ==> StopRequested(s))
    && (forall w :: 0 <= w < |s.workers| && s.workers[w].Done? ==> s.closed && s.queue == [])
  }

  ghost predicate Inv(cfg: Config, s: State) {
    && ValidConfig(cfg) && |s.workers| == cfg.maxWorkers && |s.queue| <= cfg.maxWorkers
    && Fifo(s) && ChannelOk(s) && DispatchOk(s)
    && (forall j :: 0 <= j < |s.jobs| ==> JobOk(cfg, s, j))
    && (forall w :: 0 <= w < |s.workers| ==> WorkerOk(s, w))
    && |s.jobs| == |s.queue| + Busy(s.workers) + FinishedJobs(s.jobs)
  }

  // ----- Counting -----

  lemma {:induction false} BusySet(ws: seq<Worker>, i: nat, x: Worker)
    requires i < |ws|
    ensures Busy(ws[i := x]) == Busy(ws) - (if IsBusy(ws[i]) then 1 else 0) + (if IsBusy(x) then 1 else 0)
    decreases |ws|
  {
    var n := |ws| - 1;
    if i < n {
      BusySet(ws[..n], i, x);
      assert ws[i := x][..n] == ws[..n][i := x];
    } else {
      assert ws[i := x][..n] == ws[..n];
    }
  }

  lemma {:induction false} FinishedSet(jobs: seq<Job>, i: nat, x: Job)
    requires i < |jobs|
    ensures FinishedJobs(jobs[i := x])
         == FinishedJobs(jobs) - (if jobs[i].finished then 1 else 0) + (if x.finished then 1 else 0)
    decreases |jobs|
  {
    var n := |jobs| - 1;
    if i < n {
      FinishedSet(jobs[..n], i, x);
      assert jobs[i := x][..n] == jobs[..n][i := x];
    } else {
      assert jobs[i := x][..n] == jobs[..n];
    }
  }

  lemma {:induction false} IdleNotBusy(ws: seq<Worker>)
    requires forall w :: 0 <= w < |ws| ==> ws[w] == Idle
    ensures Busy(ws) == 0
    decreases |ws|
  {
    if ws != [] {
      IdleNotBusy(ws[..|ws| - 1]);
    }
  }

  lemma {:induction false} BusyBounded(ws: seq<Worker>)
    ensures Busy(ws) <= |ws|
    ensures (forall w :: 0 <= w < |ws| ==> !IsBusy(ws[w])) ==> Busy(ws) == 0
    decreases |ws|
  {
    if ws != [] {
      BusyBounded(ws[..|ws| - 1]);
    }
  }

  // ----- Every step keeps the invariant -----

  lemma {:induction false} InitialInv(cfg: Config, s: State)
    requires ValidConfig(cfg) && Initial(cfg, s)
    ensures Inv(cfg, s)
  {
    IdleNotBusy(s.workers);
  }

  lemma {:induction false} LoopStepInv(cfg: Config, s: State, a: Action)
    requires Inv(cfg, s) && Enabled(cfg, s, a)
    requires a.ListMachines? || a.ListFails? || a.EndDispatch? || a.AbandonDispatch? || a.Tick? || a.LeaveLoop?
          || a.CloseJobs? || a.ExitLoop? || a.CancelContext? || a.CloseStop?
    ensures Inv(cfg, Apply(cfg, s, a))
  {
    var t := Apply(cfg, s, a);
    assert forall j :: 0 <= j < |s.jobs| ==> JobOk(cfg, s, j) ==> JobOk(cfg, t, j);
    assert forall w :: 0 <= w < |s.workers| ==> WorkerOk(s, w) ==> WorkerOk(t, w);
  }

  lemma {:induction false} SendKeepsJob(cfg: Config, s: State, j: nat)
    requires Enabled(cfg, s, Send) && !s.closed && Fifo(s) && (j < |s.jobs| ==> JobOk(cfg, s, j)) && j <= |s.jobs|
    ensures JobOk(cfg, Apply(cfg, s, Send), j)
  {
  }

  lemma {:induction false} SendFrame(cfg: Config, s: State)
    requires Enabled(cfg, s, Send) && Fifo(s) && ChannelOk(s) && DispatchOk(s)
    ensures var t := Apply(cfg, s, Send); Fifo(t) && ChannelOk(t) && DispatchOk(t)
  {
  }

  lemma {:induction false} SendInv(cfg: Config, s: State)
    requires Inv(cfg, s) && Enabled(cfg, s, Send)
    ensures Inv(cfg, Apply(cfg, s, Send))
  {
    var t := Apply(cfg, s, Send);
    assert t.jobs[..|t.jobs| - 1] == s.jobs;
    SendFrame(cfg, s);
    forall j | 0 <= j < |t.jobs|
      ensures JobOk(cfg, t, j)
    {
      SendKeepsJob(cfg, s, j);
    }
    forall w | 0 <= w < |t.workers|
      ensures WorkerOk(t, w)
    {
      assert WorkerOk(s, w);
    }
  }

  lemma {:induction false} ReceiveKeepsJob(cfg: Config, s: State, w: nat, i: nat)
    requires Enabled(cfg, s, Receive(w)) && Fifo(s) && WorkerOk(s, w) && i < |s.jobs| && JobOk(cfg, s, i)
    ensures JobOk(cfg, ReceiveJob(s, w), i)
  {
  }

  lemma {:induction false} ReceiveKeepsWorker(cfg: Config, s: State, w: nat, v: nat)
    requires Enabled(cfg, s, Receive(w)) && Fifo(s) && v < |s.workers| && WorkerOk(s, v) && JobOk(cfg, s, s.queue[0])
    ensures WorkerOk(ReceiveJob(s, w), v)
  {
  }

  lemma {:induction false} ReceiveFrame(cfg: Config, s: State, w: nat)
    requires Enabled(cfg, s, Receive(w)) && Fifo(s) && ChannelOk(s) && DispatchOk(s)
    ensures var t := ReceiveJob(s, w); Fifo(t) && ChannelOk(t) && DispatchOk(t)
  {
  }

  lemma {:induction false} ReceiveInv(cfg: Config, s: State, w: nat)
    requires Inv(cfg, s) && Enabled(cfg, s, Receive(w))
    ensures Inv(cfg, Apply(cfg, s, Receive(w)))
  {
    var t := Apply(cfg, s, Receive(w));
    var j := s.queue[0];
    assert WorkerOk(s, w) && JobOk(cfg, s, j);
    BusySet(s.workers, w, t.workers[w]);
    FinishedSet(s.jobs, j, t.jobs[j]);
    ReceiveFrame(cfg, s, w);
    forall i | 0 <= i < |t.jobs|
      ensures JobOk(cfg, t, i)
    {
      ReceiveKeepsJob(cfg, s, w, i);
    }
    forall v | 0 <= v < |t.workers|
      ensures WorkerOk(t, v)
    {
      ReceiveKeepsWorker(cfg, s, w, v);
    }
  }

  /** A worker goes on with its job, or has finished it. */
  predicate IsChange(cfg: Config, s: State, w: nat, x: Worker, y: Job)
    requires w < |s.workers| && IsBusy(s.workers[w])
  {
    if x == Idle then y.finished && EndedWell(cfg, y, StopRequested(s))
    else IsOn(cfg, x, s.workers[w].job, y.attempts) && !y.finished && !y.succeeded
  }

  function Change(s: State, w: nat, x: Worker, y: Job): State
    requires w < |s.workers| && IsBusy(s.workers[w]) && s.workers[w].job < |s.jobs|
  {
    SetJob(SetWorker(s, w, x), s.workers[w].job, y)
  }

  lemma {:induction false} ChangeKeepsJob(cfg: Config, s: State, w: nat, x: Worker, y: Job, i: nat)
    requires w < |s.workers| && IsBusy(s.workers[w]) && s.workers[w].job < |s.jobs| && IsChange(cfg, s, w, x, y)
    requires WorkerOk(s, w) && i < |s.jobs| && JobOk(cfg, s, i)
    ensures JobOk(cfg, Change(s, w, x, y), i)
  {
  }

  lemma {:induction false} ChangeKeepsWorker(cfg: Config, s: State, w: nat, x: Worker, y: Job, v: nat)
    requires w < |s.workers| && IsBusy(s.workers[w]) && s.workers[w].job < |s.jobs| && IsChange(cfg, s, w, x, y)
    requires WorkerOk(s, w) && v < |s.workers| && WorkerOk(s, v)
    ensures WorkerOk(Change(s, w, x, y), v)
  {
  }

  lemma {:induction false} WorkerChangeInv(cfg: Config, s: State, w: nat, x: Worker, y: Job)
    requires Inv(cfg, s) && w < |s.workers| && IsBusy(s.workers[w]) && s.workers[w].job < |s.jobs|
    requires y.machine == s.jobs[s.workers[w].job].machine && IsChange(cfg, s, w, x, y)
    ensures Inv(cfg, Change(s, w, x, y))
  {
    var j := s.workers[w].job;
    var t := Change(s, w, x, y);
    assert WorkerOk(s, w) && JobOk(cfg, s, j);
    BusySet(s.workers, w, x);
    FinishedSet(s.jobs, j, y);
    forall i | 0 <= i < |t.jobs|
      ensures JobOk(cfg, t, i)
    {
      ChangeKeepsJob(cfg, s, w, x, y, i);
    }
    forall v | 0 <= v < |t.workers|
      ensures WorkerOk(t, v)
    {
      assert WorkerOk(s, v);
      ChangeKeepsWorker(cfg, s, w, x, y, v);
    }
  }

  lemma {:induction false} ExitWorkerInv(cfg: Config, s: State, w: nat)
    requires Inv(cfg, s) && Enabled(cfg, s, ExitWorker(w))
    ensures Inv(cfg, Apply(cfg, s, ExitWorker(w)))
  {
    var t := Apply(cfg, s, ExitWorker(w));
    BusySet(s.workers, w, Done);
    forall i | 0 <= i < |t.jobs|
      ensures JobOk(cfg, t, i)
    {
      assert JobOk(cfg, s, i);
    }
    forall v | 0 <= v < |t.workers|
      ensures WorkerOk(t, v)
    {
      assert WorkerOk(s, v);
    }
  }

  /** A worker step that keeps the worker on its job or finishes the job. */
  lemma {:induction false} WorkerStepInv(cfg: Config, s: State, a: Action)
    requires Inv(cfg, s) && Enabled(cfg, s, a) && (a.Succeed? || a.Fail? || a.Retry? || a.GiveUp?)
    ensures Inv(cfg, Apply(cfg, s, a))
  {
    var t := Apply(cfg, s, a);
    var j := s.workers[a.w].job;
    assert WorkerOk(s, a.w) && JobOk(cfg, s, j);
    assert s.jobs[j := s.jobs[j]] == s.jobs;
    WorkerChangeInv(cfg, s, a.w, t.workers[a.w], t.jobs[j]);
  }

  lemma {:induction false} StepInv(cfg: Config, s: State, a: Action)
    requires Inv(cfg, s) && Enabled(cfg, s, a)
    ensures Inv(cfg, Apply(cfg, s, a))
  {
    match a
    case Send => SendInv(cfg, s);
    case Receive(w) => ReceiveInv(cfg, s, w);
    case ExitWorker(w) => ExitWorkerInv(cfg, s, w);
    case Succeed(w) => WorkerStepInv(cfg, s, a);
    case Fail(w) => WorkerStepInv(cfg, s, a);
    case Retry(w) => WorkerStepInv(cfg, s, a);
    case GiveUp(w) => WorkerStepInv(cfg, s, a);
    case _ => LoopStepInv(cfg, s, a);
  }
}
