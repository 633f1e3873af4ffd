/**
  What holds over whole runs of the protocol: the life of a task, its future, its cancellation.
*/
module Lifecycle {
  import opened Common
  import opened Status
  import opened Futures
  import opened Protocol
  import opened ProtocolInvariant

  // ---------------------------------------------------------------- the life of a task

  /** The changes a step can make to a task's record. */
  predicate Edge(t: TaskRecord, t': TaskRecord) {
    match t.status
    case Pending => t'.status != Completed && t'.status != Failed
    case Running => t'.status != Pending
    case Completed => t'.status == Completed && t'.result == t.result
    case Failed => t'.status == Failed
    case Cancelled => t'.status == Cancelled || t'.status == Failed
  }

  /** What terminal records can turn into, in any number of steps. */
  predicate StaysTerminal(t: TaskRecord, t': TaskRecord) {
    IsTerminal(t.status) && Edge(t, t')
  }

  lemma {:induction false} StepFollowsEdge(s: State, l: Label, id: TaskId)
    requires Good(ViewOf(s, id)) && Enabled(s, l)
    requires id in s.tasks && id in Apply(s, l).tasks
    ensures Edge(s.tasks[id], Apply(s, l).tasks[id])
  {
    match l
    case CancelTask(target, now) => CancelFollowsEdge(s, target, now, id);
    case WorkerGet(w, now) => TakeNextView(s, w, now, id);
      assert ViewOf(TakeNext(s, w, now), id).task == Some(TakeNext(s, w, now).tasks[id]);
    case WorkerResume(w, now) => ResumeView(s, w, now, id);
      assert ViewOf(Resume(s, w, now), id).task == Some(Resume(s, w, now).tasks[id]);
    case ExecBegin(_, _, _) => ExecFollowsEdge(s, l, id);
    case ExecEnd(_, _, _) => ExecFollowsEdge(s, l, id);
    case _ => assert Apply(s, l).tasks[id] == s.tasks[id];
  }

  lemma {:induction false} ExecFollowsEdge(s: State, l: Label, id: TaskId)
    requires Good(ViewOf(s, id)) && Enabled(s, l) && (l.ExecBegin? || l.ExecEnd?)
    requires id in s.tasks && id in Apply(s, l).tasks
    ensures Edge(s.tasks[id], Apply(s, l).tasks[id])
  {
  }

  lemma {:induction false} CancelFollowsEdge(s: State, target: TaskId, now: real, id: TaskId)
    requires id in s.tasks && id in Cancel(s, target, now).0.tasks
    ensures Edge(s.tasks[id], Cancel(s, target, now).0.tasks[id])
  {
  }

  /** A task that retention has dropped never comes back. */
  lemma {:induction false} StepKeepsGone(s: State, l: Label, id: TaskId)
    requires Enabled(s, l) && id in s.used && id !in s.tasks
    ensures id in Apply(s, l).used && id !in Apply(s, l).tasks
  {
    if l.CancelTask? && l.id in s.tasks && s.tasks[l.id].status == Running {
      assert CancelRunning(s, l.id).0.tasks == s.tasks && CancelRunning(s, l.id).0.used == s.used;
    }
  }

  lemma {:induction false} RunKeepsGone(s: State, ls: seq<Label>, s': State, id: TaskId)
    requires Run(s, ls, s') && id in s.used && id !in s.tasks
    ensures id !in s'.tasks
    decreases |ls|
  {
    if ls != [] {
      StepKeepsGone(s, ls[0], id);
      RunKeepsGone(Apply(s, ls[0]), ls[1..], s', id);
    }
  }

  /** The terminal states are closed: no run takes a finished task back to pending or running,
      a completed task keeps its result, and the one change of label is from cancelled to failed. */
  lemma {:induction false} TerminalIsClosed(s: State, ls: seq<Label>, s': State, id: TaskId)
    requires Inv(s) && Run(s, ls, s')
    requires id in s.tasks && IsTerminal(s.tasks[id].status)
    ensures id !in s'.tasks || StaysTerminal(s.tasks[id], s'.tasks[id])
    decreases |ls|
  {
    if ls != [] {
      var next := Apply(s, ls[0]);
      assert Good(ViewOf(s, id));
      StepKeeps(s, ls[0]);
      if id in next.tasks {
        StepFollowsEdge(s, ls[0], id);
        TerminalIsClosed(next, ls[1..], s', id);
      } else {
        StepKeepsUsed(s, ls[0], id);
        RunKeepsGone(next, ls[1..], s', id);
      }
    }
  }

  lemma {:induction false} StepKeepsUsed(s: State, l: Label, id: TaskId)
    requires Enabled(s, l) && id in s.used
    ensures id in Apply(s, l).used
  {
    if l.CancelTask? && l.id in s.tasks && s.tasks[l.id].status == Running {
      assert CancelRunning(s, l.id).0.used == s.used;
    }
  }

  /** The change from cancelled to failed happens exactly when a worker resumes after an execution
      that ended with an error, which is how a cancellation the user's function saw arrives. */
  lemma {:induction false} CancelledFailsExactly(s: State, l: Label, id: TaskId)
    requires Inv(s) && Enabled(s, l) && id in s.tasks && s.tasks[id].status == Cancelled && id in Apply(s, l).tasks
    ensures Apply(s, l).tasks[id].status == Failed <==>
      l.WorkerResume? && s.workers[l.w].id == id && s.execs[id].outcome.Raised?
  {
    assert Good(ViewOf(s, id));
    match l
    case CancelTask(target, now) => CancelNeverFails(s, target, now, id);
    case WorkerGet(w, now) =>
      TakeNextView(s, w, now, id);
      assert ViewOf(TakeNext(s, w, now), id).task == Some(TakeNext(s, w, now).tasks[id]);
    case WorkerResume(w, now) => ResumeFailsExactly(s, w, now, id);
    case _ => OthersNeverFail(s, l, id);
  }

  lemma {:induction false} ResumeFailsExactly(s: State, w: nat, now: real, id: TaskId)
    requires Enabled(s, WorkerResume(w, now)) && id in s.tasks && s.tasks[id].status == Cancelled
    ensures id in Resume(s, w, now).tasks
    ensures Resume(s, w, now).tasks[id].status == Failed <==> s.workers[w].id == id && s.execs[id].outcome.Raised?
  {
    assert Resume(s, w, now).tasks == Tell(s, s.workers[w].id, s.execs[s.workers[w].id].outcome, now).tasks;
  }

  lemma {:induction false} OthersNeverFail(s: State, l: Label, id: TaskId)
    requires Enabled(s, l) && !l.CancelTask? && !l.WorkerGet? && !l.WorkerResume?
    requires id in s.tasks && s.tasks[id].status == Cancelled && id in Apply(s, l).tasks
    requires Good(ViewOf(s, id))
    ensures Apply(s, l).tasks[id].status == Cancelled
  {
  }

  lemma {:induction false} CancelNeverFails(s: State, target: TaskId, now: real, id: TaskId)
    requires id in s.tasks && s.tasks[id].status == Cancelled && id in Cancel(s, target, now).0.tasks
    ensures Cancel(s, target, now).0.tasks[id].status == Cancelled
  {
  }

  /** The task's execution is in the user's function, or has ended with an error. */
  predicate CanStillFail(s: State, id: TaskId) {
    id in s.execs && (s.execs[id].InUser? || (s.execs[id].Done? && s.execs[id].outcome.Raised?))
  }

  /** No run takes the task out of the cancelled state, short of dropping its record. */
  ghost predicate StaysCancelled(s: State, id: TaskId) {
    forall ls, s' | Run(s, ls, s') :: id in s'.tasks ==> s'.tasks[id].status == Cancelled
  }

  lemma {:induction false} StepStaysSafe(s: State, l: Label, id: TaskId)
    requires Inv(s) && Enabled(s, l)
    requires id in s.tasks && s.tasks[id].status == Cancelled && !CanStillFail(s, id)
    ensures !CanStillFail(Apply(s, l), id)
  {
    assert Good(ViewOf(s, id));
    match l
    case WorkerGet(w, now) => TakeNextView(s, w, now, id);
      assert ViewOf(TakeNext(s, w, now), id).exec == ViewOf(s, id).exec;
    case CancelTask(target, now) => CancelStaysSafe(s, target, now, id);
    case WorkerResume(w, now) => ResumeParts(s, w, now);
    case ExecBegin(_, _, _) => ExecStaysSafe(s, l, id);
    case ExecEnd(_, _, _) => ExecStaysSafe(s, l, id);
    case _ => assert Apply(s, l).execs == s.execs;
  }

  lemma {:induction false} ExecStaysSafe(s: State, l: Label, id: TaskId)
    requires Good(ViewOf(s, id)) && Enabled(s, l) && (l.ExecBegin? || l.ExecEnd?)
    requires id in s.tasks && s.tasks[id].status == Cancelled && !CanStillFail(s, id)
    ensures !CanStillFail(Apply(s, l), id)
  {
  }

  lemma {:induction false} CancelStaysSafe(s: State, target: TaskId, now: real, id: TaskId)
    requires !CanStillFail(s, id)
    ensures !CanStillFail(Cancel(s, target, now).0, id)
  {
    if target in s.tasks && s.tasks[target].status == Running {
      assert Cancel(s, target, now).0.execs == CancelRunning(s, target).0.execs;
    }
  }

  lemma {:induction false} SafeRunsStay(s: State, ls: seq<Label>, s': State, id: TaskId)
    requires Inv(s) && Run(s, ls, s')
    requires id in s.tasks && s.tasks[id].status == Cancelled && !CanStillFail(s, id)
    ensures id in s'.tasks ==> s'.tasks[id].status == Cancelled
    decreases |ls|
  {
    if ls != [] {
      var next := Apply(s, ls[0]);
      assert Good(ViewOf(s, id));
      StepKeeps(s, ls[0]);
      StepStaysSafe(s, ls[0], id);
      if id in next.tasks {
        StepFollowsEdge(s, ls[0], id);
        CancelledFailsExactly(s, ls[0], id);
        SafeRunsStay(next, ls[1..], s', id);
      } else {
        StepKeepsUsed(s, ls[0], id);
        RunKeepsGone(next, ls[1..], s', id);
      }
    }
  }

  /** The worker that awaits an execution which ended with an error marks its task failed. */
  lemma {:induction false} RaisedFails(s: State, id: TaskId) returns (ls: seq<Label>, s': State)
    requires Inv(s) && id in s.tasks && id in s.execs && s.execs[id].Done? && s.execs[id].outcome.Raised?
    ensures Run(s, ls, s') && id in s'.tasks && s'.tasks[id].status == Failed
  {
    assert Awaiting(id) in s.workers;
    var w :| 0 <= w < |s.workers| && s.workers[w] == Awaiting(id);
    s' := Resume(s, w, 0.0);
    assert Run(s', [], s');
    RunStep(s, WorkerResume(w, 0.0), [], s');
    ls := [WorkerResume(w, 0.0)] + [];
  }

  lemma {:induction false} InUserFails(s: State, id: TaskId) returns (ls: seq<Label>, s': State)
    requires Inv(s) && id in s.tasks && id in s.execs && s.execs[id].InUser?
    ensures Run(s, ls, s') && id in s'.tasks && s'.tasks[id].status == Failed
  {
    var end := ExecEnd(id, Raised("Task cancelled"), 0.0);
    StepKeeps(s, end);
    ls, s' := RaisedFails(Apply(s, end), id);
    RunStep(s, end, ls, s');
    ls := [end] + ls;
  }

  /** A cancelled task stays cancelled in every run if and only if its execution is neither in the
      user's function nor ended with an error. */
  lemma {:induction false} StaysCancelledExactly(s: State, id: TaskId)
    requires Inv(s) && id in s.tasks && s.tasks[id].status == Cancelled
    ensures StaysCancelled(s, id) <==> !CanStillFail(s, id)
  {
    if !CanStillFail(s, id) {
      forall ls, s' | Run(s, ls, s') ensures id in s'.tasks ==> s'.tasks[id].status == Cancelled {
        SafeRunsStay(s, ls, s', id);
      }
    } else if s.execs[id].InUser? {
      var ls, s' := InUserFails(s, id);
    } else {
      var ls, s' := RaisedFails(s, id);
    }
  }

  /** What a caller can know beforehand: a cancelled task stays cancelled whatever happens next if and
      only if it was pending or its execution had not taken its first step. */
  lemma {:induction false} CancelStaysExactly(s: State, id: TaskId, now: real)
    requires Inv(s) && id in s.tasks && !IsTerminal(s.tasks[id].status)
    ensures StaysCancelled(Cancel(s, id, now).0, id) <==>
      s.tasks[id].status == Pending || (id in s.execs && s.execs[id].Created?)
  {
    assert Good(ViewOf(s, id));
    StepKeeps(s, CancelTask(id, now));
    CancelThenCanFail(s, id, now);
    StaysCancelledExactly(Cancel(s, id, now).0, id);
  }

  lemma {:induction false} CancelThenCanFail(s: State, id: TaskId, now: real)
    requires Good(ViewOf(s, id)) && id in s.tasks && !IsTerminal(s.tasks[id].status)
    ensures var s' := Cancel(s, id, now).0;
      && id in s'.tasks && s'.tasks[id].status == Cancelled
      && (CanStillFail(s', id) <==> !(s.tasks[id].status == Pending || (id in s.execs && s.execs[id].Created?)))
  {
  }

  // ---------------------------------------------------------------- futures

  /** In every reachable state a waiter's future says what its task's record says: unresolved only
      while the task is unfinished, a result only of a task completed with it, an exception only of
      one that failed or was cancelled. */
  lemma {:induction false} FuturesAgreeWithTasks(n: nat, s: State, id: TaskId)
    requires Reachable(n, s) && id in s.table.futures
    ensures match s.table.futures[id]
      case Unresolved => id in s.tasks && !IsTerminal(s.tasks[id].status)
      case Resolved(v) => id in s.tasks ==> s.tasks[id].status == Completed && s.tasks[id].result == Some(v)
      case Excepted(_) => id in s.tasks ==> s.tasks[id].status == Failed || s.tasks[id].status == Cancelled
      case Dropped => true
    ensures s.taskFutures == s.table.futures.Keys
  {
    ReachableKeeps(n, s);
    assert Good(ViewOf(s, id));
    forall other ensures other in s.taskFutures <==> other in s.table.futures.Keys {
      assert Good(ViewOf(s, other));
    }
  }

  predicate Settled(s: State, id: TaskId) {
    id in s.table.futures && s.table.futures[id] != Unresolved
  }

  lemma {:induction false} StepKeepsSettled(s: State, l: Label, id: TaskId)
    requires Enabled(s, l) && Settled(s, id) && l != ForgetFuture(id)
    ensures Settled(Apply(s, l), id) && Apply(s, l).table.futures[id] == s.table.futures[id]
  {
    match l
    case CancelTask(target, now) => CancelKeepsSettled(s, target, now, id);
    case WorkerGet(w, now) => assert TakeNext(s, w, now).table == s.table;
    case WorkerResume(w, now) => ResumeView(s, w, now, id);
      assert ViewOf(Resume(s, w, now), id).future == ViewOf(s, id).future;
    case ExecBegin(_, _, _) => ExecKeepsSettled(s, l, id);
    case ExecEnd(_, _, _) => ExecKeepsSettled(s, l, id);
    case AddTask(_, _) => assert Apply(s, l).table == s.table;
    case _ => FutureStepsKeepSettled(s, l, id);
  }

  lemma {:induction false} CancelKeepsSettled(s: State, target: TaskId, now: real, id: TaskId)
    requires Settled(s, id)
    ensures Settled(Cancel(s, target, now).0, id) && Cancel(s, target, now).0.table.futures[id] == s.table.futures[id]
  {
    if target in s.tasks && s.tasks[target].status == Running {
      assert CancelRunning(s, target).0.table == s.table;
    }
  }

  lemma {:induction false} ExecKeepsSettled(s: State, l: Label, id: TaskId)
    requires Enabled(s, l) && Settled(s, id) && (l.ExecBegin? || l.ExecEnd?)
    ensures Settled(Apply(s, l), id) && Apply(s, l).table.futures[id] == s.table.futures[id]
  {
  }

  lemma {:induction false} FutureStepsKeepSettled(s: State, l: Label, id: TaskId)
    requires Enabled(s, l) && Settled(s, id) && l != ForgetFuture(id)
    requires l.GetTaskFuture? || l.DropFuture? || l.ForgetFuture? || l.CleanupFutures? || l.CleanupOldTasks?
    ensures Settled(Apply(s, l), id) && Apply(s, l).table.futures[id] == s.table.futures[id]
  {
  }

  /** No future resolves twice. */
  lemma {:induction false} FutureSettlesOnce(s: State, ls: seq<Label>, s': State, id: TaskId)
    requires Run(s, ls, s') && Settled(s, id) && ForgetFuture(id) !in ls
    ensures Settled(s', id) && s'.table.futures[id] == s.table.futures[id]
    decreases |ls|
  {
    if ls != [] {
      assert ls[0] in ls && forall l | l in ls[1..] :: l in ls;
      StepKeepsSettled(s, ls[0], id);
      FutureSettlesOnce(Apply(s, ls[0]), ls[1..], s', id);
    }
  }

  /** What a waiter reads is the task's result for good: `wait_for_tasks` may collect results one
      after the other, at different moments, and still return every task's own. */
  lemma {:induction false} WaitedResultStands(s: State, ls: seq<Label>, s': State, id: TaskId, v: PyValue)
    requires Inv(s) && Run(s, ls, s') && id in s.tasks && id in s'.tasks
    requires (s.tasks[id].status == Completed && s.tasks[id].result == Some(v)) ||
             (id in s.table.futures && s.table.futures[id] == Resolved(v))
    ensures s'.tasks[id].status == Completed && s'.tasks[id].result == Some(v)
  {
    assert Good(ViewOf(s, id));
    TerminalIsClosed(s, ls, s', id);
  }

  // ---------------------------------------------------------------- workers

  lemma {:induction false} HeldIdsBound(workers: seq<WorkerState>, ids: set<TaskId>)
    requires forall id | id in ids :: Awaiting(id) in workers
    ensures |ids| <= |workers|
    decreases |workers|
  {
    if workers == [] {
      assert forall id | id in ids :: Awaiting(id) in workers;
      assert ids == {};
    } else {
      var rest := if workers[0].Awaiting? then ids - {workers[0].id} else ids;
      forall id | id in rest ensures Awaiting(id) in workers[1..] {
        var i :| 0 <= i < |workers| && workers[i] == Awaiting(id);
        assert workers[1..][i - 1] == Awaiting(id);
      }
      HeldIdsBound(workers[1..], rest);
    }
  }

  function RunningTasks(s: State): set<TaskId> {
    set id | id in s.tasks && s.tasks[id].status == Running
  }

  predicate HeldOnce(workers: seq<WorkerState>, id: TaskId) {
    && Awaiting(id) in workers
    && forall i, j | 0 <= i < j < |workers| && workers[i] == Awaiting(id) :: workers[j] != Awaiting(id)
  }

  /** At most `max_workers` tasks are running, the pool's dictionaries agree, and what they track is
      held by exactly one worker. */
  lemma {:induction false} ConcurrencyBound(n: nat, s: State)
    requires Reachable(n, s)
    ensures |RunningTasks(s)| <= n
    ensures s.running == s.taskToWorker
    ensures forall id | id in s.running :: HeldOnce(s.workers, id)
  {
    ReachableKeeps(n, s);
    forall id ensures (id in s.running <==> id in s.taskToWorker) && (id in s.running ==> id in s.execs) &&
        (id in RunningTasks(s) ==> id in s.execs) {
      assert Good(ViewOf(s, id));
    }
    HeldIdsBound(s.workers, RunningTasks(s));
    assert forall id | id in s.running :: Awaiting(id) in s.workers;
  }

  /** A worker leaves the pool exactly when the execution it waits for was cancelled before its
      first step. */
  lemma {:induction false} WorkerExitsExactly(s: State, l: Label, w: nat)
    requires Enabled(s, l) && w < |s.workers| && s.workers[w] != Exited
    ensures |Apply(s, l).workers| == |s.workers|
    ensures Apply(s, l).workers[w] == Exited <==>
      l.WorkerResume? && l.w == w && s.execs[s.workers[w].id].outcome == CancelledEarly
  {
    StepKeepsPoolSize(s, l);
    if !l.WorkerGet? && !l.WorkerResume? && !l.AddTask? {
      OtherSameWork(s, l);
    }
  }
}
