/**
  What a task's record and its waiters are left with: the error, the reason, the time, and how long
  they stand.
*/
module Outcomes {
  import opened Common
  import opened Status
  import opened Futures
  import opened Protocol
  import opened ProtocolInvariant
  import opened Lifecycle

  // ---------------------------------------------------------------- what a step writes

  /** A submitted task is pending, with no outcome of any kind, and no record but its own is touched. */
  lemma {:induction false} SubmittedIsNew(s: State, item: Queue.Item, now: real)
    requires Enabled(s, AddTask(item, now))
    ensures var s' := Apply(s, AddTask(item, now));
      && s'.tasks == s.tasks[item.id := s'.tasks[item.id]]
      && var t := s'.tasks[item.id];
         && t.status == Pending && t.completedAt == None && t.result == None && t.error == None && !t.fromCache
         && t.progress.shown == 0.0 && t.progress.current == 0.0
  {
  }

  /** A task whose execution raised ends up failed, with that error and the time its worker saw it. */
  lemma {:induction false} RaisedIsRecorded(s: State, w: nat, now: real)
    requires Enabled(s, WorkerResume(w, now)) && s.execs[s.workers[w].id].outcome.Raised?
    requires s.workers[w].id in s.tasks
    ensures var id, s' := s.workers[w].id, Resume(s, w, now);
      && id in s'.tasks && s'.tasks[id].status == Failed
      && s'.tasks[id].error == Some(s.execs[id].outcome.error) && s'.tasks[id].completedAt == Some(now)
      && s'.tasks[id].result == s.tasks[id].result && s'.tasks[id].progress == s.tasks[id].progress
      && s'.tasks[id].fromCache == s.tasks[id].fromCache
  {
  }

  /** One whose execution was cancelled before it began is cancelled, with the reason and the time. */
  lemma {:induction false} EarlyCancelIsRecorded(s: State, w: nat, now: real)
    requires Enabled(s, WorkerResume(w, now)) && s.execs[s.workers[w].id].outcome == CancelledEarly
    requires s.workers[w].id in s.tasks
    ensures var id, s' := s.workers[w].id, Resume(s, w, now);
      && id in s'.tasks && s'.tasks[id].status == Cancelled
      && s'.tasks[id].error == Some("Task cancelled during execution") && s'.tasks[id].completedAt == Some(now)
  {
  }

  /** `cancel_task` notes why and when. */
  lemma {:induction false} CancelIsRecorded(s: State, id: TaskId, now: real)
    requires Inv(s) && id in s.tasks && (s.tasks[id].status == Pending || s.tasks[id].status == Running)
    ensures var s' := Cancel(s, id, now).0;
      && id in s'.tasks && s'.tasks[id].status == Cancelled && s'.tasks[id].completedAt == Some(now)
      && s'.tasks[id].error == Some(
           if s.tasks[id].status == Pending then "Task cancelled before execution"
           else if id in s.execs && !s.execs[id].Done? then "Task execution cancelled"
           else "Task cancellation requested")
      && s'.tasks[id].result == s.tasks[id].result && s'.tasks[id].progress == s.tasks[id].progress
      && s'.tasks[id].fromCache == s.tasks[id].fromCache
  {
    assert Good(ViewOf(s, id));
  }

  /** The step ends the execution of this task with a value: one the cache has, or the function's own. */
  ghost predicate Returns(s: State, l: Label, id: TaskId, value: PyValue)
    requires Enabled(s, l)
  {
    match l
    case ExecBegin(i, hit, _) => i == id && hit == Some(value) && !s.execs[i].cancelRequested
    case ExecEnd(i, outcome, _) => i == id && outcome == Returned(value)
    case _ => false
  }

  /** A value the cache has or the function returns completes a running task, then and there; a task
      that was cancelled meanwhile keeps its outcome. */
  lemma {:induction false} ReturnIsRecorded(s: State, l: Label, id: TaskId, value: PyValue)
    requires Inv(s) && Enabled(s, l) && id in s.tasks && Returns(s, l, id, value)
    ensures var t, t' := s.tasks[id], Apply(s, l).tasks[id];
      if t.status == Cancelled then
        t'.status == Cancelled && t'.error == t.error && t'.completedAt == t.completedAt && t'.result == t.result
      else
        && t.status == Running && t'.status == Completed && t'.result == Some(value) && t'.error == t.error
        && t'.completedAt == Some(l.now) && t'.fromCache == l.ExecBegin?
  {
    assert Good(ViewOf(s, id));
  }

  // ---------------------------------------------------------------- what a waiter is told

  /** A waiter is told of the failure by the step that records it. */
  lemma {:induction false} RaisedReachesWaiter(s: State, w: nat, now: real)
    requires Enabled(s, WorkerResume(w, now)) && s.execs[s.workers[w].id].outcome.Raised?
    requires s.workers[w].id in s.tasks && s.workers[w].id in s.table.futures
    requires s.table.futures[s.workers[w].id] == Unresolved
    ensures var id, s' := s.workers[w].id, Resume(s, w, now);
      id in s'.table.futures && s'.table.futures[id] == Excepted(s.execs[id].outcome.error)
  {
  }

  lemma {:induction false} CancelReachesWaiter(s: State, id: TaskId, now: real)
    requires Inv(s) && id in s.tasks && (s.tasks[id].status == Pending || s.tasks[id].status == Running)
    requires id in s.table.futures && s.table.futures[id] == Unresolved
    ensures var s' := Cancel(s, id, now).0;
      id in s'.table.futures && s'.table.futures[id] == Excepted("Task cancelled")
  {
    assert Good(ViewOf(s, id));
  }

  /** The future says what the record says: its result, its error or reason, or nothing yet. */
  predicate Tells(f: FutureState, t: TaskRecord) {
    match t.status
    case Pending => f == Unresolved
    case Running => f == Unresolved
    case Completed => t.result.Some? && f == Resolved(t.result.value)
    case Failed => f == Excepted(if t.error.Some? && t.error.value != "" then t.error.value else "Unknown error")
    case Cancelled => f == Excepted(if t.error.Some? && t.error.value != "" then t.error.value else "Task cancelled")
  }

  /** One asked for by the first time does so as of that moment. */
  lemma {:induction false} FirstFutureTells(s: State, id: TaskId)
    requires Good(ViewOf(s, id)) && id in s.tasks && id !in s.taskFutures
    ensures id in ObtainFuture(s, id).table.futures && Tells(ObtainFuture(s, id).table.futures[id], s.tasks[id])
  {
  }

  // ---------------------------------------------------------------- and for how long

  /** Nothing can change the record any more: the task has failed or completed, or it was cancelled and
      no execution of it is about. */
  predicate Closed(s: State, id: TaskId) {
    && id in s.tasks && IsTerminal(s.tasks[id].status)
    && (s.tasks[id].status == Cancelled ==> id !in s.execs)
  }

  lemma {:induction false} StepKeepsClosed(s: State, l: Label, id: TaskId)
    requires Inv(s) && Enabled(s, l) && Closed(s, id)
    ensures id in Apply(s, l).tasks ==> Closed(Apply(s, l), id) && Apply(s, l).tasks[id] == s.tasks[id]
  {
    assert Good(ViewOf(s, id));
    match l
    case CancelTask(target, now) => CancelKeepsClosed(s, target, now, id);
    case WorkerGet(w, now) => TakeNextView(s, w, now, id);
      assert ViewOf(TakeNext(s, w, now), id) == ViewOf(s, id) ||
        ViewOf(TakeNext(s, w, now), id) == ViewOf(s, id).(inHeap := false, cancelled := false);
      SameViewSameRecord(s, TakeNext(s, w, now), id);
    case WorkerResume(w, now) => ResumeView(s, w, now, id);
      SameViewSameRecord(s, Resume(s, w, now), id);
    case ExecBegin(target, hit, now) =>
      assert id != target;
      BeginLeavesOthers(s, target, hit, now, id);
      SameViewSameRecord(s, Begin(s, target, hit, now), id);
    case ExecEnd(target, outcome, now) =>
      assert id != target;
      EndLeavesOthers(s, target, outcome, now, id);
      SameViewSameRecord(s, End(s, target, outcome, now), id);
    case _ => assert Apply(s, l).execs == s.execs;
  }

  lemma {:induction false} SameViewSameRecord(s: State, s': State, id: TaskId)
    requires Closed(s, id)
    requires ViewOf(s', id).task == ViewOf(s, id).task
    requires ViewOf(s', id).exec == ViewOf(s, id).exec || ViewOf(s', id).exec == None
    ensures Closed(s', id) && s'.tasks[id] == s.tasks[id]
  {
  }

  lemma {:induction false} CancelKeepsClosed(s: State, target: TaskId, now: real, id: TaskId)
    requires Closed(s, id)
    ensures var s' := Cancel(s, target, now).0; Closed(s', id) && s'.tasks[id] == s.tasks[id]
  {
  }

  /** Such a record stands, with its error, reason, result and time, in every run that keeps it. */
  lemma {:induction false} ClosedRecordStands(s: State, ls: seq<Label>, s': State, id: TaskId)
    requires Inv(s) && Run(s, ls, s') && Closed(s, id)
    ensures id in s'.tasks ==> s'.tasks[id] == s.tasks[id]
    decreases |ls|
  {
    if ls != [] {
      var next := Apply(s, ls[0]);
      assert Good(ViewOf(s, id));
      StepKeeps(s, ls[0]);
      StepKeepsClosed(s, ls[0], id);
      if id in next.tasks {
        ClosedRecordStands(next, ls[1..], s', id);
      } else {
        StepKeepsUsed(s, ls[0], id);
        RunKeepsGone(next, ls[1..], s', id);
      }
    }
  }

  /** The record is this one, and a future first obtained now tells it. */
  predicate StandsAs(s: State, id: TaskId, t: TaskRecord) {
    id in s.tasks ==>
      && s.tasks[id] == t
      && (id !in s.taskFutures ==>
            id in ObtainFuture(s, id).table.futures && Tells(ObtainFuture(s, id).table.futures[id], t))
  }

  lemma {:induction false} ClosedTaskStands(s: State, ls: seq<Label>, s': State, id: TaskId)
    requires Inv(s) && Run(s, ls, s') && Closed(s, id)
    ensures StandsAs(s', id, s.tasks[id])
  {
    RunKeeps(s, ls, s');
    ClosedRecordStands(s, ls, s', id);
    if id in s'.tasks && id !in s'.taskFutures {
      assert Good(ViewOf(s', id));
      FirstFutureTells(s', id);
    }
  }

  /** From the worker's report of an error on, the record has it, and so has a future first obtained at
      any later moment. */
  lemma {:induction false} FailureStands(s: State, w: nat, now: real, ls: seq<Label>, s': State)
    requires Inv(s) && Enabled(s, WorkerResume(w, now)) && s.execs[s.workers[w].id].outcome.Raised?
    requires s.workers[w].id in s.tasks && Run(Resume(s, w, now), ls, s')
    ensures exists t :: StandsAs(s', s.workers[w].id, t) && t.status == Failed && t.completedAt == Some(now) &&
              t.error == Some(s.execs[s.workers[w].id].outcome.error)
  {
    RaisedIsRecorded(s, w, now);
    StepKeeps(s, WorkerResume(w, now));
    ClosedTaskStands(Resume(s, w, now), ls, s', s.workers[w].id);
  }

  /** The same of a task cancelled while it was pending: reason and time stand, and a later future has the
      reason. */
  lemma {:induction false} PendingCancelStands(s: State, id: TaskId, now: real, ls: seq<Label>, s': State)
    requires Inv(s) && id in s.tasks && s.tasks[id].status == Pending
    requires Run(Cancel(s, id, now).0, ls, s')
    ensures exists t :: StandsAs(s', id, t) && t.status == Cancelled && t.completedAt == Some(now) &&
              t.error == Some("Task cancelled before execution")
  {
    var c := Cancel(s, id, now).0;
    CancelIsRecorded(s, id, now);
    StepKeeps(s, CancelTask(id, now));
    assert id !in c.execs by {
      assert Good(ViewOf(s, id));
      CancelSameWork(s, id, now);
    }
    ClosedTaskStands(c, ls, s', id);
  }

  /** And of a completed one: its result and the moment it was completed. */
  lemma {:induction false} ReturnStands(s: State, l: Label, id: TaskId, value: PyValue, ls: seq<Label>, s': State)
    requires Inv(s) && Enabled(s, l) && id in s.tasks && s.tasks[id].status == Running && Returns(s, l, id, value)
    requires Run(Apply(s, l), ls, s')
    ensures exists t :: StandsAs(s', id, t) && t.status == Completed && t.completedAt == Some(l.now) &&
              t.result == Some(value) && t.fromCache == l.ExecBegin?
  {
    ReturnIsRecorded(s, l, id, value);
    StepKeeps(s, l);
    ClosedTaskStands(Apply(s, l), ls, s', id);
  }

  // ---------------------------------------------------------------- waiters are not dropped

  /** A future is cancelled by whoever holds it and by no one else, and is gone only when it is collected:
      until its task ends it waits, and then it is told. */
  lemma {:induction false} OnlyHoldersDrop(s: State, l: Label, id: TaskId)
    requires Inv(s) && Enabled(s, l) && id in s.table.futures
    ensures id !in Apply(s, l).table.futures ==> l == ForgetFuture(id)
    ensures id in Apply(s, l).table.futures ==>
              Apply(s, l).table.futures[id] == Dropped && s.table.futures[id] != Dropped ==> l == DropFuture(id)
  {
    assert Good(ViewOf(s, id));
    if s.table.futures[id] != Unresolved {
      if l != ForgetFuture(id) {
        StepKeepsSettled(s, l, id);
      }
    } else if l != ForgetFuture(id) && l != DropFuture(id) {
      UnresolvedIsKept(s, l, id);
    }
  }

  lemma {:induction false} UnresolvedIsKept(s: State, l: Label, id: TaskId)
    requires Inv(s) && Enabled(s, l) && id in s.table.futures && s.table.futures[id] == Unresolved
    requires l != ForgetFuture(id) && l != DropFuture(id)
    ensures id in Apply(s, l).table.futures && Apply(s, l).table.futures[id] != Dropped
  {
    assert Good(ViewOf(s, id));
    match l
    case CancelTask(target, now) => CancelKeepsWaiter(s, target, now, id);
    case WorkerGet(w, now) => assert TakeNext(s, w, now).table == s.table;
    case WorkerResume(w, now) => ResumeView(s, w, now, id);
      assert ViewOf(Resume(s, w, now), id).future.Some? && ViewOf(Resume(s, w, now), id).future != Some(Dropped);
    case ExecBegin(_, _, _) => ExecKeepsWaiter(s, l, id);
    case ExecEnd(_, _, _) => ExecKeepsWaiter(s, l, id);
    case AddTask(_, _) => assert Apply(s, l).table == s.table;
    case _ => FutureStepsKeepWaiter(s, l, id);
  }

  lemma {:induction false} FutureStepsKeepWaiter(s: State, l: Label, id: TaskId)
    requires Good(ViewOf(s, id)) && Enabled(s, l) && id in s.table.futures && s.table.futures[id] == Unresolved
    requires l.GetTaskFuture? || l.DropFuture? || l.ForgetFuture? || l.CleanupFutures? || l.CleanupOldTasks?
    requires l != ForgetFuture(id) && l != DropFuture(id)
    ensures id in Apply(s, l).table.futures && Apply(s, l).table.futures[id] != Dropped
  {
  }

  lemma {:induction false} CancelKeepsWaiter(s: State, target: TaskId, now: real, id: TaskId)
    requires id in s.table.futures && s.table.futures[id] != Dropped
    ensures var s' := Cancel(s, target, now).0; id in s'.table.futures && s'.table.futures[id] != Dropped
  {
    if target in s.tasks && s.tasks[target].status == Running {
      assert CancelRunning(s, target).0.table == s.table;
    }
  }

  lemma {:induction false} ExecKeepsWaiter(s: State, l: Label, id: TaskId)
    requires Enabled(s, l) && (l.ExecBegin? || l.ExecEnd?) && id in s.table.futures && s.table.futures[id] != Dropped
    ensures id in Apply(s, l).table.futures && Apply(s, l).table.futures[id] != Dropped
  {
  }

  // ---------------------------------------------------------------- retention

  /** A pass drops the tasks that ended before the cutoff, and leaves every other record as it is. */
  lemma {:induction false} CleanupDropsExactly(s: State, cutoff: real, id: TaskId)
    requires id in s.tasks
    ensures var s', t := Cleanup(s, cutoff), s.tasks[id];
      && (id !in s'.tasks <==>
            (t.status == Completed || t.status == Failed || t.status == Cancelled) &&
            t.completedAt.Some? && t.completedAt.value < cutoff)
      && (id in s'.tasks ==> s'.tasks[id] == t)
      && (id in s'.table.futures <==> id in s.table.futures)
      && (id in s.table.futures ==>
            s'.table.futures[id] ==
            if id !in s'.tasks && s.table.futures[id] == Unresolved then Dropped else s.table.futures[id])
  {
  }

  /** It says how many it dropped. */
  lemma {:induction false} CleanupCounts(s: State, cutoff: real)
    ensures |Expired(s, cutoff)| == |s.tasks| - |Cleanup(s, cutoff).tasks|
  {
    WithoutSize(s.tasks, Expired(s, cutoff));
  }

  /** Some retention pass of the run has a cutoff after this moment. */
  predicate PassedOver(ls: seq<Label>, ended: real) {
    exists i | 0 <= i < |ls| :: ls[i].CleanupOldTasks? && ended < ls[i].cutoff
  }

  lemma {:induction false} PassedOverLater(ls: seq<Label>, ended: real)
    requires ls != []
    ensures PassedOver(ls, ended) <==>
      (ls[0].CleanupOldTasks? && ended < ls[0].cutoff) || PassedOver(ls[1..], ended)
  {
    if i :| 0 <= i < |ls| && ls[i].CleanupOldTasks? && ended < ls[i].cutoff {
      if i > 0 {
        assert ls[1..][i - 1] == ls[i];
      }
    }
    if i :| 0 <= i < |ls[1..]| && ls[1..][i].CleanupOldTasks? && ended < ls[1..][i].cutoff {
      assert ls[i + 1] == ls[1..][i];
    }
  }

  lemma {:induction false} OnlyCleanupDrops(s: State, l: Label, id: TaskId)
    requires Good(ViewOf(s, id)) && Enabled(s, l) && id in s.tasks && !l.CleanupOldTasks?
    ensures id in Apply(s, l).tasks
  {
    match l
    case CancelTask(target, now) => CancelKeepsRecord(s, target, now, id);
    case WorkerGet(w, now) => TakeNextView(s, w, now, id);
      assert ViewOf(TakeNext(s, w, now), id).task.Some?;
    case WorkerResume(w, now) => ResumeView(s, w, now, id);
      assert ViewOf(Resume(s, w, now), id).task.Some?;
    case _ =>
  }

  lemma {:induction false} CancelKeepsRecord(s: State, target: TaskId, now: real, id: TaskId)
    requires id in s.tasks
    ensures id in Cancel(s, target, now).0.tasks
  {
    if target in s.tasks && s.tasks[target].status == Running {
      assert CancelRunning(s, target).0.tasks == s.tasks;
    }
  }

  /** In every run the record of a task that has ended is kept, as it is, if and only if no retention pass
      has a cutoff after the moment it ended. */
  lemma {:induction false} RetainedExactly(s: State, ls: seq<Label>, s': State, id: TaskId)
    requires Inv(s) && Run(s, ls, s') && Closed(s, id) && s.tasks[id].completedAt.Some?
    ensures id in s'.tasks <==> !PassedOver(ls, s.tasks[id].completedAt.value)
    ensures id in s'.tasks ==> s'.tasks[id] == s.tasks[id]
    decreases |ls|
  {
    if ls != [] {
      var next := Apply(s, ls[0]);
      assert Good(ViewOf(s, id));
      StepKeeps(s, ls[0]);
      StepKeepsClosed(s, ls[0], id);
      PassedOverLater(ls, s.tasks[id].completedAt.value);
      if ls[0].CleanupOldTasks? {
        CleanupDropsExactly(s, ls[0].cutoff, id);
      } else {
        OnlyCleanupDrops(s, ls[0], id);
      }
      if id in next.tasks {
        RetainedExactly(next, ls[1..], s', id);
      } else {
        StepKeepsUsed(s, ls[0], id);
        RunKeepsGone(next, ls[1..], s', id);
      }
    }
  }
}
