/**
  A task cancelled while it is pending: when it can still be executed.
*/
module Cancellation {
  import opened Common
  import opened Status
  import opened Queue
  import opened Futures
  import opened Protocol
  import opened ProtocolInvariant
  import opened Lifecycle

  /** The task a step hands to a worker for execution. */
  ghost function StartedBy(s: State, l: Label): Option<TaskId> {
    if l.WorkerGet? && Get(s.queue, l.now).1.Some? then Some(Get(s.queue, l.now).1.value.id) else None
  }

  ghost predicate Starts(s: State, ls: seq<Label>, id: TaskId)
    decreases |ls|
  {
    ls != [] && Enabled(s, ls[0]) && (StartedBy(s, ls[0]) == Some(id) || Starts(Apply(s, ls[0]), ls[1..], id))
  }

  /** Somewhere in the run, retention drops the task while its entry is still in the heap. */
  ghost predicate Forgets(s: State, ls: seq<Label>, id: TaskId)
    decreases |ls|
  {
    ls != [] && Enabled(s, ls[0]) &&
    ((ls[0].CleanupOldTasks? && id in Expired(s, ls[0].cutoff) && id in s.queue.heap) ||
     Forgets(Apply(s, ls[0]), ls[1..], id))
  }

  // ---------------------------------------------------------------- what cancel_task reports

  /** `cancel_task` returns true exactly for a known unfinished task, whose record is then cancelled
      and whose waiter, if any, is told; a pending one is marked in the queue as well. */
  lemma {:induction false} CancelTaskDoes(s: State, id: TaskId, now: real)
    requires Good(ViewOf(s, id))
    ensures var (s', cancelled) := Cancel(s, id, now);
      && (cancelled <==> id in s.tasks && !IsTerminal(s.tasks[id].status))
      && (!cancelled ==> s' == s)
      && (cancelled ==>
            && id in s'.tasks && s'.tasks[id].status == Cancelled
            && !Waiting(s'.table, id)
            && (s.tasks[id].status == Pending ==> id in s'.queue.cancelled)
            && (s.tasks[id].status == Running && !s.execs[id].Done? ==>
                  id in s'.execs && s'.execs[id].cancelRequested))
  {
  }

  // ---------------------------------------------------------------- it does not run

  /** An id marked cancelled in the heap stays so until it is dropped or forgotten. */
  lemma {:induction false} StepKeepsMarked(s: State, l: Label, id: TaskId)
    requires Good(ViewOf(s, id)) && Enabled(s, l) && id in s.queue.cancelled
    requires !(l.CleanupOldTasks? && id in Expired(s, l.cutoff))
    ensures StartedBy(s, l) != Some(id)
    ensures id in Apply(s, l).queue.cancelled || id !in Apply(s, l).queue.heap
  {
    match l
    case CancelTask(target, now) => CancelKeepsMarks(s, target, now, id);
    case WorkerGet(w, now) => GetUnder(s.queue, now, id);
    case WorkerResume(w, now) => ResumeParts(s, w, now);
    case _ =>
  }

  lemma {:induction false} CancelKeepsMarks(s: State, target: TaskId, now: real, id: TaskId)
    requires id in s.queue.cancelled
    ensures id in Cancel(s, target, now).0.queue.cancelled
  {
    if target in s.tasks && s.tasks[target].status == Running {
      assert CancelRunning(s, target).0.queue == s.queue;
    }
  }

  /** An id that has left the heap never comes up again. */
  lemma {:induction false} StepKeepsOutOfHeap(s: State, l: Label, id: TaskId)
    requires Enabled(s, l) && id in s.used && id !in s.queue.heap
    ensures StartedBy(s, l) != Some(id)
    ensures id in Apply(s, l).used && id !in Apply(s, l).queue.heap
  {
    StepKeepsUsed(s, l, id);
    if l.WorkerGet? {
      GetUnder(s.queue, l.now, id);
    } else if !l.AddTask? && !l.WorkerResume? {
      OtherSameWork(s, l);
    }
  }

  lemma {:induction false} OutOfHeapNeverStarts(s: State, ls: seq<Label>, s': State, id: TaskId)
    requires Run(s, ls, s') && id in s.used && id !in s.queue.heap
    ensures !Starts(s, ls, id) && !Forgets(s, ls, id)
    decreases |ls|
  {
    if ls != [] {
      assert Run(Apply(s, ls[0]), ls[1..], s');
      StepKeepsOutOfHeap(s, ls[0], id);
      OutOfHeapNeverStarts(Apply(s, ls[0]), ls[1..], s', id);
    }
  }

  /** A cancelled entry is not executed in any run in which retention does not forget it. */
  lemma {:induction false} CancelledNeverStarts(s: State, ls: seq<Label>, s': State, id: TaskId)
    requires Inv(s) && Run(s, ls, s') && id in s.queue.cancelled
    ensures Starts(s, ls, id) ==> Forgets(s, ls, id)
    decreases |ls|
  {
    if ls != [] && !Forgets(s, ls, id) {
      var next := Apply(s, ls[0]);
      assert Run(next, ls[1..], s');
      assert Good(ViewOf(s, id));
      StepKeeps(s, ls[0]);
      StepKeepsMarked(s, ls[0], id);
      if id in next.queue.cancelled {
        CancelledNeverStarts(next, ls[1..], s', id);
      } else {
        StepKeepsUsed(s, ls[0], id);
        OutOfHeapNeverStarts(next, ls[1..], s', id);
      }
    }
  }

  // ---------------------------------------------------------------- unless it is forgotten

  /** An entry whose task is gone can only leave the heap by being executed. */
  lemma {:induction false} StepKeepsForgotten(s: State, l: Label, id: TaskId)
    requires Good(ViewOf(s, id)) && Enabled(s, l) && id in s.queue.heap && id !in s.tasks
    requires StartedBy(s, l) != Some(id)
    ensures id in Apply(s, l).queue.heap && id !in Apply(s, l).tasks
  {
    StepKeepsGone(s, l, id);
    if l.WorkerGet? {
      GetUnder(s.queue, l.now, id);
    } else if !l.AddTask? && !l.WorkerResume? {
      OtherSameWork(s, l);
    }
  }

  lemma {:induction false} ForgottenStarts(s: State, ls: seq<Label>, s': State, id: TaskId)
    requires Inv(s) && Run(s, ls, s') && id in s.queue.heap && id !in s.tasks && id !in s'.queue.heap
    ensures Starts(s, ls, id)
    decreases |ls|
  {
    assert Good(ViewOf(s, id));
    if ls != [] && StartedBy(s, ls[0]) != Some(id) {
      var next := Apply(s, ls[0]);
      assert Run(next, ls[1..], s');
      StepKeeps(s, ls[0]);
      StepKeepsForgotten(s, ls[0], id);
      ForgottenStarts(next, ls[1..], s', id);
    }
  }

  /** In a run that takes a cancelled entry out of the heap, the task is executed if and only if
      retention forgot it while the entry was still there. */
  lemma {:induction false} CancelledStartsExactly(s: State, ls: seq<Label>, s': State, id: TaskId)
    requires Inv(s) && Run(s, ls, s') && id in s.queue.cancelled && id !in s'.queue.heap
    ensures Starts(s, ls, id) <==> Forgets(s, ls, id)
    decreases |ls|
  {
    CancelledNeverStarts(s, ls, s', id);
    assert Good(ViewOf(s, id));
    if ls != [] && Forgets(s, ls, id) {
      var next := Apply(s, ls[0]);
      assert Run(next, ls[1..], s');
      StepKeeps(s, ls[0]);
      if ls[0].CleanupOldTasks? && id in Expired(s, ls[0].cutoff) {
        ForgottenStarts(next, ls[1..], s', id);
      } else {
        StepKeepsMarked(s, ls[0], id);
        if id in next.queue.cancelled {
          CancelledStartsExactly(next, ls[1..], s', id);
        } else {
          StepKeepsUsed(s, ls[0], id);
          OutOfHeapNeverStarts(next, ls[1..], s', id);
        }
      }
    }
  }

  /** After `cancel_task` returned true for a pending task, no worker ever starts it in a run in
      which retention does not drop it too early. */
  lemma {:induction false} CancelledPendingNeverRuns(s: State, id: TaskId, now: real, ls: seq<Label>, s': State)
    requires Inv(s) && id in s.tasks && s.tasks[id].status == Pending
    requires Run(Cancel(s, id, now).0, ls, s') && !Forgets(Cancel(s, id, now).0, ls, id)
    ensures Cancel(s, id, now).1 && !Starts(Cancel(s, id, now).0, ls, id)
  {
    assert Good(ViewOf(s, id));
    CancelTaskDoes(s, id, now);
    StepKeeps(s, CancelTask(id, now));
    CancelledNeverStarts(Cancel(s, id, now).0, ls, s', id);
  }
}
