/**
  The queue's own size over runs of the protocol: it counts the pending tasks, less one for each entry
  that was executed after retention had forgotten it.
*/
module QueueAccounting {
  import opened Common
  import opened Status
  import opened Queue
  import opened Protocol
  import opened ProtocolInvariant

  function PendingTasks(s: State): set<TaskId> {
    set id | id in s.tasks && s.tasks[id].status == Pending
  }

  /** A worker takes an entry whose task is no longer on record. */
  ghost predicate TakesForgotten(s: State, l: Label) {
    l.WorkerGet? && Get(s.queue, l.now).1.Some? && Get(s.queue, l.now).1.value.id !in s.tasks
  }

  ghost function ForgottenCount(s: State, ls: seq<Label>): nat
    decreases |ls|
  {
    if ls == [] || !Enabled(s, ls[0]) then 0
    else (if TakesForgotten(s, ls[0]) then 1 else 0) + ForgottenCount(Apply(s, ls[0]), ls[1..])
  }

  /** How far the recorded size is off the number of queued ids. */
  function Drift(q: QueueState): int {
    q.stats.queueSize - |q.queued|
  }

  lemma {:induction false} SubmitDrift(s: State, item: Item, now: real)
    requires Good(ViewOf(s, item.id)) && item.id !in s.used
    ensures Drift(Submit(s, item, now).queue) == Drift(s.queue)
  {
    OneMoreId(s.queue.queued, item.id);
  }

  lemma {:induction false} CancelDrift(s: State, id: TaskId, now: real)
    ensures Drift(Cancel(s, id, now).0.queue) == Drift(s.queue)
  {
    OneLessId(s.queue.queued, id);
    if id in s.tasks && s.tasks[id].status == Running {
      assert Cancel(s, id, now).0.queue == CancelRunning(s, id).0.queue == s.queue;
    }
  }

  lemma {:induction false} CleanupDrift(s: State, cutoff: real)
    requires AllGood(s)
    ensures Drift(Cleanup(s, cutoff).queue) == Drift(s.queue)
  {
    forall id | id in Expired(s, cutoff) ensures id !in s.queue.queued {
      assert Good(ViewOf(s, id));
    }
    assert s.queue.queued - Expired(s, cutoff) == s.queue.queued;
  }

  lemma {:induction false} GetDrift(s: State, w: nat, now: real)
    requires AllGood(s) && w < |s.workers|
    ensures Drift(TakeNext(s, w, now).queue) == Drift(s.queue) - if TakesForgotten(s, WorkerGet(w, now)) then 1 else 0
  {
    var (q, r) := Get(s.queue, now);
    GetReturnsMin(s.queue, now);
    assert TakeNext(s, w, now).queue == q;
    if r.Some? {
      OneLessId(s.queue.queued, r.value.id);
      assert Good(ViewOf(s, r.value.id));
    } else {
      assert q.queued == s.queue.queued;
    }
  }

  /** The recorded size keeps step with the queued ids, but for a forgotten entry, which is counted down
      once when it is cancelled and again when it is taken. */
  lemma {:induction false} StepDrift(s: State, l: Label)
    requires AllGood(s) && Enabled(s, l)
    ensures Drift(Apply(s, l).queue) == Drift(s.queue) - if TakesForgotten(s, l) then 1 else 0
  {
    match l
    case AddTask(item, now) =>
      assert Good(ViewOf(s, item.id));
      SubmitDrift(s, item, now);
    case CancelTask(id, now) => CancelDrift(s, id, now);
    case CleanupOldTasks(cutoff) => CleanupDrift(s, cutoff);
    case WorkerGet(w, now) => GetDrift(s, w, now);
    case _ => OthersKeepTracking(s, l);
  }

  lemma {:induction false} OthersKeepTracking(s: State, l: Label)
    requires Enabled(s, l) && !l.AddTask? && !l.CancelTask? && !l.CleanupOldTasks? && !l.WorkerGet?
    ensures Apply(s, l).queue.stats == s.queue.stats && Apply(s, l).queue.queued == s.queue.queued
  {
  }

  lemma {:induction false} RunDrift(s: State, ls: seq<Label>, s': State)
    requires Inv(s) && Run(s, ls, s')
    ensures Drift(s'.queue) == Drift(s.queue) - ForgottenCount(s, ls)
    decreases |ls|
  {
    if ls != [] {
      StepKeeps(s, ls[0]);
      StepDrift(s, ls[0]);
      RunDrift(Apply(s, ls[0]), ls[1..], s');
    }
  }

  /** In every run the recorded size is the number of pending tasks, less the forgotten entries that
      workers have taken. */
  lemma {:induction false} QueueSizeExactly(n: nat, ls: seq<Label>, s: State)
    requires Run(Init(n), ls, s)
    ensures s.queue.stats.queueSize == |PendingTasks(s)| - ForgottenCount(Init(n), ls)
  {
    InitKeeps(n);
    RunKeeps(Init(n), ls, s);
    RunDrift(Init(n), ls, s);
    forall id ensures id in PendingTasks(s) <==> id in s.queue.queued {
      assert Good(ViewOf(s, id));
    }
    assert PendingTasks(s) == s.queue.queued;
  }
}
