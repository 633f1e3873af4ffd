/**
  Runs in which a cancelled task does not stay as its client expects.
*/
module Witnesses {
  import opened Common
  import opened Status
  import opened Queue
  import opened Protocol
  import opened ProtocolInvariant
  import opened Cancellation
  import opened PoolLoss

  lemma {:induction false} CancelledInUser(n: nat, s: State, w: nat, id: TaskId) returns (s': State)
    requires Reachable(n, s) && w < |s.workers| && s.workers[w] == Awaiting(id)
    requires id in s.execs && s.execs[id] == InUser(false) && id in s.tasks
    ensures Reachable(n, s') && s'.workers == s.workers && s'.execs == s.execs[id := InUser(true)]
    ensures id in s'.tasks && s'.tasks[id].status == Cancelled
  {
    ReachableKeeps(n, s);
    assert Good(ViewOf(s, id));
    CancelExecs(s, id, 3.0);
    CancelTaskDoes(s, id, 3.0);
    CancelSameWork(s, id, 3.0);
    ReachStep(n, s, CancelTask(id, 3.0));
    s' := Cancel(s, id, 3.0).0;
  }

  /** With any pool there is a run in which a cancelled task becomes a failed one: it is cancelled
      while its function runs, and the executor reports the cancellation as an error. */
  lemma {:induction false} CancelledCanFail(n: nat)
    requires n > 0
    ensures exists s, l, id :: Reachable(n, s) && Enabled(s, l) &&
              id in s.tasks && s.tasks[id].status == Cancelled &&
              id in Apply(s, l).tasks && Apply(s, l).tasks[id].status == Failed
  {
    var id := NewItem(0).id;
    var none := LoseMany(n, 0);
    var taken := NewItemIsTaken(n, none, 0);
    ReachStep(n, taken, ExecBegin(id, None, 2.0));
    var running := Begin(taken, id, None, 2.0);
    var cancelled := CancelledInUser(n, running, 0, id);
    var end := ExecEnd(id, Raised("Task cancelled"), 4.0);
    ReachStep(n, cancelled, end);
    var ended := Apply(cancelled, end);
    assert ended.tasks == cancelled.tasks && ended.workers == cancelled.workers;
    var resume := WorkerResume(0, 5.0);
    assert Enabled(ended, resume);
    assert Apply(ended, resume).tasks[id].status == Failed;
  }

  /** A single queued entry, cancelled at time 2. */
  lemma {:induction false} OnlyEntryCancelled(n: nat) returns (s: State, a: Item)
    ensures Reachable(n, s) && s.queue.heap == map[a.id := a.entry] && s.queue.cancelled == {a.id}
    ensures a.id in s.tasks && s.tasks[a.id].status == Cancelled && s.tasks[a.id].completedAt == Some(2.0)
    ensures s.workers == Init(n).workers
  {
    a := NewItem(0);
    var none := LoseMany(n, 0);
    assert none.workers == Init(n).workers;
    NothingCancelled(n, none);
    ReachStep(n, none, AddTask(a, 1.0));
    var added := Submit(none, a, 1.0);
    assert added.queue.heap == map[a.id := a.entry];
    ReachStep(n, added, CancelTask(a.id, 2.0));
    s := Cancel(added, a.id, 2.0).0;
    PendingIsMarked(added, a.id, 2.0);
  }

  lemma {:induction false} PendingIsMarked(s: State, id: TaskId, now: real)
    requires id in s.tasks && s.tasks[id].status == Pending && id in s.queue.queued
    ensures var s' := Cancel(s, id, now).0;
      && s'.queue.heap == s.queue.heap && s'.queue.cancelled == s.queue.cancelled + {id} && s'.workers == s.workers
      && id in s'.tasks && s'.tasks[id].status == Cancelled && s'.tasks[id].completedAt == Some(now)
  {
  }

  /** Retention drops the record, and a worker takes the entry. */
  lemma {:induction false} ForgottenEntryStarts(s: State, a: Item) returns (ls: seq<Label>, s': State)
    requires s.queue.heap == map[a.id := a.entry] && s.queue.cancelled == {a.id}
    requires a.id in s.tasks && s.tasks[a.id].status == Cancelled && s.tasks[a.id].completedAt == Some(2.0)
    requires s.workers != [] && s.workers[0] == Idle
    ensures Run(s, ls, s') && Starts(s, ls, a.id)
  {
    var clean, get := CleanupOldTasks(3.0), WorkerGet(0, 4.0);
    var cleaned := Cleanup(s, 3.0);
    assert a.id in Expired(s, 3.0);
    assert cleaned.queue.cancelled == {};
    OnlyEntryIsTaken(cleaned.queue, a, 4.0);
    s' := TakeNext(cleaned, 0, 4.0);
    RunOfTwo(s, clean, get);
    ls := [clean, get];
    StartsSecond(s, clean, get, a.id);
  }

  lemma {:induction false} RunOfTwo(s: State, l: Label, m: Label)
    requires Enabled(s, l) && Enabled(Apply(s, l), m)
    ensures Run(s, [l, m], Apply(Apply(s, l), m))
  {
    assert [l, m][1..] == [m] && [m][1..] == [];
    assert Run(Apply(s, l), [m], Apply(Apply(s, l), m));
  }

  lemma {:induction false} StartsSecond(s: State, l: Label, m: Label, id: TaskId)
    requires Enabled(s, l) && Enabled(Apply(s, l), m) && StartedBy(Apply(s, l), m) == Some(id)
    ensures Starts(s, [l, m], id)
  {
    assert [l, m][1..] == [m];
    assert Starts(Apply(s, l), [m], id);
  }

  /** With any pool there is a run that starts a task after it was cancelled while pending: retention
      drops its record, and the mark with it, before its entry comes up. */
  lemma {:induction false} CancelledCanStart(n: nat)
    requires n > 0
    ensures exists s, ls, s', id :: Reachable(n, s) && id in s.queue.cancelled && Run(s, ls, s') && Starts(s, ls, id)
  {
    var s, a := OnlyEntryCancelled(n);
    var ls, s' := ForgottenEntryStarts(s, a);
  }
}
