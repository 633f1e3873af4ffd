/**
  How a pool loses its workers, and what that means for draining the queue.
*/
module PoolLoss {
  import opened Common
  import opened Status
  import opened Queue
  import opened Futures
  import opened Protocol
  import opened ProtocolInvariant
  import opened Drain

  // ---------------------------------------------------------------- counting the losses

  /** A cancellation of a running task whose execution has not begun. */
  predicate IsEarly(s: State, l: Label) {
    && l.CancelTask? && l.id in s.tasks && s.tasks[l.id].status == Running
    && l.id in s.execs && s.execs[l.id] == Created(false)
  }

  ghost function EarlyCount(s: State, ls: seq<Label>): nat
    decreases |ls|
  {
    if ls == [] || !Enabled(s, ls[0]) then 0
    else (if IsEarly(s, ls[0]) then 1 else 0) + EarlyCount(Apply(s, ls[0]), ls[1..])
  }

  function Lost(s: State): nat {
    CountAll(WorkersLost, s.workers, s.execs)
  }

  lemma {:induction false} GetLosesNone(s: State, w: nat, now: real)
    requires Inv(s) && Enabled(s, WorkerGet(w, now))
    ensures Lost(TakeNext(s, w, now)) == Lost(s)
  {
    var r := Get(s.queue, now).1;
    if r.Some? {
      var id, s' := r.value.id, TakeNext(s, w, now);
      GetUnder(s.queue, now, id);
      assert id !in s.execs by { assert Good(ViewOf(s, id)); }
      CountTaking(WorkersLost, s.workers, s.execs, w, id);
      assert s'.workers == s.workers[w := Awaiting(id)] && s'.execs == s.execs[id := Created(false)];
    }
  }

  lemma {:induction false} ExecLosesNone(s: State, l: Label)
    requires Inv(s) && Enabled(s, l) && (l.ExecBegin? || l.ExecEnd?)
    ensures Lost(Apply(s, l)) == Lost(s)
  {
    ExecSameWork(s, l);
    ExecStep(s, l);
    CountChanging(WorkersLost, s.workers, s.execs, l.id, Apply(s, l).execs[l.id]);
    ExecKeepsLoss(s, l);
  }

  lemma {:induction false} ExecKeepsLoss(s: State, l: Label)
    requires Enabled(s, l) && (l.ExecBegin? || l.ExecEnd?)
    ensures IsLost(Awaiting(l.id), Apply(s, l).execs) == IsLost(Awaiting(l.id), s.execs)
  {
  }

  lemma {:induction false} ResumeLosesNone(s: State, w: nat, now: real)
    requires Inv(s) && Enabled(s, WorkerResume(w, now))
    ensures Lost(Resume(s, w, now)) == Lost(s)
  {
    ResumeParts(s, w, now);
    CountFinishing(WorkersLost, s.workers, s.execs, w, Resume(s, w, now).workers[w]);
  }

  /** What a cancellation does to the executions. */
  lemma {:induction false} CancelExecs(s: State, id: TaskId, now: real)
    requires Good(ViewOf(s, id))
    ensures var s' := Cancel(s, id, now).0;
      if id in s.tasks && s.tasks[id].status == Running && id in s.execs && !s.execs[id].Done? then
        && (s.execs[id].Created? ==> s.execs[id] == Created(false) && s'.execs == s.execs[id := Created(true)])
        && (s.execs[id].InUser? ==> s'.execs == s.execs[id := InUser(true)])
      else s'.execs == s.execs
  {
    if id in s.tasks && s.tasks[id].status == Running {
      assert Cancel(s, id, now).0.execs == CancelRunning(s, id).0.execs;
    }
  }

  lemma {:induction false} CancelLoses(s: State, id: TaskId, now: real)
    requires Inv(s)
    ensures Lost(Cancel(s, id, now).0) == Lost(s) + if IsEarly(s, CancelTask(id, now)) then 1 else 0
  {
    assert Good(ViewOf(s, id));
    CancelExecs(s, id, now);
    CancelSameWork(s, id, now);
    if id in s.execs {
      AskingLoses(s.workers, s.execs, id);
    }
  }

  lemma {:induction false} AskingLoses(ws: seq<WorkerState>, execs: map<TaskId, ExecState>, id: TaskId)
    requires WorkersHold(ws, execs.Keys) && id in execs
    ensures execs[id] == Created(false) ==>
              CountAll(WorkersLost, ws, execs[id := Created(true)]) == CountAll(WorkersLost, ws, execs) + 1
    ensures execs[id].InUser? ==>
              CountAll(WorkersLost, ws, execs[id := InUser(true)]) == CountAll(WorkersLost, ws, execs)
  {
    CountChanging(WorkersLost, ws, execs, id, Created(true));
    CountChanging(WorkersLost, ws, execs, id, InUser(true));
  }

  /** Every step loses a worker, at once or as soon as it resumes, exactly if it is early. */
  lemma {:induction false} StepLoses(s: State, l: Label)
    requires Inv(s) && Enabled(s, l)
    ensures Lost(Apply(s, l)) == Lost(s) + if IsEarly(s, l) then 1 else 0
  {
    match l
    case CancelTask(id, now) => CancelLoses(s, id, now);
    case WorkerGet(w, now) => GetLosesNone(s, w, now);
    case WorkerResume(w, now) => ResumeLosesNone(s, w, now);
    case ExecBegin(_, _, _) => ExecLosesNone(s, l);
    case ExecEnd(_, _, _) => ExecLosesNone(s, l);
    case _ => assert Apply(s, l).execs == s.execs && Apply(s, l).workers == s.workers;
  }

  lemma {:induction false} RunLoses(s: State, ls: seq<Label>, s': State)
    requires Inv(s) && Run(s, ls, s')
    ensures Lost(s') == Lost(s) + EarlyCount(s, ls)
    decreases |ls|
  {
    if ls != [] {
      StepKeeps(s, ls[0]);
      StepLoses(s, ls[0]);
      RunLoses(Apply(s, ls[0]), ls[1..], s');
    }
  }

  lemma {:induction false} LostAtRest(workers: seq<WorkerState>)
    ensures CountAll(WorkersLost, workers, map[]) <= |workers|
    ensures (exists w :: 0 <= w < |workers| && workers[w] != Exited) <==>
              CountAll(WorkersLost, workers, map[]) < |workers|
    decreases |workers|
  {
    if workers != [] {
      LostAtRest(workers[1..]);
      if workers[0] == Exited {
        forall w | 0 <= w < |workers| && workers[w] != Exited ensures workers[1..][w - 1] != Exited {
        }
        forall w | 0 <= w < |workers[1..]| && workers[1..][w] != Exited ensures workers[w + 1] != Exited {
        }
      }
    }
  }

  lemma {:induction false} NoneLostAtFirst(n: nat)
    ensures Lost(Init(n)) == 0
  {
    CountNothing(WorkersLost, Init(n).workers, Init(n).execs);
  }

  /** When no execution is in progress, a worker is left if and only if fewer tasks than workers were
      cancelled before their executions began. */
  lemma {:induction false} AliveExactly(n: nat, ls: seq<Label>, s: State)
    requires Run(Init(n), ls, s) && s.execs == map[]
    ensures Alive(s) <==> EarlyCount(Init(n), ls) < n
  {
    InitKeeps(n);
    NoneLostAtFirst(n);
    RunKeeps(Init(n), ls, s);
    RunLoses(Init(n), ls, s);
    LostAtRest(s.workers);
  }

  // ---------------------------------------------------------------- draining

  lemma {:induction false} RestHasNoExecs(s: State)
    requires Inv(s) && !CanWork(s)
    ensures s.execs == map[]
  {
    if s.execs != map[] {
      var id :| id in s.execs;
      assert Awaiting(id) in s.workers;
      var w :| 0 <= w < |s.workers| && s.workers[w] == Awaiting(id);
      BusyWorkerCanWork(s, w);
    }
  }

  /** Take a run without submissions, after any other, that has come to rest. If fewer tasks than
      workers were cancelled early, everything is finished: the queue is joined, all records on file
      are terminal and no one is left waiting. */
  lemma {:induction false} DrainFinishesEverything(n: nat, before: seq<Label>, s: State, ls: seq<Label>, s': State)
    requires Run(Init(n), before, s) && Run(s, ls, s') && !Submits(ls) && !CanWork(s')
    requires EarlyCount(Init(n), before + ls) < n
    ensures s'.queue.unfinished == 0 && s'.queue.heap == map[] && s'.execs == map[]
    ensures forall id | id in s'.tasks :: IsTerminal(s'.tasks[id].status)
    ensures forall id :: !Waiting(s'.table, id)
    ensures WorkSteps(s, ls) <= Measure(s)
  {
    InitKeeps(n);
    RunKeeps(Init(n), before, s);
    RunKeeps(s, ls, s');
    RestHasNoExecs(s');
    RunsCompose(Init(n), before, s, ls, s');
    AliveExactly(n, before + ls, s');
    DrainIsBounded(s, ls, s');
    CanWorkExactly(s');
    DrainedExactly(s');
    DrainedIsFinished(s');
  }

  lemma {:induction false} DrainedIsFinished(s: State)
    requires Inv(s) && s.queue.heap == map[] && s.execs == map[]
    ensures forall id | id in s.tasks :: IsTerminal(s.tasks[id].status)
    ensures forall id :: !Waiting(s.table, id)
  {
    forall id ensures (id in s.tasks ==> IsTerminal(s.tasks[id].status)) && !Waiting(s.table, id) {
      assert Good(ViewOf(s, id));
    }
  }

  // ---------------------------------------------------------------- losing the whole pool

  /** Two states with the same submissions and the same entries in the heap. */
  predicate SameEntries(s: State, s': State) {
    s'.tasks.Keys == s.tasks.Keys && s'.used == s.used && s'.queue.heap == s.queue.heap
  }

  lemma {:induction false} CancelBeforeBegin(s: State, id: TaskId, now: real)
    requires id in s.tasks && s.tasks[id].status == Running && id in s.taskToWorker
    requires id in s.execs && s.execs[id] == Created(false)
    ensures var s' := Cancel(s, id, now).0;
      SameEntries(s, s') && s'.workers == s.workers && s'.execs == s.execs[id := Created(true)]
  {
    assert CancelRunning(s, id) == (s.(execs := s.execs[id := Created(true)]), true);
  }

  lemma {:induction false} LeaveAfterCancel(s: State, w: nat, id: TaskId, now: real)
    requires w < |s.workers| && s.workers[w] == Awaiting(id) && id in s.execs && s.execs[id] == Created(true)
    ensures var begun := Begin(s, id, None, now);
      && Enabled(begun, WorkerResume(w, now))
      && Resume(begun, w, now).workers == s.workers[w := Exited]
      && SameEntries(s, Resume(begun, w, now))
  {
    var begun := Begin(s, id, None, now);
    assert begun == s.(execs := s.execs[id := Done(CancelledEarly)]);
    var told := OnCancelled(begun, id, "Task cancelled during execution", now);
    assert told.tasks.Keys == s.tasks.Keys && told.workers == s.workers;
  }

  /** A cancellation that arrives before the execution's first step costs the pool a worker. */
  lemma {:induction false} EarlyCancellationLosesTheWorker(n: nat, s: State, w: nat, id: TaskId, now: real)
    requires Reachable(n, s) && w < |s.workers| && s.workers[w] == Awaiting(id)
    requires id in s.execs && s.execs[id] == Created(false) && id in s.tasks
    ensures exists s' :: Reachable(n, s') && s'.workers == s.workers[w := Exited] && SameEntries(s, s')
  {
    ReachableKeeps(n, s);
    assert Good(ViewOf(s, id));
    CancelBeforeBegin(s, id, now);
    ReachStep(n, s, CancelTask(id, now));
    LeaveAfterCancel(Cancel(s, id, now).0, w, id, now);
    ReachStep(n, Cancel(s, id, now).0, ExecBegin(id, None, now));
    ReachStep(n, Begin(Cancel(s, id, now).0, id, None, now), WorkerResume(w, now));
    assert Reachable(n, Resume(Begin(Cancel(s, id, now).0, id, None, now), w, now));
  }

  /** The first `k` workers are gone, and nothing is queued or in progress. */
  ghost predicate Lacks(n: nat, s: State, k: nat) {
    && Reachable(n, s) && k <= n
    && s.workers == seq(n, i => if i < k then Exited else Idle)
    && s.queue.heap == map[] && (forall id | id in s.used :: |id| < k)
  }

  function NewItem(k: nat): Item {
    Item(seq(k, i => 't'), Entry(0, Call("f", "", ""), None))
  }

  lemma {:induction false} NothingCancelled(n: nat, s: State)
    requires Reachable(n, s) && s.queue.heap == map[]
    ensures s.queue.cancelled == {}
  {
    ReachableKeeps(n, s);
    forall id ensures id !in s.queue.cancelled {
      assert Good(ViewOf(s, id));
    }
  }

  lemma {:induction false} NewItemIsTaken(n: nat, s: State, k: nat) returns (s': State)
    requires Lacks(n, s, k) && k < n
    ensures Reachable(n, s') && s'.workers == s.workers[k := Awaiting(NewItem(k).id)]
    ensures NewItem(k).id in s'.execs && s'.execs[NewItem(k).id] == Created(false) && NewItem(k).id in s'.tasks
    ensures s'.queue.heap == map[] && s'.used == s.used + {NewItem(k).id}
  {
    var a := NewItem(k);
    NothingCancelled(n, s);
    ReachStep(n, s, AddTask(a, 1.0));
    var added := Submit(s, a, 1.0);
    assert added.queue.heap == map[a.id := a.entry];
    OnlyEntryIsTaken(added.queue, a, 2.0);
    ReachStep(n, added, WorkerGet(k, 2.0));
    s' := TakeNext(added, k, 2.0);
  }

  /** One more task is submitted, taken, and cancelled before its execution begins. */
  lemma {:induction false} LoseOneMore(n: nat, s: State, k: nat) returns (s': State)
    requires Lacks(n, s, k) && k < n
    ensures Lacks(n, s', k + 1)
  {
    var taken := NewItemIsTaken(n, s, k);
    var id := NewItem(k).id;
    EarlyCancellationLosesTheWorker(n, taken, k, id, 3.0);
    s' :| Reachable(n, s') && s'.workers == taken.workers[k := Exited] && SameEntries(taken, s');
    assert s'.workers == seq(n, i => if i < k + 1 then Exited else Idle);
  }

  lemma {:induction false} LoseMany(n: nat, k: nat) returns (s: State)
    requires k <= n
    ensures Lacks(n, s, k)
  {
    if k == 0 {
      s := Init(n);
      assert Run(Init(n), [], s);
      assert s.workers == seq(n, i => if i < k then Exited else Idle);
    } else {
      s := LoseMany(n, k - 1);
      s := LoseOneMore(n, s, k - 1);
    }
  }

  /** The bound on early cancellations is needed, whatever the size of the pool: it can come to a state
      in which a submitted task stays pending for good. */
  lemma {:induction false} LostPoolNeverDrains(n: nat)
    ensures exists s, id ::
              Reachable(n, s) && !CanWork(s) && !Alive(s) && id in s.tasks && s.tasks[id].status == Pending
  {
    var s := LoseMany(n, n);
    var a := NewItem(n);
    ReachStep(n, s, AddTask(a, 4.0));
    var stuck := Submit(s, a, 4.0);
    ReachableKeeps(n, stuck);
    assert !Alive(stuck);
    CanWorkExactly(stuck);
    assert a.id in stuck.tasks && stuck.tasks[a.id].status == Pending;
  }
}
