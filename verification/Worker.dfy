/**
  The worker of `core.py` with its pool (`pool.py`), running in place.

  Every method here does to the objects what the protocol's step of the same name does to the
  protocol's state, so each theorem about runs of the protocol is one about these methods.
*/
module Worker {
  import opened Common
  import opened Status
  import opened Queue
  import opened Futures
  import opened Protocol
  import opened ProtocolInvariant
  import Drain

  // ---------------------------------------------------------------- the pool

  class WorkerPool {
    var workers: seq<WorkerState>
    var running: set<TaskId>
    var taskToWorker: set<TaskId>
    var execs: map<TaskId, ExecState>

    /** These are the pool's parts of a protocol state. */
    predicate Holds(s: State)
      reads this
    {
      s.workers == workers && s.running == running && s.taskToWorker == taskToWorker && s.execs == execs
    }

    constructor (maxWorkers: nat)
      ensures Holds(Init(maxWorkers))
    {
      workers, running, taskToWorker, execs := [], {}, {}, map[];
      new;
      for i := 0 to maxWorkers
        invariant workers == seq(i, j => Idle) && running == {} && taskToWorker == {} && execs == map[]
      {
        workers := workers + [Idle];
      }
    }

    method CancelRunningTask(id: TaskId, ghost s: State) returns (cancelled: bool)
      requires Holds(s)
      modifies this
      ensures Holds(CancelRunning(s, id).0) && cancelled == CancelRunning(s, id).1
    {
      if id !in taskToWorker || id !in execs {
        return false;
      }
      match execs[id] {
        case Done(_) =>
          running, taskToWorker := running - {id}, taskToWorker - {id};
          return false;
        case Created(_) =>
          execs := execs[id := Created(true)];
          return true;
        case InUser(_) =>
          execs := execs[id := InUser(true)];
          return true;
      }
    }

    method Register(w: nat, id: TaskId)
      requires w < |workers|
      modifies this
      ensures workers == old(workers)[w := Awaiting(id)] && execs == old(execs)[id := Created(false)]
      ensures running == old(running) + {id} && taskToWorker == old(taskToWorker) + {id}
    {
      execs := execs[id := Created(false)];
      running, taskToWorker := running + {id}, taskToWorker + {id};
      workers := workers[w := Awaiting(id)];
    }

    method Unregister(w: nat, id: TaskId, after: WorkerState)
      requires w < |workers|
      modifies this
      ensures workers == old(workers)[w := after] && execs == old(execs) - {id}
      ensures running == old(running) - {id} && taskToWorker == old(taskToWorker) - {id}
    {
      running, taskToWorker := running - {id}, taskToWorker - {id};
      execs := execs - {id};
      workers := workers[w := after];
    }
  }

  // ---------------------------------------------------------------- cancelling futures one by one

  lemma {:induction false} CancelFuturesOneMore(t: FutureTable, ids: set<TaskId>, id: TaskId)
    ensures CancelFutures(t, ids + {id}) == CancelFuture(CancelFutures(t, ids), id).0
  {
    DropOneMore(t.futures, ids, id);
    var once := CancelFutures(t, ids);
    assert (set other | other in ids + {id} && Waiting(t, other)) ==
      (set other | other in ids && Waiting(t, other)) + (if Waiting(t, id) then {id} else {});
  }

  method CancelEach(manager: TaskFutureManager, ids: seq<TaskId>)
    modifies manager
    ensures manager.View() == CancelFutures(old(manager.View()), set id | id in ids)
  {
    ghost var before := manager.View();
    ghost var done: set<TaskId> := {};
    assert CancelFutures(before, {}) == before;
    for i := 0 to |ids|
      invariant forall id :: id in done <==> id in ids[..i]
      invariant manager.View() == CancelFutures(before, done)
    {
      var cancelled := manager.Cancel(ids[i]);
      CancelFuturesOneMore(before, done, ids[i]);
      assert ids[..i + 1] == ids[..i] + [ids[i]];
      done := done + {ids[i]};
    }
    assert ids[..|ids|] == ids;
    assert done == set id | id in ids;
  }

  // ---------------------------------------------------------------- the worker

  class AsyncTaskWorker {
    var tasks: map<TaskId, TaskInfo>
    var taskFutures: set<TaskId>
    const queue: TaskQueue
    const futureManager: TaskFutureManager
    const pool: WorkerPool
    ghost var used: set<TaskId>

    ghost function Records(): map<TaskId, TaskRecord>
      reads this, tasks.Values, set t | t in tasks.Values :: t.strategy
    {
      map id | id in tasks :: tasks[id].View()
    }

    ghost function View(): State
      reads this, tasks.Values, set t | t in tasks.Values :: t.strategy
      reads queue, queue.stats, futureManager, pool
    {
      State(Records(), queue.View(), futureManager.View(), taskFutures, pool.running, pool.taskToWorker,
            pool.workers, pool.execs, used)
    }

    /** No record is shared by two ids. */
    ghost predicate Valid()
      reads this
    {
      forall a, b | a in tasks && b in tasks && a != b :: tasks[a] != tasks[b]
    }

    /** Changing one record changes the table of records at its id and nowhere else. */
    twostate lemma OneRecordChanged(id: TaskId)
      requires old(Valid()) && tasks == old(tasks) && id in tasks
      requires forall t: TaskInfo | t in tasks.Values && t != tasks[id] ::
                 old(allocated(t)) && t.View() == old(t.View())
      ensures Valid() && Records() == old(Records())[id := tasks[id].View()]
    {
    }

    constructor (maxWorkers: nat)
      ensures Valid() && View() == Init(maxWorkers)
      ensures fresh(queue) && fresh(queue.stats) && fresh(futureManager) && fresh(pool)
    {
      tasks, taskFutures, used := map[], {}, {};
      queue := new TaskQueue();
      futureManager := new TaskFutureManager();
      pool := new WorkerPool(maxWorkers);
    }

    // ---------------------------------------------------------------- client calls

    method AddTask(id: TaskId, entry: Entry, now: real)
      requires Valid() && id !in queue.heap
      modifies this, queue, queue.stats
      ensures Valid() && View() == Submit(old(View()), Item(id, entry), now)
      ensures id in tasks && fresh(tasks[id]) && tasks == old(tasks)[id := tasks[id]]
    {
      NewRecord(id);
      Enqueue(id, entry, now);
    }

    method NewRecord(id: TaskId)
      requires Valid()
      modifies this
      ensures Valid()
      ensures View() == old(View()).(tasks := old(Records())[id := NewTask], used := old(used) + {id})
      ensures id in tasks && fresh(tasks[id]) && tasks == old(tasks)[id := tasks[id]]
    {
      var info := new TaskInfo(DefaultThrottle);
      tasks := tasks[id := info];
      used := used + {id};
      assert Records() == old(Records())[id := NewTask];
    }

    method Enqueue(id: TaskId, entry: Entry, now: real)
      requires Valid() && id !in queue.heap
      modifies queue, queue.stats
      ensures Valid() && View() == old(View()).(queue := Put(old(queue.View()), Item(id, entry), now))
    {
      queue.PutTask(id, entry, now);
    }

    method CancelTask(id: TaskId, now: real) returns (cancelled: bool)
      requires Valid()
      modifies queue, queue.stats, futureManager, pool, if id in tasks then {tasks[id]} else {}
      ensures Valid() && (View(), cancelled) == Cancel(old(View()), id, now)
    {
      if id !in tasks {
        return false;
      }
      if IsTerminal(tasks[id].status) {
        return false;
      }
      if tasks[id].status != Running {
        CancelQueued(id, now);
      } else {
        CancelStarted(id, now);
      }
      return true;
    }

    method CancelQueued(id: TaskId, now: real)
      requires Valid() && id in tasks && !IsTerminal(tasks[id].status) && tasks[id].status != Running
      modifies queue, queue.stats, futureManager, tasks[id]
      ensures Valid() && View() == Cancel(old(View()), id, now).0
    {
      var removed := queue.RemoveTask(id);
      assert View() == old(View()).(queue := Remove(old(queue.View()), id).0);
      OnTaskCancelled(id, "Task cancelled before execution", now);
    }

    method CancelStarted(id: TaskId, now: real)
      requires Valid() && id in tasks && tasks[id].status == Running
      modifies pool, futureManager, tasks[id]
      ensures Valid() && View() == Cancel(old(View()), id, now).0
    {
      var found := pool.CancelRunningTask(id, View());
      assert View() == CancelRunning(old(View()), id).0;
      OnTaskCancelled(id, if found then "Task execution cancelled" else "Task cancellation requested", now);
    }

    /** False stands for the `KeyError` of an unknown id. */
    method GetTaskFuture(id: TaskId) returns (known: bool)
      modifies this`taskFutures, futureManager
      ensures known == (id in tasks) && View() == ObtainFuture(old(View()), id)
      ensures known && View().taskFutures == View().table.futures.Keys ==> id in View().table.futures
    {
      if id !in tasks {
        return false;
      }
      if id in taskFutures {
        return true;
      }
      ObtainNew(id);
      return true;
    }

    method ObtainNew(id: TaskId)
      requires id in tasks && id !in taskFutures
      modifies this`taskFutures, futureManager
      ensures View() == ObtainFuture(old(View()), id)
    {
      futureManager.Obtain(id);
      taskFutures := taskFutures + {id};
      var record := tasks[id].Snapshot();
      if IsTerminal(record.status) {
        futureManager.StoreFromTask(id, record);
      }
      assert Records() == old(Records());
    }

    // ---------------------------------------------------------------- callbacks

    method OnTaskStarted(id: TaskId)
      requires Valid()
      modifies if id in tasks then {tasks[id]} else {}
      ensures Valid() && View() == OnStarted(old(View()), id)
    {
      if id in tasks {
        tasks[id].Start();
        OneRecordChanged(id);
      }
    }

    method OnTaskCompleted(id: TaskId, value: PyValue, fromCache: bool, now: real)
      requires Valid()
      modifies futureManager, if id in tasks then {tasks[id]} else {}
      ensures Valid() && View() == OnCompleted(old(View()), id, value, fromCache, now)
    {
      if id in tasks {
        CompleteRecord(id, value, fromCache, now);
        futureManager.StoreResult(id, value);
      }
    }

    method CompleteRecord(id: TaskId, value: PyValue, fromCache: bool, now: real)
      requires Valid() && id in tasks
      modifies tasks[id]
      ensures Valid()
      ensures Records() ==
                old(Records())[id := MarkCompleted(old(tasks[id].View()).(fromCache := fromCache), value, now)]
    {
      tasks[id].fromCache := fromCache;
      tasks[id].Complete(value, now);
      OneRecordChanged(id);
    }

    method OnTaskFailed(id: TaskId, error: string, now: real)
      requires Valid()
      modifies futureManager, if id in tasks then {tasks[id]} else {}
      ensures Valid() && View() == OnFailed(old(View()), id, error, now)
    {
      if id in tasks {
        FailRecord(id, error, now);
        FailFuture(id, error);
      }
    }

    method FailFuture(id: TaskId, error: string)
      modifies futureManager
      ensures View() == old(View()).(table := SetException(old(futureManager.View()), id, error))
    {
      futureManager.StoreException(id, error);
    }

    method FailRecord(id: TaskId, error: string, now: real)
      requires Valid() && id in tasks
      modifies tasks[id]
      ensures Valid()
      ensures View() == old(View()).(
                tasks := old(Records())[id := MarkFailed(old(tasks[id].View()), error, now)])
    {
      tasks[id].Fail(error, now);
      OneRecordChanged(id);
    }

    method OnTaskCancelled(id: TaskId, reason: string, now: real)
      requires Valid()
      modifies futureManager, if id in tasks then {tasks[id]} else {}
      ensures Valid() && View() == OnCancelled(old(View()), id, reason, now)
    {
      if id in tasks {
        CancelRecord(id, reason, now);
        FailFuture(id, "Task cancelled");
      }
    }

    method CancelRecord(id: TaskId, reason: string, now: real)
      requires Valid() && id in tasks
      modifies tasks[id]
      ensures Valid()
      ensures View() == old(View()).(
                tasks := old(Records())[id := MarkCancelled(old(tasks[id].View()), reason, now)])
    {
      tasks[id].Cancel(reason, now);
      OneRecordChanged(id);
    }

    // ---------------------------------------------------------------- retention

    method CleanupOldTasks(cutoff: real) returns (count: nat)
      requires Valid()
      modifies this, futureManager, queue
      ensures Valid() && View() == Cleanup(old(View()), cutoff)
      ensures count == |Expired(old(View()), cutoff)|
    {
      var toRemove := FindExpired(cutoff);
      count := |toRemove|;
      DropRecords(toRemove);
      CancelWaiters(toRemove);
      ForgetMarks(toRemove);
    }

    method DropRecords(ids: seq<TaskId>)
      requires Valid()
      modifies this`tasks
      ensures Valid() && View() == old(View()).(tasks := old(Records()) - (set id | id in ids))
    {
      Forget(ids);
      assert Records() == old(Records()) - (set id | id in ids);
    }

    method CancelWaiters(ids: seq<TaskId>)
      modifies futureManager
      ensures View() == old(View()).(table := CancelFutures(old(futureManager.View()), set id | id in ids))
    {
      CancelEach(futureManager, ids);
    }

    method ForgetMarks(ids: seq<TaskId>)
      modifies queue
      ensures View() == old(View()).(queue := Clean(old(queue.View()), set id | id in ids))
    {
      queue.CleanCancelledTasks(ids);
    }

    method FindExpired(cutoff: real) returns (expired: seq<TaskId>)
      ensures View() == old(View())
      ensures (set id | id in expired) == Expired(View(), cutoff)
      ensures |expired| == |Expired(View(), cutoff)|
    {
      expired := [];
      ghost var found: set<TaskId> := {};
      var todo := tasks.Keys;
      while todo != {}
        invariant todo <= tasks.Keys
        invariant forall id :: id in found <==> id in Expired(View(), cutoff) && id !in todo
        invariant forall id :: id in found <==> id in expired
        invariant |expired| == |found|
        decreases todo
      {
        var id :| id in todo;
        var info := tasks[id];
        if IsTerminal(info.status) && info.completedAt.Some? && info.completedAt.value < cutoff {
          expired := expired + [id];
          found := found + {id};
        }
        todo := todo - {id};
      }
      assert found == Expired(View(), cutoff);
    }

    method Forget(ids: seq<TaskId>)
      modifies this`tasks
      ensures tasks == old(tasks) - (set id | id in ids)
    {
      for i := 0 to |ids|
        invariant tasks == old(tasks) - (set id | id in ids[..i])
      {
        assert ids[..i + 1] == ids[..i] + [ids[i]];
        tasks := tasks - {ids[i]};
      }
      assert ids[..|ids|] == ids;
    }

    // ---------------------------------------------------------------- the worker loop

    /** A worker's turn up to the point where it waits for the execution it has created. */
    method TakeTask(w: nat, now: real)
      requires Valid() && w < |pool.workers|
      modifies queue, queue.stats, pool, tasks.Values
      ensures Valid() && View() == TakeNext(old(View()), w, now)
    {
      var next := queue.GetValidTask(now);
      assert View() == old(View()).(queue := Get(old(queue.View()), now).0);
      if next.Some? {
        StartTask(w, next.value.id);
      }
    }

    method StartTask(w: nat, id: TaskId)
      requires Valid() && w < |pool.workers|
      modifies pool, if id in tasks then {tasks[id]} else {}
      ensures Valid()
      ensures View() == OnStarted(old(View()), id).(
                execs := old(pool.execs)[id := Created(false)],
                running := old(pool.running) + {id},
                taskToWorker := old(pool.taskToWorker) + {id},
                workers := old(pool.workers)[w := Awaiting(id)])
    {
      OnTaskStarted(id);
      pool.Register(w, id);
    }

    /** The first step of an execution, with what the cache answers. */
    method BeginExecution(id: TaskId, hit: Option<PyValue>, now: real)
      requires Valid() && id in pool.execs && pool.execs[id].Created?
      modifies pool, futureManager, if id in tasks then {tasks[id]} else {}
      ensures Valid() && View() == Begin(old(View()), id, hit, now)
    {
      if pool.execs[id].cancelRequested {
        Continue(id, Done(CancelledEarly));
      } else if hit.Some? {
        OnTaskCompleted(id, hit.value, true, now);
        Continue(id, Done(Returned(hit.value)));
      } else {
        Continue(id, InUser(false));
      }
    }

    method Continue(id: TaskId, e: ExecState)
      requires Valid()
      modifies pool
      ensures Valid() && View() == old(View()).(execs := old(pool.execs)[id := e])
    {
      pool.execs := pool.execs[id := e];
    }

    /** The user's function ends. */
    method EndExecution(id: TaskId, outcome: Outcome, now: real)
      requires Valid() && id in pool.execs && pool.execs[id].InUser?
      modifies pool, futureManager, if id in tasks then {tasks[id]} else {}
      ensures Valid() && View() == End(old(View()), id, outcome, now)
    {
      if outcome.Returned? {
        OnTaskCompleted(id, outcome.value, false, now);
      }
      Continue(id, Done(outcome));
    }

    method TellOutcome(id: TaskId, outcome: Outcome, now: real)
      requires Valid()
      modifies futureManager, if id in tasks then {tasks[id]} else {}
      ensures Valid() && View() == Tell(old(View()), id, outcome, now)
    {
      match outcome {
        case CancelledEarly => OnTaskCancelled(id, "Task cancelled during execution", now);
        case Raised(error) => OnTaskFailed(id, error, now);
        case Returned(_) =>
      }
    }

    /** The rest of the worker's turn, after the execution it waited for. */
    method FinishTask(w: nat, now: real)
      requires Valid() && w < |pool.workers| && pool.workers[w].Awaiting?
      requires pool.workers[w].id in pool.execs && pool.execs[pool.workers[w].id].Done?
      requires queue.unfinished > 0
      modifies queue, pool, futureManager, tasks.Values
      ensures Valid() && View() == Resume(old(View()), w, now)
    {
      var id := pool.workers[w].id;
      var outcome := pool.execs[id].outcome;
      TellOutcome(id, outcome, now);
      CloseTask(w, id, if outcome == CancelledEarly then Exited else Idle);
    }

    method CloseTask(w: nat, id: TaskId, after: WorkerState)
      requires Valid() && w < |pool.workers| && queue.unfinished > 0
      modifies queue, pool
      ensures Valid()
      ensures View() == old(View()).(
                running := old(pool.running) - {id},
                taskToWorker := old(pool.taskToWorker) - {id},
                execs := old(pool.execs) - {id},
                queue := TaskDone(old(queue.View())),
                workers := old(pool.workers)[w := after])
    {
      pool.Unregister(w, id, after);
      var matched := queue.MarkTaskDone();
      assert Records() == old(Records());
    }

    // ---------------------------------------------------------------- the protocol, driven

    /** The holder of a future cancels it, or the last reference to it goes away. */
    method HolderCancels(id: TaskId)
      modifies futureManager
      ensures View() == old(View()).(table := ClientCancel(old(futureManager.View()), id))
    {
      if id in futureManager.futures && futureManager.futures[id] == Unresolved {
        futureManager.futures := futureManager.futures[id := Dropped];
      }
      assert Records() == old(Records());
    }

    method FutureVanishes(id: TaskId)
      modifies this`taskFutures, futureManager
      ensures View() == old(View()).(
                table := Futures.Forget(old(futureManager.View()), id), taskFutures := old(taskFutures) - {id})
    {
      futureManager.futures := futureManager.futures - {id};
      taskFutures := taskFutures - {id};
      assert Records() == old(Records());
    }

    /** Each step of the protocol is carried out by one of the methods above. */
    method Step(l: Label)
      requires Valid() && Inv(View()) && Enabled(View(), l)
      modifies this, tasks.Values, queue, queue.stats, futureManager, pool
      ensures Valid() && View() == Apply(old(View()), l)
    {
      match l {
        case AddTask(item, now) =>
          assert Good(ViewOf(View(), item.id));
          AddTask(item.id, item.entry, now);
        case CancelTask(id, now) => var cancelled := CancelTask(id, now);
        case GetTaskFuture(id) => var known := GetTaskFuture(id);
        case DropFuture(id) => HolderCancels(id);
        case ForgetFuture(id) => FutureVanishes(id);
        case CleanupFutures => futureManager.CleanupFutures();
        case CleanupOldTasks(cutoff) => var count := CleanupOldTasks(cutoff);
        case WorkerGet(w, now) => TakeTask(w, now);
        case ExecBegin(id, hit, now) => BeginExecution(id, hit, now);
        case ExecEnd(id, outcome, now) => EndExecution(id, outcome, now);
        case WorkerResume(w, now) =>
          Drain.TaskDoneIsMatched(View(), w, now);
          FinishTask(w, now);
      }
    }
  }
}
