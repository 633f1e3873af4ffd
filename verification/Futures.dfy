/**
  The futures clients wait on (`futures.py`).

  The dictionary of futures is weak: a future nobody holds can vanish at any moment, which is an
  operation of its own here.
*/
module Futures {
  import opened Common
  import opened Status

  /** `Dropped` is a future its holder cancelled. */
  datatype FutureState = Unresolved | Resolved(value: PyValue) | Excepted(message: string) | Dropped

  datatype FutureTable = FutureTable(futures: map<TaskId, FutureState>, pending: set<TaskId>)

  const NoFutures := FutureTable(map[], {})

  predicate Waiting(t: FutureTable, id: TaskId) {
    id in t.futures && t.futures[id] == Unresolved
  }

  function GetFuture(t: FutureTable, id: TaskId): FutureTable {
    if id in t.futures then t else FutureTable(t.futures[id := Unresolved], t.pending + {id})
  }

  /** A future that is already done keeps its first outcome. */
  function Settle(t: FutureTable, id: TaskId, outcome: FutureState): FutureTable {
    if Waiting(t, id) then FutureTable(t.futures[id := outcome], t.pending - {id}) else t
  }

  function SetResult(t: FutureTable, id: TaskId, value: PyValue): FutureTable {
    Settle(t, id, Resolved(value))
  }

  function SetException(t: FutureTable, id: TaskId, message: string): FutureTable {
    Settle(t, id, Excepted(message))
  }

  /** `error or default`: an empty message counts as none. */
  function ErrorOr(error: Option<string>, default: string): string {
    if error.None? || error.value == "" then default else error.value
  }

  function CompleteFromTaskInfo(t: FutureTable, id: TaskId, task: TaskRecord): FutureTable {
    match task.status
    case Completed => SetResult(t, id, if task.result.Some? then task.result.value else PNone)
    case Failed => SetException(t, id, ErrorOr(task.error, "Unknown error"))
    case Cancelled => SetException(t, id, ErrorOr(task.error, "Task cancelled"))
    case _ => t
  }

  function CancelFuture(t: FutureTable, id: TaskId): (FutureTable, bool) {
    (Settle(t, id, Dropped), Waiting(t, id))
  }

  function CancelAll(t: FutureTable): FutureTable {
    FutureTable(DropAll(t.futures, t.pending), {})
  }

  function DropAll(futures: map<TaskId, FutureState>, ids: set<TaskId>): map<TaskId, FutureState> {
    map id | id in futures :: if id in ids && futures[id] == Unresolved then Dropped else futures[id]
  }

  lemma {:induction false} DropOneMore(futures: map<TaskId, FutureState>, ids: set<TaskId>, id: TaskId)
    ensures DropAll(futures, ids + {id}) ==
      if id in futures && futures[id] == Unresolved then DropAll(futures, ids)[id := Dropped] else DropAll(futures, ids)
  {
  }

  /** The ids whose waiter a shutdown has to free. */
  function Waiters(t: FutureTable): set<TaskId> {
    set id | id in t.pending && Waiting(t, id)
  }

  function CleanupCompleted(t: FutureTable): FutureTable {
    t.(pending := Waiters(t))
  }

  /** The holder cancels its future directly, as a timed-out `await` does: the manager is not told. */
  function ClientCancel(t: FutureTable, id: TaskId): FutureTable {
    if Waiting(t, id) then t.(futures := t.futures[id := Dropped]) else t
  }

  /** The last reference to a future goes away. */
  function Forget(t: FutureTable, id: TaskId): FutureTable {
    t.(futures := t.futures - {id})
  }

  // ---------------------------------------------------------------- every operation

  datatype FutureOp =
    | GetOp(id: TaskId)
    | ResultOp(id: TaskId, value: PyValue)
    | ExceptionOp(id: TaskId, message: string)
    | TaskInfoOp(id: TaskId, task: TaskRecord)
    | CancelOp(id: TaskId)
    | CancelAllOp
    | CleanupOp
    | ClientCancelOp(id: TaskId)
    | ForgetOp(id: TaskId)

  function Perform(t: FutureTable, op: FutureOp): FutureTable {
    match op
    case GetOp(id) => GetFuture(t, id)
    case ResultOp(id, value) => SetResult(t, id, value)
    case ExceptionOp(id, message) => SetException(t, id, message)
    case TaskInfoOp(id, task) => CompleteFromTaskInfo(t, id, task)
    case CancelOp(id) => CancelFuture(t, id).0
    case CancelAllOp => CancelAll(t)
    case CleanupOp => CleanupCompleted(t)
    case ClientCancelOp(id) => ClientCancel(t, id)
    case ForgetOp(id) => Forget(t, id)
  }

  function PerformAll(t: FutureTable, ops: seq<FutureOp>): FutureTable
    decreases |ops|
  {
    if ops == [] then t else PerformAll(Perform(t, ops[0]), ops[1..])
  }

  /** No future someone may be waiting on is missing from the set the shutdown walks. */
  predicate PendingCovers(t: FutureTable) {
    forall id | id in t.futures && t.futures[id] == Unresolved :: id in t.pending
  }

  lemma {:induction false} PendingAlwaysCovers(t: FutureTable, ops: seq<FutureOp>)
    requires PendingCovers(t)
    ensures PendingCovers(PerformAll(t, ops))
    decreases |ops|
  {
    if ops != [] {
      PendingAlwaysCovers(Perform(t, ops[0]), ops[1..]);
    }
  }

  /** Whatever happened before, cancelling all futures leaves no one waiting. */
  lemma {:induction false} CancelAllFreesEveryWaiter(ops: seq<FutureOp>)
    ensures forall id :: !Waiting(CancelAll(PerformAll(NoFutures, ops)), id)
  {
    PendingAlwaysCovers(NoFutures, ops);
  }

  /** It forgets whom it tracked, cancels those who waited and leaves every other future as it was. */
  lemma {:induction false} CancelAllExactly(t: FutureTable, id: TaskId)
    ensures var t' := CancelAll(t);
      && t'.pending == {} && (id in t'.futures <==> id in t.futures)
      && (id in t.futures ==>
            t'.futures[id] == if id in t.pending && t.futures[id] == Unresolved then Dropped else t.futures[id])
  {
  }

  /** Cancelling answers whether someone was waiting; he is freed and no longer tracked. */
  lemma {:induction false} CancelTells(t: FutureTable, id: TaskId)
    ensures var (t', cancelled) := CancelFuture(t, id);
      && (cancelled <==> id in t.futures && t.futures[id] == Unresolved)
      && (if cancelled then t'.futures == t.futures[id := Dropped] && t'.pending == t.pending - {id} else t' == t)
  {
  }

  /** So does a holder who cancels his own future, of which the manager is not told. */
  lemma {:induction false} HolderCancels(t: FutureTable, id: TaskId)
    requires id in t.futures && t.futures[id] == Unresolved
    ensures ClientCancel(t, id).futures == t.futures[id := Dropped] && ClientCancel(t, id).pending == t.pending
  {
  }

  /** The cleanup keeps track of exactly those whose future is there and unresolved. */
  lemma {:induction false} CleanupTracksWaiters(t: FutureTable, id: TaskId)
    ensures var t' := CleanupCompleted(t);
      && t'.futures == t.futures
      && (id in t'.pending <==> id in t.pending && id in t.futures && t.futures[id] == Unresolved)
  {
  }

  /** A future settles once: until it is forgotten, its outcome never changes. */
  lemma {:induction false} SettledOnce(t: FutureTable, ops: seq<FutureOp>, id: TaskId)
    requires id in t.futures && t.futures[id] != Unresolved
    requires ForgetOp(id) !in ops
    ensures id in PerformAll(t, ops).futures && PerformAll(t, ops).futures[id] == t.futures[id]
    decreases |ops|
  {
    if ops != [] {
      assert ops[0] in ops && forall op | op in ops[1..] :: op in ops;
      SettledOnce(Perform(t, ops[0]), ops[1..], id);
    }
  }

  // ---------------------------------------------------------------- in place

  class TaskFutureManager {
    var futures: map<TaskId, FutureState>
    var pendingTasks: set<TaskId>

    function View(): FutureTable
      reads this
    {
      FutureTable(futures, pendingTasks)
    }

    constructor ()
      ensures View() == NoFutures
    {
      futures, pendingTasks := map[], {};
    }

    method Obtain(id: TaskId)
      modifies this
      ensures View() == GetFuture(old(View()), id)
      ensures id in futures
    {
      if id !in futures {
        futures := futures[id := Unresolved];
        pendingTasks := pendingTasks + {id};
      }
    }

    method StoreResult(id: TaskId, value: PyValue)
      modifies this
      ensures View() == SetResult(old(View()), id, value)
    {
      if id in futures && futures[id] == Unresolved {
        futures := futures[id := Resolved(value)];
        pendingTasks := pendingTasks - {id};
      }
    }

    method StoreException(id: TaskId, message: string)
      modifies this
      ensures View() == SetException(old(View()), id, message)
    {
      if id in futures && futures[id] == Unresolved {
        futures := futures[id := Excepted(message)];
        pendingTasks := pendingTasks - {id};
      }
    }

    method StoreFromTask(id: TaskId, task: TaskRecord)
      modifies this
      ensures View() == CompleteFromTaskInfo(old(View()), id, task)
    {
      if !IsTerminal(task.status) {
        return;
      }
      match task.status {
        case Completed => StoreResult(id, if task.result.Some? then task.result.value else PNone);
        case Failed => StoreException(id, ErrorOr(task.error, "Unknown error"));
        case Cancelled => StoreException(id, ErrorOr(task.error, "Task cancelled"));
      }
    }

    method Cancel(id: TaskId) returns (cancelled: bool)
      modifies this
      ensures (View(), cancelled) == CancelFuture(old(View()), id)
    {
      if id in futures && futures[id] == Unresolved {
        futures := futures[id := Dropped];
        pendingTasks := pendingTasks - {id};
        return true;
      }
      return false;
    }

    /** Returns how many waiters were cancelled. */
    method CancelEverything() returns (count: nat)
      modifies this
      ensures View() == CancelAll(old(View()))
      ensures count == |Waiters(old(View()))|
    {
      ghost var before := View();
      ghost var freed: set<TaskId>;
      count, freed := DropPending();
      pendingTasks := {};
    }

    /** The loop over the pending ids; `freed` are those whose future was still unresolved. */
    method DropPending() returns (count: nat, ghost freed: set<TaskId>)
      modifies this`futures
      ensures futures == DropAll(old(futures), pendingTasks)
      ensures freed == Waiters(old(View())) && count == |freed|
    {
      ghost var before := View();
      var todo := pendingTasks;
      count, freed := 0, {};
      while todo != {}
        invariant todo <= pendingTasks
        invariant futures == DropAll(before.futures, before.pending - todo)
        invariant forall id :: id in freed <==> id in Waiters(before) && id !in todo
        invariant count == |freed|
        decreases todo
      {
        var id :| id in todo;
        ghost var rest := todo - {id};
        var dropped := DropOne(id);
        DropOneMore(before.futures, before.pending - todo, id);
        assert before.pending - rest == (before.pending - todo) + {id};
        assert dropped == Waiting(before, id);
        if dropped {
          count := count + 1;
          freed := freed + {id};
        }
        todo := todo - {id};
      }
    }

    method DropOne(id: TaskId) returns (dropped: bool)
      modifies this`futures
      ensures dropped == (id in old(futures) && old(futures)[id] == Unresolved)
      ensures futures == if dropped then old(futures)[id := Dropped] else old(futures)
    {
      dropped := id in futures && futures[id] == Unresolved;
      if dropped {
        futures := futures[id := Dropped];
      }
    }

    method CleanupFutures()
      modifies this
      ensures View() == CleanupCompleted(old(View()))
    {
      var toRemove: set<TaskId> := {};
      var todo := pendingTasks;
      while todo != {}
        invariant todo <= pendingTasks
        invariant toRemove == pendingTasks - todo - Waiters(View())
        decreases todo
      {
        var id :| id in todo;
        if id !in futures || futures[id] != Unresolved {
          toRemove := toRemove + {id};
        }
        todo := todo - {id};
      }
      pendingTasks := pendingTasks - toRemove;
    }
  }
}
