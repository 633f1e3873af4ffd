/**
  The order in which the worker takes its locks, and what it buys.

  Every `async with lock:` of the source is a section here; a call is the sequence of the sections it
  enters, nested as in the source. Actors run calls and are interleaved at every lock operation, which
  is finer than `asyncio` interleaves them.
*/
module LockOrder {
  import opened Common

  datatype Lock =
    | TasksLock
    | QueueLock
    | InfoLock(id: TaskId)
    | FuturesLock
    | RunningLock
    | MapLock
    | MemoryLock
    | EventLock

  /** A lock is only ever awaited while holding locks of a smaller rank. */
  function Rank(l: Lock): nat {
    match l
    case TasksLock => 0
    case QueueLock => 1
    case InfoLock(_) => 2
    case FuturesLock => 3
    case RunningLock => 4
    case MapLock => 5
    case MemoryLock => 6
    case EventLock => 7
  }

  /** `PutItem` and `TakeItem` are `asyncio.PriorityQueue`'s own `put` and `get`; `Await` waits for
      a user's function or a future. */
  datatype Instr = Acquire(l: Lock) | Release(l: Lock) | PutItem | TakeItem | Await

  type Script = seq<Instr>

  // ---------------------------------------------------------------- the calls

  function With(l: Lock, body: Script): Script {
    [Acquire(l)] + body + [Release(l)]
  }

  function Times(n: nat, body: Script): Script {
    if n == 0 then [] else body + Times(n - 1, body)
  }

  function InTurn(parts: seq<Script>): Script {
    if parts == [] then [] else parts[0] + InTurn(parts[1..])
  }

  function MarkInfo(id: TaskId): Script { With(InfoLock(id), []) }
  function UseFutures(): Script { With(FuturesLock, []) }
  function OnStarted(id: TaskId): Script { With(TasksLock, MarkInfo(id)) }
  function OnEnded(id: TaskId): Script { With(TasksLock, MarkInfo(id) + UseFutures()) }
  function QueuePut(): Script { With(QueueLock, [PutItem]) }
  function QueueGetOnce(): Script { [TakeItem] + With(QueueLock, []) }
  function CacheAccess(): Script { With(MapLock, []) + With(MemoryLock, []) }
  function InvalidateById(): Script { CacheAccess() + With(MapLock, []) }

  datatype Call =
    | AddTask
    | ReadTasks
    | IsTaskQueued
    | CancelPending(id: TaskId)
    | CancelRunning(id: TaskId)
    | GetTaskFuture
    | PendingFutures
    | WaitForTasks(count: nat)
    | WaitForAnyTask(count: nat)
    | CleanupOldTasks(count: nat)
    | UseCache
    | KeyOfId
    | InvalidateCache(count: nat)
    | ClearCache
    | CleanupMappings(count: nat)
    | UseSubscriptions
    | PublishEvent(subscribers: nat)
    | CleanupEvents(groups: nat)
    | Stop(ids: seq<TaskId>)
    | WorkerTurn(id: TaskId, skipped: nat, hit: bool)

  function FutureOfTask(): Script { With(TasksLock, UseFutures() + UseFutures()) }

  function Adding(): Script { With(TasksLock, []) + QueuePut() }

  function CancellingPending(id: TaskId): Script {
    With(TasksLock, InTurn([With(QueueLock, []), MarkInfo(id), UseFutures()]))
  }

  function CancellingRunning(id: TaskId): Script {
    InTurn([With(TasksLock, []), With(RunningLock, []), OnEnded(id)])
  }

  function Waiting(n: nat): Script {
    InTurn([Times(n, With(TasksLock, [])), Times(n, FutureOfTask()), Times(n, [Await])])
  }

  function WaitingForAny(n: nat): Script {
    InTurn([Times(n, With(TasksLock, [])), Times(n, FutureOfTask()), [Await]])
  }

  function CleaningUp(n: nat): Script {
    InTurn([With(TasksLock, []), Times(n, UseFutures()), With(QueueLock, [])])
  }

  function Invalidating(n: nat): Script {
    InTurn([InvalidateById(), CacheAccess(), Times(n, InvalidateById())])
  }

  function ClearingCache(): Script { With(MemoryLock, []) + With(MapLock, []) }

  function CleaningMappings(n: nat): Script {
    InTurn([With(MapLock, []), Times(n, CacheAccess()), With(MapLock, [])])
  }

  function Publishing(n: nat): Script { InTurn([Times(3, With(EventLock, [])), Times(n, [Await])]) }

  function CleaningEvents(n: nat): Script { With(EventLock, []) + Times(n, With(EventLock, [])) }

  /** The cancellation callback, for each of the executions asked to stop. */
  function EndEach(ids: seq<TaskId>): Script {
    if ids == [] then [] else OnEnded(ids[0]) + EndEach(ids[1..])
  }

  function Stopping(ids: seq<TaskId>): Script {
    InTurn([[Await], UseFutures(), With(RunningLock, []), EndEach(ids), [Await], With(RunningLock, [])])
  }

  /** Mark started, register and look in the cache; after a miss, run the user's function and store
      its result. The completion or failure callback and the end of tracking follow. */
  function StartAndRun(id: TaskId, hit: bool): Script {
    InTurn([OnStarted(id), With(RunningLock, []), CacheAccess(), if hit then [] else [Await] + CacheAccess()])
  }

  function Turn(id: TaskId, skipped: nat, hit: bool): Script {
    InTurn([Times(skipped, QueueGetOnce()), QueueGetOnce(), StartAndRun(id, hit), OnEnded(id), With(RunningLock, [])])
  }

  function ScriptOf(c: Call): Script {
    match c
    case AddTask => Adding()
    case ReadTasks => With(TasksLock, [])
    case IsTaskQueued => With(QueueLock, [])
    case CancelPending(id) => CancellingPending(id)
    case CancelRunning(id) => CancellingRunning(id)
    case GetTaskFuture => FutureOfTask()
    case PendingFutures => UseFutures()
    case WaitForTasks(n) => Waiting(n)
    case WaitForAnyTask(n) => WaitingForAny(n)
    case CleanupOldTasks(n) => CleaningUp(n)
    case UseCache => CacheAccess()
    case KeyOfId => With(MapLock, [])
    case InvalidateCache(n) => Invalidating(n)
    case ClearCache => ClearingCache()
    case CleanupMappings(n) => CleaningMappings(n)
    case UseSubscriptions => With(EventLock, [])
    case PublishEvent(n) => Publishing(n)
    case CleanupEvents(n) => CleaningEvents(n)
    case Stop(ids) => Stopping(ids)
    case WorkerTurn(id, skipped, hit) => Turn(id, skipped, hit)
  }

  // ---------------------------------------------------------------- the discipline

  /** The locks held after a script that respects the order, or `None`. Nothing is awaited with a
      lock held, but for `put`, which waits under the queue lock alone. */
  function After(held: set<Lock>, script: Script): Option<set<Lock>>
    decreases |script|
  {
    if script == [] then Some(held) else
      match script[0]
      case Acquire(l) => if forall h | h in held :: Rank(h) < Rank(l) then After(held + {l}, script[1..]) else None
      case Release(l) => if l in held then After(held - {l}, script[1..]) else None
      case PutItem => if held == {QueueLock} then After(held, script[1..]) else None
      case TakeItem => if held == {} then After(held, script[1..]) else None
      case Await => if held == {} then After(held, script[1..]) else None
  }

  lemma {:induction false} AfterBoth(held: set<Lock>, a: Script, b: Script)
    requires After(held, a).Some?
    ensures After(held, a + b) == After(After(held, a).value, b)
    decreases |a|
  {
    if a == [] {
      assert a + b == b;
    } else {
      assert (a + b)[1..] == a[1..] + b;
      match a[0]
      case Acquire(l) => AfterBoth(held + {l}, a[1..], b);
      case Release(l) => AfterBoth(held - {l}, a[1..], b);
      case _ => AfterBoth(held, a[1..], b);
    }
  }

  /** A script that keeps the order and gives back what it takes. */
  predicate Keeps(held: set<Lock>, script: Script) {
    After(held, script) == Some(held)
  }

  lemma {:induction false} KeepsBoth(held: set<Lock>, a: Script, b: Script)
    requires Keeps(held, a) && Keeps(held, b)
    ensures Keeps(held, a + b)
  {
    AfterBoth(held, a, b);
  }

  lemma {:induction false} InTurnKeeps(held: set<Lock>, parts: seq<Script>)
    requires forall i | 0 <= i < |parts| :: Keeps(held, parts[i])
    ensures Keeps(held, InTurn(parts))
    decreases |parts|
  {
    if parts != [] {
      InTurnKeeps(held, parts[1..]);
      KeepsBoth(held, parts[0], InTurn(parts[1..]));
    }
  }

  lemma {:induction false} WithKeeps(held: set<Lock>, l: Lock, body: Script)
    requires forall h | h in held :: Rank(h) < Rank(l)
    requires Keeps(held + {l}, body)
    ensures Keeps(held, With(l, body))
  {
    AfterBoth(held + {l}, body, [Release(l)]);
    assert With(l, body)[1..] == body + [Release(l)];
    assert [Release(l)][1..] == [];
    assert held + {l} - {l} == held;
  }

  lemma {:induction false} EmptyWithKeeps(held: set<Lock>, l: Lock)
    requires forall h | h in held :: Rank(h) < Rank(l)
    ensures Keeps(held, With(l, []))
  {
    WithKeeps(held, l, []);
  }

  lemma {:induction false} TimesKeeps(n: nat, body: Script)
    requires Keeps({}, body)
    ensures Keeps({}, Times(n, body))
  {
    if n > 0 {
      TimesKeeps(n - 1, body);
      KeepsBoth({}, body, Times(n - 1, body));
    }
  }

  lemma {:induction false} CallbacksKeep(id: TaskId)
    ensures Keeps({}, OnStarted(id)) && Keeps({}, OnEnded(id)) && Keeps({}, FutureOfTask())
  {
    var t := {} + {TasksLock};
    EmptyWithKeeps(t, InfoLock(id));
    EmptyWithKeeps(t, FuturesLock);
    KeepsBoth(t, MarkInfo(id), UseFutures());
    KeepsBoth(t, UseFutures(), UseFutures());
    WithKeeps({}, TasksLock, MarkInfo(id));
    WithKeeps({}, TasksLock, MarkInfo(id) + UseFutures());
    WithKeeps({}, TasksLock, UseFutures() + UseFutures());
  }

  lemma {:induction false} QueueGetKeeps()
    ensures Keeps({}, QueueGetOnce())
  {
    AwaitsKeep();
    EmptyWithKeeps({}, QueueLock);
    KeepsBoth({}, [TakeItem], With(QueueLock, []));
  }

  lemma {:induction false} CacheAccessKeeps()
    ensures Keeps({}, CacheAccess())
  {
    EmptyWithKeeps({}, MapLock);
    EmptyWithKeeps({}, MemoryLock);
    KeepsBoth({}, With(MapLock, []), With(MemoryLock, []));
  }

  lemma {:induction false} AwaitsKeep()
    ensures Keeps({}, [TakeItem]) && Keeps({}, [Await]) && Keeps({QueueLock}, [PutItem])
  {
    assert [TakeItem][1..] == [] && [Await][1..] == [] && [PutItem][1..] == [];
  }

  lemma {:induction false} CancelPendingKeeps(id: TaskId)
    ensures Keeps({}, CancellingPending(id))
  {
    var t := {} + {TasksLock};
    EmptyWithKeeps(t, QueueLock);
    EmptyWithKeeps(t, InfoLock(id));
    EmptyWithKeeps(t, FuturesLock);
    var body := [With(QueueLock, []), MarkInfo(id), UseFutures()];
    InTurnKeeps(t, body);
    WithKeeps({}, TasksLock, InTurn(body));
  }

  lemma {:induction false} StartAndRunKeeps(id: TaskId, hit: bool)
    ensures Keeps({}, StartAndRun(id, hit))
  {
    CallbacksKeep(id);
    CacheAccessKeeps();
    AwaitsKeep();
    EmptyWithKeeps({}, RunningLock);
    KeepsBoth({}, [Await], CacheAccess());
    InTurnKeeps({}, [OnStarted(id), With(RunningLock, []), CacheAccess(), if hit then [] else [Await] + CacheAccess()]);
  }

  lemma {:induction false} WorkerTurnKeeps(id: TaskId, skipped: nat, hit: bool)
    ensures Keeps({}, Turn(id, skipped, hit))
  {
    CallbacksKeep(id);
    QueueGetKeeps();
    StartAndRunKeeps(id, hit);
    EmptyWithKeeps({}, RunningLock);
    TimesKeeps(skipped, QueueGetOnce());
    InTurnKeeps({},
      [Times(skipped, QueueGetOnce()), QueueGetOnce(), StartAndRun(id, hit), OnEnded(id), With(RunningLock, [])]);
  }

  lemma {:induction false} WaitKeeps(n: nat)
    ensures Keeps({}, Waiting(n))
  {
    CallbacksKeep("");
    AwaitsKeep();
    EmptyWithKeeps({}, TasksLock);
    TimesKeeps(n, With(TasksLock, []));
    TimesKeeps(n, FutureOfTask());
    TimesKeeps(n, [Await]);
    InTurnKeeps({}, [Times(n, With(TasksLock, [])), Times(n, FutureOfTask()), Times(n, [Await])]);
  }

  lemma {:induction false} CleanupOldTasksKeeps(n: nat)
    ensures Keeps({}, CleaningUp(n))
  {
    EmptyWithKeeps({}, FuturesLock);
    EmptyWithKeeps({}, TasksLock);
    EmptyWithKeeps({}, QueueLock);
    TimesKeeps(n, UseFutures());
    InTurnKeeps({}, [With(TasksLock, []), Times(n, UseFutures()), With(QueueLock, [])]);
  }

  lemma {:induction false} CleanupMappingsKeeps(n: nat)
    ensures Keeps({}, CleaningMappings(n))
  {
    CacheAccessKeeps();
    EmptyWithKeeps({}, MapLock);
    TimesKeeps(n, CacheAccess());
    InTurnKeeps({}, [With(MapLock, []), Times(n, CacheAccess()), With(MapLock, [])]);
  }

  lemma {:induction false} CancelRunningKeeps(id: TaskId)
    ensures Keeps({}, CancellingRunning(id))
  {
    CallbacksKeep(id);
    EmptyWithKeeps({}, TasksLock);
    EmptyWithKeeps({}, RunningLock);
    InTurnKeeps({}, [With(TasksLock, []), With(RunningLock, []), OnEnded(id)]);
  }

  lemma {:induction false} AddTaskKeeps()
    ensures Keeps({}, Adding())
  {
    AwaitsKeep();
    EmptyWithKeeps({}, TasksLock);
    assert {} + {QueueLock} == {QueueLock};
    WithKeeps({}, QueueLock, [PutItem]);
    KeepsBoth({}, With(TasksLock, []), QueuePut());
  }

  lemma {:induction false} WaitForAnyKeeps(n: nat)
    ensures Keeps({}, WaitingForAny(n))
  {
    CallbacksKeep("");
    AwaitsKeep();
    EmptyWithKeeps({}, TasksLock);
    TimesKeeps(n, With(TasksLock, []));
    TimesKeeps(n, FutureOfTask());
    InTurnKeeps({}, [Times(n, With(TasksLock, [])), Times(n, FutureOfTask()), [Await]]);
  }

  lemma {:induction false} InvalidateKeeps(n: nat)
    ensures Keeps({}, Invalidating(n)) && Keeps({}, ClearingCache())
  {
    CacheAccessKeeps();
    EmptyWithKeeps({}, MapLock);
    EmptyWithKeeps({}, MemoryLock);
    KeepsBoth({}, CacheAccess(), With(MapLock, []));
    KeepsBoth({}, With(MemoryLock, []), With(MapLock, []));
    TimesKeeps(n, InvalidateById());
    InTurnKeeps({}, [InvalidateById(), CacheAccess(), Times(n, InvalidateById())]);
  }

  lemma {:induction false} EventsKeep(n: nat)
    ensures Keeps({}, Publishing(n)) && Keeps({}, CleaningEvents(n))
  {
    AwaitsKeep();
    EmptyWithKeeps({}, EventLock);
    TimesKeeps(3, With(EventLock, []));
    TimesKeeps(n, With(EventLock, []));
    TimesKeeps(n, [Await]);
    InTurnKeeps({}, [Times(3, With(EventLock, [])), Times(n, [Await])]);
    KeepsBoth({}, With(EventLock, []), Times(n, With(EventLock, [])));
  }

  lemma {:induction false} EndEachKeeps(ids: seq<TaskId>)
    ensures Keeps({}, EndEach(ids))
  {
    if ids != [] {
      CallbacksKeep(ids[0]);
      EndEachKeeps(ids[1..]);
      KeepsBoth({}, OnEnded(ids[0]), EndEach(ids[1..]));
    }
  }

  lemma {:induction false} StoppingKeeps(ids: seq<TaskId>)
    ensures Keeps({}, Stopping(ids))
  {
    AwaitsKeep();
    EndEachKeeps(ids);
    EmptyWithKeeps({}, FuturesLock);
    EmptyWithKeeps({}, RunningLock);
    InTurnKeeps({}, [[Await], UseFutures(), With(RunningLock, []), EndEach(ids), [Await], With(RunningLock, [])]);
  }

  /** Every call of the source takes its locks in the one order and gives them all back. */
  lemma {:induction false} EveryCallKeepsTheOrder(c: Call)
    ensures Keeps({}, ScriptOf(c))
  {
    match c
    case AddTask => AddTaskKeeps();
    case CancelPending(id) => CancelPendingKeeps(id);
    case CancelRunning(id) => CancelRunningKeeps(id);
    case GetTaskFuture => CallbacksKeep("");
    case WaitForTasks(n) => WaitKeeps(n);
    case WaitForAnyTask(n) => WaitForAnyKeeps(n);
    case CleanupOldTasks(n) => CleanupOldTasksKeeps(n);
    case UseCache => CacheAccessKeeps();
    case InvalidateCache(n) => InvalidateKeeps(n);
    case ClearCache => InvalidateKeeps(0);
    case CleanupMappings(n) => CleanupMappingsKeeps(n);
    case PublishEvent(n) => EventsKeep(n);
    case CleanupEvents(n) => EventsKeep(n);
    case Stop(ids) => StoppingKeeps(ids);
    case WorkerTurn(id, skipped, hit) => WorkerTurnKeeps(id, skipped, hit);
    case ReadTasks => EmptyWithKeeps({}, TasksLock);
    case IsTaskQueued => EmptyWithKeeps({}, QueueLock);
    case PendingFutures => EmptyWithKeeps({}, FuturesLock);
    case KeyOfId => EmptyWithKeeps({}, MapLock);
    case UseSubscriptions => EmptyWithKeeps({}, EventLock);
  }

  // ---------------------------------------------------------------- what a script never does

  lemma {:induction false} TimesLacks(n: nat, body: Script, x: Instr)
    requires x !in body
    ensures x !in Times(n, body)
  {
    if n > 0 {
      TimesLacks(n - 1, body, x);
    }
  }

  lemma {:induction false} InTurnLacks(parts: seq<Script>, x: Instr)
    requires forall i | 0 <= i < |parts| :: x !in parts[i]
    ensures x !in InTurn(parts)
    decreases |parts|
  {
    if parts != [] {
      InTurnLacks(parts[1..], x);
    }
  }

  /** Nothing is moved into or out of the queue. */
  predicate MovesNothing(script: Script) {
    TakeItem !in script && PutItem !in script
  }

  lemma {:induction false} TimesMovesNothing(n: nat, body: Script)
    requires MovesNothing(body)
    ensures MovesNothing(Times(n, body))
  {
    TimesLacks(n, body, TakeItem);
    TimesLacks(n, body, PutItem);
  }

  lemma {:induction false} InTurnMovesNothing(parts: seq<Script>)
    requires forall i | 0 <= i < |parts| :: MovesNothing(parts[i])
    ensures MovesNothing(InTurn(parts))
  {
    InTurnLacks(parts, TakeItem);
    InTurnLacks(parts, PutItem);
  }

  lemma {:induction false} WaitsMoveNothing(n: nat)
    ensures MovesNothing(Waiting(n)) && MovesNothing(WaitingForAny(n))
  {
    TimesMovesNothing(n, With(TasksLock, []));
    TimesMovesNothing(n, FutureOfTask());
    TimesMovesNothing(n, [Await]);
    InTurnMovesNothing([Times(n, With(TasksLock, [])), Times(n, FutureOfTask()), Times(n, [Await])]);
    InTurnMovesNothing([Times(n, With(TasksLock, [])), Times(n, FutureOfTask()), [Await]]);
  }

  lemma {:induction false} CancelsMoveNothing(id: TaskId)
    ensures MovesNothing(CancellingPending(id)) && MovesNothing(CancellingRunning(id))
  {
    InTurnMovesNothing([With(QueueLock, []), MarkInfo(id), UseFutures()]);
    InTurnMovesNothing([With(TasksLock, []), With(RunningLock, []), OnEnded(id)]);
  }

  lemma {:induction false} CleanupsMoveNothing(n: nat)
    ensures MovesNothing(CleaningUp(n)) && MovesNothing(CleaningMappings(n)) && MovesNothing(CleaningEvents(n))
  {
    TimesMovesNothing(n, UseFutures());
    TimesMovesNothing(n, CacheAccess());
    TimesMovesNothing(n, With(EventLock, []));
    InTurnMovesNothing([With(TasksLock, []), Times(n, UseFutures()), With(QueueLock, [])]);
    InTurnMovesNothing([With(MapLock, []), Times(n, CacheAccess()), With(MapLock, [])]);
  }

  lemma {:induction false} InvalidatingMovesNothing(n: nat)
    ensures MovesNothing(Invalidating(n))
  {
    TimesMovesNothing(n, InvalidateById());
    InTurnMovesNothing([InvalidateById(), CacheAccess(), Times(n, InvalidateById())]);
  }

  lemma {:induction false} PublishingMovesNothing(n: nat)
    ensures MovesNothing(Publishing(n))
  {
    TimesMovesNothing(3, With(EventLock, []));
    TimesMovesNothing(n, [Await]);
    InTurnMovesNothing([Times(3, With(EventLock, [])), Times(n, [Await])]);
  }

  lemma {:induction false} EndEachMovesNothing(ids: seq<TaskId>)
    ensures MovesNothing(EndEach(ids))
  {
    if ids != [] {
      EndEachMovesNothing(ids[1..]);
    }
  }

  lemma {:induction false} StoppingMovesNothing(ids: seq<TaskId>)
    ensures MovesNothing(Stopping(ids))
  {
    EndEachMovesNothing(ids);
    InTurnMovesNothing([[Await], UseFutures(), With(RunningLock, []), EndEach(ids), [Await], With(RunningLock, [])]);
  }

  /** A client takes nothing out of the queue, and puts only right after it got the queue lock. */
  predicate ClientsRest(script: Script) {
    && TakeItem !in script
    && forall i | 0 < i < |script| && script[i] == PutItem :: script[i - 1] == Acquire(QueueLock)
  }

  lemma {:induction false} AddingPutsOnce()
    ensures ClientsRest(Adding())
  {
    assert Adding() == With(TasksLock, []) + [Acquire(QueueLock), PutItem, Release(QueueLock)];
  }

  lemma {:induction false} OtherCallsMoveNothing(c: Call)
    requires !c.WorkerTurn? && !c.AddTask?
    ensures MovesNothing(ScriptOf(c))
  {
    match c
    case CancelPending(id) => CancelsMoveNothing(id);
    case CancelRunning(id) => CancelsMoveNothing(id);
    case WaitForTasks(n) => WaitsMoveNothing(n);
    case WaitForAnyTask(n) => WaitsMoveNothing(n);
    case InvalidateCache(n) => InvalidatingMovesNothing(n);
    case PublishEvent(n) => PublishingMovesNothing(n);
    case CleanupEvents(n) => CleanupsMoveNothing(n);
    case CleanupOldTasks(n) => CleanupsMoveNothing(n);
    case CleanupMappings(n) => CleanupsMoveNothing(n);
    case Stop(ids) => StoppingMovesNothing(ids);
    case _ =>
  }

  lemma {:induction false} MovingNothingIsTheirs(script: Script)
    requires MovesNothing(script)
    ensures ClientsRest(script)
  {
    forall i | 0 < i < |script| ensures script[i] != PutItem {
      assert script[i] in script;
    }
  }

  lemma {:induction false} ClientsCallIsTheirs(c: Call)
    requires !c.WorkerTurn?
    ensures ClientsRest(ScriptOf(c))
  {
    if c.AddTask? {
      AddingPutsOnce();
    } else {
      OtherCallsMoveNothing(c);
      MovingNothingIsTheirs(ScriptOf(c));
    }
  }

  // ---------------------------------------------------------------- what a worker's turn never does

  /** A worker reaches for the queue lock only right after it has taken an item, and puts nothing. */
  predicate WorkersRest(script: Script) {
    && PutItem !in script
    && forall i | 0 < i < |script| && script[i] == Acquire(QueueLock) :: script[i - 1] == TakeItem
  }

  /** Such a script that is not in the middle of a `get`. */
  predicate WorkersPart(script: Script) {
    WorkersRest(script) && (script != [] ==> script[0] != Acquire(QueueLock))
  }

  lemma {:induction false} PartsJoin(a: Script, b: Script)
    requires WorkersPart(a) && WorkersPart(b)
    ensures WorkersPart(a + b)
  {
    var c := a + b;
    forall i | 0 < i < |c| && c[i] == Acquire(QueueLock) ensures c[i - 1] == TakeItem {
      if i < |a| {
        assert a[i] == c[i] && a[i - 1] == c[i - 1];
      } else {
        assert b[i - |a|] == c[i];
      }
    }
  }

  lemma {:induction false} TimesPart(n: nat, body: Script)
    requires WorkersPart(body)
    ensures WorkersPart(Times(n, body))
  {
    if n > 0 {
      TimesPart(n - 1, body);
      PartsJoin(body, Times(n - 1, body));
    }
  }

  lemma {:induction false} InTurnPart(parts: seq<Script>)
    requires forall i | 0 <= i < |parts| :: WorkersPart(parts[i])
    ensures WorkersPart(InTurn(parts))
    decreases |parts|
  {
    if parts != [] {
      InTurnPart(parts[1..]);
      PartsJoin(parts[0], InTurn(parts[1..]));
    }
  }

  lemma {:induction false} SectionParts(id: TaskId)
    ensures WorkersPart(OnStarted(id)) && WorkersPart(OnEnded(id)) && WorkersPart(With(RunningLock, []))
    ensures WorkersPart(CacheAccess()) && WorkersPart(QueueGetOnce()) && WorkersPart([Await])
  {
  }

  lemma {:induction false} WorkerTurnPart(id: TaskId, skipped: nat, hit: bool)
    ensures WorkersPart(Turn(id, skipped, hit))
  {
    SectionParts(id);
    PartsJoin([Await], CacheAccess());
    InTurnPart([OnStarted(id), With(RunningLock, []), CacheAccess(), if hit then [] else [Await] + CacheAccess()]);
    TimesPart(skipped, QueueGetOnce());
    InTurnPart(
      [Times(skipped, QueueGetOnce()), QueueGetOnce(), StartAndRun(id, hit), OnEnded(id), With(RunningLock, [])]);
  }

  lemma {:induction false} WorkersCallIsPart(c: Call)
    requires c.WorkerTurn?
    ensures WorkersPart(ScriptOf(c))
  {
    WorkerTurnPart(c.id, c.skipped, c.hit);
  }

  // ---------------------------------------------------------------- a worker's turn in three parts

  /** From the item to the call of the user's function, when the cache has no answer. */
  function Beginning(id: TaskId): Script {
    InTurn([With(QueueLock, []), OnStarted(id), With(RunningLock, []), CacheAccess()])
  }

  /** What a worker still has to do for its task while the user's function runs. */
  function Returning(id: TaskId): Script {
    InTurn([[Await], CacheAccess(), OnEnded(id), With(RunningLock, [])])
  }

  lemma {:induction false} InTurnJoins(xs: seq<Script>, ys: seq<Script>)
    ensures InTurn(xs + ys) == InTurn(xs) + InTurn(ys)
    decreases |xs|
  {
    if xs == [] {
      assert xs + ys == ys;
    } else {
      InTurnJoins(xs[1..], ys);
      assert (xs + ys)[1..] == xs[1..] + ys;
    }
  }

  lemma {:induction false} Nested(xs: seq<Script>, ys: seq<Script>, zs: seq<Script>)
    ensures InTurn(xs + [InTurn(ys)] + zs) == InTurn(xs + ys + zs)
  {
    InTurnJoins(xs + [InTurn(ys)], zs);
    InTurnJoins(xs, [InTurn(ys)]);
    assert [InTurn(ys)][1..] == [] && InTurn([InTurn(ys)]) == InTurn(ys) + [];
    InTurnJoins(xs + ys, zs);
    InTurnJoins(xs, ys);
  }

  lemma {:induction false} TurnSplits(id: TaskId)
    ensures Turn(id, 0, false) == [TakeItem] + Beginning(id) + Returning(id)
  {
    var take, miss := [[TakeItem], With(QueueLock, [])], [[Await], CacheAccess()];
    var begun, last := [OnStarted(id), With(RunningLock, []), CacheAccess()], [OnEnded(id), With(RunningLock, [])];
    assert InTurn(take) == QueueGetOnce() by {
      assert take[1..] == [With(QueueLock, [])] && take[1..][1..] == [];
    }
    assert InTurn(miss) == [Await] + CacheAccess() by {
      assert miss[1..] == [CacheAccess()] && miss[1..][1..] == [];
    }
    Nested(begun, miss, []);
    assert StartAndRun(id, false) == InTurn(begun + miss) by {
      assert begun + [InTurn(miss)] + [] ==
        [OnStarted(id), With(RunningLock, []), CacheAccess(), [Await] + CacheAccess()];
      assert begun + miss + [] == begun + miss;
    }
    Nested([[]], take, [StartAndRun(id, false)] + last);
    Nested([[]] + take, begun + miss, last);
    var all := [[]] + take + (begun + miss) + last;
    assert Turn(id, 0, false) == InTurn(all) by {
      assert [[]] + [InTurn(take)] + ([StartAndRun(id, false)] + last) ==
        [Times(0, QueueGetOnce()), QueueGetOnce(), StartAndRun(id, false), OnEnded(id), With(RunningLock, [])];
      assert [[]] + take + ([StartAndRun(id, false)] + last) == [[]] + take + [InTurn(begun + miss)] + last;
    }
    InThreeParts(id);
    assert all == [[], [TakeItem]] +
      [With(QueueLock, []), OnStarted(id), With(RunningLock, []), CacheAccess()] +
      [[Await], CacheAccess(), OnEnded(id), With(RunningLock, [])];
  }

  lemma {:induction false} InThreeParts(id: TaskId)
    ensures InTurn([[], [TakeItem]] +
      [With(QueueLock, []), OnStarted(id), With(RunningLock, []), CacheAccess()] +
      [[Await], CacheAccess(), OnEnded(id), With(RunningLock, [])]) == [TakeItem] + Beginning(id) + Returning(id)
  {
    var first := [[], [TakeItem]];
    var begun := [With(QueueLock, []), OnStarted(id), With(RunningLock, []), CacheAccess()];
    var last := [[Await], CacheAccess(), OnEnded(id), With(RunningLock, [])];
    InTurnJoins(first + begun, last);
    InTurnJoins(first, begun);
    assert first[1..] == [[TakeItem]] && [[TakeItem]][1..] == [];
  }

  lemma {:induction false} BeginningKeeps(id: TaskId)
    ensures Keeps({}, Beginning(id))
  {
    CallbacksKeep(id);
    CacheAccessKeeps();
    EmptyWithKeeps({}, QueueLock);
    EmptyWithKeeps({}, RunningLock);
    InTurnKeeps({}, [With(QueueLock, []), OnStarted(id), With(RunningLock, []), CacheAccess()]);
  }

  lemma {:induction false} BeginningMovesNothing(id: TaskId)
    ensures MovesNothing(Beginning(id))
  {
    InTurnMovesNothing([With(QueueLock, []), OnStarted(id), With(RunningLock, []), CacheAccess()]);
  }
}
