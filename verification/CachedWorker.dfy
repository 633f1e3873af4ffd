/**
  The pool and the executor together: what a task ends with is what its function returns.

  A joint step is a step of the pool, with the executor's own step where an execution begins or ends,
  or some other use of the cache. So nothing is free here but what the scheduler, the clock, the
  clients and the way a user's function ends choose.
*/
module CachedWorker {
  import opened Common
  import opened Status
  import opened Queue
  import opened Futures
  import opened Protocol
  import opened ProtocolInvariant
  import opened Outcomes
  import E = Executor
  import AsyncCaching
  import MemoryCache
  import WaitForTasks

  /** `asked` is what each task was submitted with. */
  datatype Joint = Joint(pool: State, executor: E.World, asked: map<TaskId, E.Request>)

  datatype Turn =
    | Submitting(item: Item, request: E.Request, now: real)
    | Pooling(l: Label)
    | Beginning(id: TaskId, now: real)
    | Ending(id: TaskId, outcome: E.UserOutcome, now: real, stamp: real)
    | Caching(op: AsyncCaching.CacheOp)

  function Start(n: nat, config: AsyncCaching.Config, maxSize: Option<int>): Joint {
    Joint(Init(n), E.Fresh(config, maxSize), map[])
  }

  /** `str()` of the executor's errors. */
  function Described(id: TaskId, category: string, message: string): string {
    "Task " + id + ": [ErrorCategory." + category + "] " + message
  }

  /** What the pool sees of the executor's result. */
  function OutcomeOf(id: TaskId, r: E.ExecResult): Outcome {
    match r
    case Value(v) => Returned(v)
    case TaskExecutionError(message) => Raised(Described(id, "TASK_EXECUTION", "Task execution failed: " + message))
    case TaskCancellationError => Raised(Described(id, "CANCELLATION", "Task cancelled"))
    case TaskTimeoutError(limit) => Raised(Described(id, "TIMEOUT", "Task timed out after " + limit + " seconds"))
  }

  /** The answer of the cache, if an execution that began ended with it. */
  function HitOf(w: E.World, id: TaskId): Option<PyValue> {
    if id in w.results && w.results[id].Value? then Some(w.results[id].value) else None
  }

  /** The executor after the first step of an execution; one cancelled before never gets there. */
  function Looked(p: E.Program, j: Joint, id: TaskId, now: real): E.World
    requires id in j.pool.execs && j.pool.execs[id].Created? && id in j.asked
  {
    if j.pool.execs[id].cancelRequested then j.executor else E.Look(p, j.executor, id, j.asked[id], now)
  }

  ghost predicate CanTurn(j: Joint, t: Turn) {
    match t
    case Submitting(item, request, now) =>
      Enabled(j.pool, AddTask(item, now)) && request.task == item.id && request.call == item.entry.call
    case Pooling(l) => !l.AddTask? && !l.ExecBegin? && !l.ExecEnd? && Enabled(j.pool, l)
    case Beginning(id, _) => id in j.pool.execs && j.pool.execs[id].Created? && id in j.asked
    case Ending(id, _, _, _) => id in j.pool.execs && j.pool.execs[id].InUser? && id in j.executor.flights
    case Caching(op) => E.Enabled(j.executor, E.Label.Other(op))
  }

  /** The pool's part of a step. */
  ghost function PoolLabels(p: E.Program, j: Joint, t: Turn): seq<Label>
    requires CanTurn(j, t)
  {
    match t
    case Submitting(item, _, now) => [AddTask(item, now)]
    case Pooling(l) => [l]
    case Beginning(id, now) => [ExecBegin(id, HitOf(Looked(p, j, id, now), id), now)]
    case Ending(id, outcome, now, stamp) =>
      [ExecEnd(id, OutcomeOf(id, E.Land(p, j.executor, id, outcome, now, stamp).results[id]), now)]
    case Caching(_) => []
  }

  /** The executor's part of a step. */
  ghost function ExecutorLabels(j: Joint, t: Turn): seq<E.Label>
    requires CanTurn(j, t)
  {
    match t
    case Beginning(id, now) =>
      if j.pool.execs[id].cancelRequested then [] else [E.Label.Begin(id, j.asked[id], now)]
    case Ending(id, outcome, now, stamp) => [E.Label.End(id, outcome, now, stamp)]
    case Caching(op) => [E.Label.Other(op)]
    case _ => []
  }

  ghost function TakeTurn(p: E.Program, j: Joint, t: Turn): Joint
    requires CanTurn(j, t)
  {
    match t
    case Submitting(item, request, now) =>
      Joint(Apply(j.pool, AddTask(item, now)), j.executor, j.asked[item.id := request])
    case Pooling(l) => j.(pool := Apply(j.pool, l))
    case Beginning(id, now) =>
      var w := Looked(p, j, id, now);
      j.(pool := Begin(j.pool, id, HitOf(w, id), now), executor := w)
    case Ending(id, outcome, now, stamp) =>
      var w := E.Land(p, j.executor, id, outcome, now, stamp);
      j.(pool := End(j.pool, id, OutcomeOf(id, w.results[id]), now), executor := w)
    case Caching(op) => j.(executor := E.Apply(p, j.executor, E.Label.Other(op)))
  }

  ghost predicate Runs(p: E.Program, j: Joint, ts: seq<Turn>, j': Joint)
    decreases |ts|
  {
    if ts == [] then j == j' else CanTurn(j, ts[0]) && Runs(p, TakeTurn(p, j, ts[0]), ts[1..], j')
  }

  // ---------------------------------------------------------------- what links the two

  /** The execution under this id has ended with this value. */
  predicate Gave(w: E.World, id: TaskId, value: PyValue) {
    id in w.requests && id in w.results && w.results[id] == E.Value(value)
  }

  predicate IsCreated(v: IdView) { v.exec.Some? && v.exec.value.Created? }
  predicate IsInUser(v: IdView) { v.exec.Some? && v.exec.value.InUser? }

  predicate ExecReturned(e: ExecState, value: PyValue) {
    e.Done? && e.outcome.Returned? && e.outcome.value == value
  }

  predicate RecordHolds(task: TaskRecord, value: PyValue) {
    task.status == Completed && task.result == Some(value)
  }

  predicate FutureHolds(f: FutureState, value: PyValue) {
    f.Resolved? && f.value == value
  }

  /** Something under the id holds this value: an execution that returned, a completed record or a
      resolved future. */
  predicate Holds(v: IdView, value: PyValue) {
    || (v.exec.Some? && ExecReturned(v.exec.value, value))
    || (v.task.Some? && RecordHolds(v.task.value, value))
    || (v.future.Some? && FutureHolds(v.future.value, value))
  }

  /** The executor is running exactly the executions that are in the user's function, knows only tasks
      that have left the queue, under what they were submitted with, and has given every value the
      pool holds. */
  ghost predicate Linked(v: IdView, w: E.World, asked: map<TaskId, E.Request>, id: TaskId) {
    && (v.used <==> id in asked)
    && (id in w.flights <==> IsInUser(v))
    && (id in w.requests ==> v.used && !v.inHeap && !IsCreated(v) && w.requests[id] == asked[id])
    && (forall value | Holds(v, value) :: Gave(w, id, value))
  }

  /** What a step of the pool alone changes under an id, as far as the executor cares. */
  predicate Quiet(v: IdView, v': IdView) {
    && v'.used == v.used
    && (IsInUser(v') <==> IsInUser(v))
    && (IsCreated(v') ==> IsCreated(v) || v.inHeap)
    && (v'.inHeap ==> v.inHeap)
  }

  ghost predicate NothingNew(v: IdView, v': IdView) {
    forall value | Holds(v', value) :: Holds(v, value)
  }

  lemma {:induction false} CancelledViewIsQuiet(v: IdView, reason: string, now: real)
    ensures Quiet(v, CancelledView(v, reason, now))
  {
  }

  lemma {:induction false} CancelledViewIsNotNew(v: IdView, reason: string, now: real)
    ensures NothingNew(v, CancelledView(v, reason, now))
  {
  }

  lemma {:induction false} QuietTwice(v: IdView, mid: IdView, v': IdView)
    requires Quiet(v, mid) && Quiet(mid, v') && NothingNew(v, mid) && NothingNew(mid, v')
    ensures Quiet(v, v') && NothingNew(v, v')
  {
  }

  lemma {:induction false} CancelRunningIsQuiet(s: State, target: TaskId, now: real, id: TaskId)
    requires Good(ViewOf(s, id)) && target in s.tasks && s.tasks[target].status == Running
    ensures Quiet(ViewOf(s, id), ViewOf(Cancel(s, target, now).0, id))
    ensures NothingNew(ViewOf(s, id), ViewOf(Cancel(s, target, now).0, id))
  {
    var (asked, found) := CancelRunning(s, target);
    var reason := if found then "Task execution cancelled" else "Task cancellation requested";
    CancelRunningView(s, target, id);
    OnCancelledView(asked, target, reason, now, id);
    CancelledViewIsQuiet(ViewOf(asked, id), reason, now);
    CancelledViewIsNotNew(ViewOf(asked, id), reason, now);
    assert Cancel(s, target, now).0 == OnCancelled(asked, target, reason, now);
    QuietTwice(ViewOf(s, id), ViewOf(asked, id), ViewOf(Cancel(s, target, now).0, id));
  }

  lemma {:induction false} RemovingIsQuiet(s: State, target: TaskId, id: TaskId)
    ensures var s' := s.(queue := Remove(s.queue, target).0);
      Quiet(ViewOf(s, id), ViewOf(s', id)) && NothingNew(ViewOf(s, id), ViewOf(s', id))
  {
  }

  lemma {:induction false} CancelPendingIsQuiet(s: State, target: TaskId, now: real, id: TaskId)
    requires target in s.tasks && s.tasks[target].status == Pending
    ensures Quiet(ViewOf(s, id), ViewOf(Cancel(s, target, now).0, id))
    ensures NothingNew(ViewOf(s, id), ViewOf(Cancel(s, target, now).0, id))
  {
    var removed, reason := s.(queue := Remove(s.queue, target).0), "Task cancelled before execution";
    assert Cancel(s, target, now).0 == OnCancelled(removed, target, reason, now);
    RemovingIsQuiet(s, target, id);
    OnCancelledView(removed, target, reason, now, id);
    CancelledViewIsQuiet(ViewOf(removed, id), reason, now);
    CancelledViewIsNotNew(ViewOf(removed, id), reason, now);
    QuietTwice(ViewOf(s, id), ViewOf(removed, id), ViewOf(Cancel(s, target, now).0, id));
  }

  lemma {:induction false} CancelIsQuiet(s: State, target: TaskId, now: real, id: TaskId)
    requires Good(ViewOf(s, id))
    ensures Quiet(ViewOf(s, id), ViewOf(Cancel(s, target, now).0, id))
    ensures NothingNew(ViewOf(s, id), ViewOf(Cancel(s, target, now).0, id))
  {
    if target in s.tasks && s.tasks[target].status == Running {
      CancelRunningIsQuiet(s, target, now, id);
    } else if target in s.tasks && s.tasks[target].status == Pending {
      CancelPendingIsQuiet(s, target, now, id);
    }
  }

  lemma {:induction false} TakeNextIsQuiet(s: State, w: nat, now: real, id: TaskId)
    requires w < |s.workers| && Good(ViewOf(s, id))
    ensures Quiet(ViewOf(s, id), ViewOf(TakeNext(s, w, now), id))
    ensures NothingNew(ViewOf(s, id), ViewOf(TakeNext(s, w, now), id))
  {
    TakeNextView(s, w, now, id);
  }

  lemma {:induction false} ResumeIsQuiet(s: State, w: nat, now: real, id: TaskId)
    requires Good(ViewOf(s, id)) && Enabled(s, WorkerResume(w, now))
    ensures Quiet(ViewOf(s, id), ViewOf(Resume(s, w, now), id))
    ensures NothingNew(ViewOf(s, id), ViewOf(Resume(s, w, now), id))
  {
    ResumeView(s, w, now, id);
    if id == s.workers[w].id {
      ResumedViewIsQuiet(ViewOf(s, id), s.execs[id].outcome, now);
    }
  }

  lemma {:induction false} ResumedViewIsQuiet(v: IdView, outcome: Outcome, now: real)
    requires Good(v) && v.exec == Some(Done(outcome))
    ensures Quiet(v, ResumedView(v, outcome, now)) && NothingNew(v, ResumedView(v, outcome, now))
  {
  }

  lemma {:induction false} FutureStepsAreQuiet(s: State, l: Label, id: TaskId)
    requires Good(ViewOf(s, id)) && Enabled(s, l)
    requires l.GetTaskFuture? || l.DropFuture? || l.ForgetFuture? || l.CleanupFutures? || l.CleanupOldTasks?
    ensures Quiet(ViewOf(s, id), ViewOf(Apply(s, l), id))
    ensures NothingNew(ViewOf(s, id), ViewOf(Apply(s, l), id))
  {
  }

  lemma {:induction false} PoolIsQuiet(s: State, l: Label, id: TaskId)
    requires Good(ViewOf(s, id)) && Enabled(s, l) && !l.AddTask? && !l.ExecBegin? && !l.ExecEnd?
    ensures Quiet(ViewOf(s, id), ViewOf(Apply(s, l), id))
    ensures NothingNew(ViewOf(s, id), ViewOf(Apply(s, l), id))
  {
    match l
    case CancelTask(target, now) => CancelIsQuiet(s, target, now, id);
    case WorkerGet(w, now) => TakeNextIsQuiet(s, w, now, id);
    case WorkerResume(w, now) => ResumeIsQuiet(s, w, now, id);
    case _ => FutureStepsAreQuiet(s, l, id);
  }

  // ---------------------------------------------------------------- a joint step, id by id

  lemma {:induction false} PoolKeepsLink(v: IdView, v': IdView, w: E.World, asked: map<TaskId, E.Request>, id: TaskId)
    requires Linked(v, w, asked, id) && Quiet(v, v') && NothingNew(v, v')
    ensures Linked(v', w, asked, id)
  {
  }

  lemma {:induction false} SubmitKeepsLink(s: State, item: Item, now: real, w: E.World,
                                           asked: map<TaskId, E.Request>, request: E.Request, id: TaskId)
    requires Linked(ViewOf(s, id), w, asked, id) && Good(ViewOf(s, id)) && item.id !in s.used
    ensures Linked(ViewOf(Submit(s, item, now), id), w, asked[item.id := request], id)
  {
    if id == item.id {
      assert forall value :: !Holds(ViewOf(Submit(s, item, now), id), value);
    } else {
      assert ViewOf(Submit(s, item, now), id) == ViewOf(s, id);
    }
  }

  /** The executor has not touched what it knows under this id. */
  predicate SameUnder(w: E.World, w': E.World, id: TaskId) {
    && (id in w'.requests <==> id in w.requests) && (id in w.requests ==> w'.requests[id] == w.requests[id])
    && (id in w'.results <==> id in w.results) && (id in w.results ==> w'.results[id] == w.results[id])
    && (id in w'.flights <==> id in w.flights)
  }

  lemma {:induction false} ExecutorLeavesLink(
      v: IdView, w: E.World, w': E.World, asked: map<TaskId, E.Request>, id: TaskId)
    requires Linked(v, w, asked, id) && SameUnder(w, w', id)
    ensures Linked(v, w', asked, id)
  {
    forall value | Holds(v, value) ensures Gave(w', id, value) {
      assert Gave(w, id, value);
    }
  }

  lemma {:induction false} LookLeavesOthers(
      p: E.Program, w: E.World, target: TaskId, r: E.Request, now: real, id: TaskId)
    requires id != target
    ensures SameUnder(w, E.Look(p, w, target, r, now), id)
  {
  }

  /** Under its own id, the first step of an execution ends with the answer of the cache or goes on to
      the user's function. */
  lemma {:induction false} LookUnderItself(p: E.Program, w: E.World, id: TaskId, r: E.Request, now: real)
    requires id !in w.requests && E.Tracks(w, id)
    ensures var w' := E.Look(p, w, id, r, now);
      && id in w'.requests && w'.requests[id] == r
      && (if HitOf(w', id).Some? then id !in w'.flights && Gave(w', id, HitOf(w', id).value) else id in w'.flights)
  {
  }

  lemma {:induction false} LandLeavesOthers(
      p: E.Program, w: E.World, target: TaskId, outcome: E.UserOutcome, now: real, stamp: real, id: TaskId)
    requires target in w.flights && id != target
    ensures SameUnder(w, E.Land(p, w, target, outcome, now, stamp), id)
  {
  }

  lemma {:induction false} LandUnderItself(
      p: E.Program, w: E.World, id: TaskId, outcome: E.UserOutcome, now: real, stamp: real)
    requires id in w.flights && E.Tracks(w, id)
    ensures var w' := E.Land(p, w, id, outcome, now, stamp);
      && id in w'.requests && w'.requests[id] == w.requests[id] && id !in w'.flights
      && id in w'.results && (w'.results[id].Value? ==> Gave(w', id, w'.results[id].value))
  {
  }

  /** What an execution that returns under an id leaves there. */
  ghost predicate Reported(v: IdView, v': IdView, value: PyValue) {
    && v'.used == v.used && v'.inHeap == v.inHeap && v'.exec == Some(Done(Returned(value)))
    && forall x | Holds(v', x) :: x == value || Holds(v.(exec := None), x)
  }

  lemma {:induction false} OnCompletedReports(s: State, id: TaskId, value: PyValue, fromCache: bool, now: real)
    requires id in s.execs
    ensures var s' := OnCompleted(s, id, value, fromCache, now).(execs := s.execs[id := Done(Returned(value))]);
      Reported(ViewOf(s, id), ViewOf(s', id), value)
  {
  }

  /** An execution that has not ended holds no value yet, nor does anything else under its id. */
  lemma {:induction false} NothingHeldYet(v: IdView, w: E.World, asked: map<TaskId, E.Request>, id: TaskId)
    requires Linked(v, w, asked, id) && E.Tracks(w, id) && (IsCreated(v) || IsInUser(v))
    ensures forall value :: !Holds(v, value) && !Holds(v.(exec := None), value)
  {
    forall value ensures !Holds(v, value) {
      assert Holds(v, value) ==> Gave(w, id, value);
    }
    forall value ensures !Holds(v.(exec := None), value) {
      assert !Holds(v, value);
    }
  }

  lemma {:induction false} StillOpenLinks(
      v: IdView, e: ExecState, w: E.World, w': E.World, asked: map<TaskId, E.Request>, id: TaskId)
    requires Good(v) && v.exec.Some? && (id in asked) && (forall value :: !Holds(v.(exec := None), value))
    requires !e.Created? && (e.Done? ==> !e.outcome.Returned?)
    requires (id in w'.flights <==> e.InUser?) && (id in w'.requests ==> w'.requests[id] == asked[id])
    ensures Linked(v.(exec := Some(e)), w', asked, id)
  {
    forall value ensures !Holds(v.(exec := Some(e)), value) {
      assert !Holds(v.(exec := None), value);
    }
  }

  lemma {:induction false} ReportedLinks(
      v: IdView, v': IdView, w': E.World, asked: map<TaskId, E.Request>, id: TaskId, value: PyValue)
    requires Good(v) && v.exec.Some? && id in asked && (forall x :: !Holds(v.(exec := None), x))
    requires Reported(v, v', value) && Gave(w', id, value)
    requires id !in w'.flights && w'.requests[id] == asked[id]
    ensures Linked(v', w', asked, id)
  {
  }

  lemma {:induction false} BeginKeepsOwnLink(p: E.Program, j: Joint, id: TaskId, now: real)
    requires CanTurn(j, Beginning(id, now)) && Good(ViewOf(j.pool, id)) && E.Tracks(j.executor, id)
    requires Linked(ViewOf(j.pool, id), j.executor, j.asked, id)
    ensures var j' := TakeTurn(p, j, Beginning(id, now));
      Linked(ViewOf(j'.pool, id), j'.executor, j'.asked, id)
  {
    var s, v, w' := j.pool, ViewOf(j.pool, id), Looked(p, j, id, now);
    var v' := ViewOf(Begin(s, id, HitOf(w', id), now), id);
    NothingHeldYet(v, j.executor, j.asked, id);
    if s.execs[id].cancelRequested {
      assert v' == v.(exec := Some(Done(CancelledEarly)));
      StillOpenLinks(v, Done(CancelledEarly), j.executor, w', j.asked, id);
    } else {
      LookUnderItself(p, j.executor, id, j.asked[id], now);
      if HitOf(w', id).Some? {
        OnCompletedReports(s, id, HitOf(w', id).value, true, now);
        ReportedLinks(v, v', w', j.asked, id, HitOf(w', id).value);
      } else {
        assert v' == v.(exec := Some(InUser(false)));
        StillOpenLinks(v, InUser(false), j.executor, w', j.asked, id);
      }
    }
  }

  lemma {:induction false} BeginKeepsOtherLink(p: E.Program, j: Joint, target: TaskId, now: real, id: TaskId)
    requires CanTurn(j, Beginning(target, now)) && id != target
    requires Linked(ViewOf(j.pool, id), j.executor, j.asked, id)
    ensures var j' := TakeTurn(p, j, Beginning(target, now));
      Linked(ViewOf(j'.pool, id), j'.executor, j'.asked, id)
  {
    var w' := Looked(p, j, target, now);
    BeginLeavesOthers(j.pool, target, HitOf(w', target), now, id);
    if !j.pool.execs[target].cancelRequested {
      LookLeavesOthers(p, j.executor, target, j.asked[target], now, id);
    }
    ExecutorLeavesLink(ViewOf(j.pool, id), j.executor, w', j.asked, id);
  }

  lemma {:induction false} EndKeepsOwnLink(
      p: E.Program, j: Joint, id: TaskId, outcome: E.UserOutcome, now: real, stamp: real)
    requires CanTurn(j, Ending(id, outcome, now, stamp)) && Good(ViewOf(j.pool, id)) && E.Tracks(j.executor, id)
    requires Linked(ViewOf(j.pool, id), j.executor, j.asked, id)
    ensures var j' := TakeTurn(p, j, Ending(id, outcome, now, stamp));
      Linked(ViewOf(j'.pool, id), j'.executor, j'.asked, id)
  {
    var s, v, w' := j.pool, ViewOf(j.pool, id), E.Land(p, j.executor, id, outcome, now, stamp);
    LandUnderItself(p, j.executor, id, outcome, now, stamp);
    var ended := OutcomeOf(id, w'.results[id]);
    var v' := ViewOf(End(s, id, ended, now), id);
    NothingHeldYet(v, j.executor, j.asked, id);
    if ended.Returned? {
      OnCompletedReports(s, id, ended.value, false, now);
      ReportedLinks(v, v', w', j.asked, id, ended.value);
    } else {
      assert v' == v.(exec := Some(Done(ended)));
      StillOpenLinks(v, Done(ended), j.executor, w', j.asked, id);
    }
  }

  lemma {:induction false} EndKeepsOtherLink(
      p: E.Program, j: Joint, target: TaskId, outcome: E.UserOutcome, now: real, stamp: real, id: TaskId)
    requires CanTurn(j, Ending(target, outcome, now, stamp)) && id != target
    requires Linked(ViewOf(j.pool, id), j.executor, j.asked, id)
    ensures var j' := TakeTurn(p, j, Ending(target, outcome, now, stamp));
      Linked(ViewOf(j'.pool, id), j'.executor, j'.asked, id)
  {
    var w' := E.Land(p, j.executor, target, outcome, now, stamp);
    EndLeavesOthers(j.pool, target, OutcomeOf(target, w'.results[target]), now, id);
    LandLeavesOthers(p, j.executor, target, outcome, now, stamp, id);
    ExecutorLeavesLink(ViewOf(j.pool, id), j.executor, w', j.asked, id);
  }

  /** The pool's invariant, the executor's bookkeeping, and the link between them. */
  ghost predicate LinkInv(j: Joint) {
    Inv(j.pool) && forall id :: E.Tracks(j.executor, id) && Linked(ViewOf(j.pool, id), j.executor, j.asked, id)
  }

  lemma {:induction false} TurnKeepsLink(p: E.Program, j: Joint, t: Turn, id: TaskId)
    requires LinkInv(j) && CanTurn(j, t)
    ensures var j' := TakeTurn(p, j, t);
      Linked(ViewOf(j'.pool, id), j'.executor, j'.asked, id)
  {
    var v := ViewOf(j.pool, id);
    assert Good(v) && E.Tracks(j.executor, id) && Linked(v, j.executor, j.asked, id);
    match t
    case Submitting(item, request, now) =>
      SubmitKeepsLink(j.pool, item, now, j.executor, j.asked, request, id);
    case Pooling(l) =>
      PoolIsQuiet(j.pool, l, id);
      PoolKeepsLink(v, ViewOf(Apply(j.pool, l), id), j.executor, j.asked, id);
    case Beginning(target, now) =>
      if id == target {
        BeginKeepsOwnLink(p, j, id, now);
      } else {
        BeginKeepsOtherLink(p, j, target, now, id);
      }
    case Ending(target, outcome, now, stamp) =>
      if id == target {
        EndKeepsOwnLink(p, j, id, outcome, now, stamp);
      } else {
        EndKeepsOtherLink(p, j, target, outcome, now, stamp, id);
      }
    case Caching(op) =>
      ExecutorLeavesLink(v, j.executor, E.Apply(p, j.executor, E.Label.Other(op)), j.asked, id);
  }

  // ---------------------------------------------------------------- a joint run is a run of each

  lemma {:induction false} TurnIsPoolStep(p: E.Program, j: Joint, t: Turn)
    requires LinkInv(j) && CanTurn(j, t)
    ensures Run(j.pool, PoolLabels(p, j, t), TakeTurn(p, j, t).pool) && Inv(TakeTurn(p, j, t).pool)
  {
    var ls := PoolLabels(p, j, t);
    if !t.Caching? {
      assert ls[1..] == [] && Enabled(j.pool, ls[0]);
      assert Apply(j.pool, ls[0]) == TakeTurn(p, j, t).pool;
      StepKeeps(j.pool, ls[0]);
    }
  }

  lemma {:induction false} TurnIsExecutorStep(p: E.Program, j: Joint, t: Turn)
    requires LinkInv(j) && CanTurn(j, t)
    ensures E.Run(p, j.executor, ExecutorLabels(j, t), TakeTurn(p, j, t).executor)
    ensures forall id :: E.Tracks(TakeTurn(p, j, t).executor, id)
  {
    var es, w' := ExecutorLabels(j, t), TakeTurn(p, j, t).executor;
    if es == [] {
      assert w' == j.executor;
    } else {
      if t.Beginning? {
        assert Linked(ViewOf(j.pool, t.id), j.executor, j.asked, t.id);
      }
      assert es[1..] == [] && E.Enabled(j.executor, es[0]);
      assert E.Apply(p, j.executor, es[0]) == w';
      forall id ensures E.Tracks(w', id) {
        E.StepTracks(p, j.executor, es[0], id);
      }
    }
  }

  lemma {:induction false} TurnKeeps(p: E.Program, j: Joint, t: Turn)
    requires LinkInv(j) && CanTurn(j, t)
    ensures LinkInv(TakeTurn(p, j, t))
  {
    TurnIsPoolStep(p, j, t);
    TurnIsExecutorStep(p, j, t);
    forall id ensures Linked(
        ViewOf(TakeTurn(p, j, t).pool, id), TakeTurn(p, j, t).executor, TakeTurn(p, j, t).asked, id) {
      TurnKeepsLink(p, j, t, id);
    }
  }

  lemma {:induction false} StartIsLinked(n: nat, config: AsyncCaching.Config, maxSize: Option<int>)
    ensures LinkInv(Start(n, config, maxSize))
  {
    InitKeeps(n);
    forall id ensures Linked(ViewOf(Init(n), id), E.Fresh(config, maxSize), map[], id) {
      assert forall value :: !Holds(ViewOf(Init(n), id), value);
    }
  }

  lemma {:induction false} ExecutorRunsCompose(
      p: E.Program, w: E.World, es: seq<E.Label>, mid: E.World, more: seq<E.Label>, w': E.World)
    requires E.Run(p, w, es, mid) && E.Run(p, mid, more, w')
    ensures E.Run(p, w, es + more, w')
    decreases |es|
  {
    if es == [] {
      assert es + more == more;
    } else {
      ExecutorRunsCompose(p, E.Apply(p, w, es[0]), es[1..], mid, more, w');
      assert (es + more)[1..] == es[1..] + more;
    }
  }

  /** What the pool does in a joint run it could do on its own, and so could the executor: everything
      proved about their runs holds here. */
  lemma {:induction false} RunProjects(p: E.Program, j: Joint, ts: seq<Turn>, j': Joint)
    returns (ls: seq<Label>, es: seq<E.Label>)
    requires LinkInv(j) && Runs(p, j, ts, j')
    ensures Run(j.pool, ls, j'.pool) && E.Run(p, j.executor, es, j'.executor) && LinkInv(j')
    decreases |ts|
  {
    if ts == [] {
      ls, es := [], [];
    } else {
      var next := TakeTurn(p, j, ts[0]);
      TurnKeeps(p, j, ts[0]);
      TurnIsPoolStep(p, j, ts[0]);
      TurnIsExecutorStep(p, j, ts[0]);
      var moreLs, moreEs := RunProjects(p, next, ts[1..], j');
      RunsCompose(j.pool, PoolLabels(p, j, ts[0]), next.pool, moreLs, j'.pool);
      ExecutorRunsCompose(p, j.executor, ExecutorLabels(j, ts[0]), next.executor, moreEs, j'.executor);
      ls, es := PoolLabels(p, j, ts[0]) + moreLs, ExecutorLabels(j, ts[0]) + moreEs;
    }
  }

  // ---------------------------------------------------------------- what tasks end with

  /** Every value held under the id is what the task's function returns for what was submitted. */
  ghost predicate Right(p: E.Program, j: Joint, id: TaskId) {
    forall value | Holds(ViewOf(j.pool, id), value) :: id in j.asked && value == p.result(j.asked[id].call)
  }

  ghost predicate AllRight(p: E.Program, n: nat, config: AsyncCaching.Config, maxSize: Option<int>) {
    forall ts, j, id | Runs(p, Start(n, config, maxSize), ts, j) :: Right(p, j, id)
  }

  lemma {:induction false} FreshIsKept(p: E.Program, config: AsyncCaching.Config, maxSize: Option<int>)
    ensures E.Inv(p, E.Fresh(config, maxSize))
  {
  }

  /** Whatever is held under an id, the completion callback was called once for it, with that value. */
  lemma {:induction false} HeldWasReported(
      p: E.Program, n: nat, config: AsyncCaching.Config, maxSize: Option<int>, ts: seq<Turn>, j: Joint,
      id: TaskId, value: PyValue)
    requires Runs(p, Start(n, config, maxSize), ts, j) && Holds(ViewOf(j.pool, id), value)
    ensures E.Told(j.executor.fired, id) == [value]
  {
    StartIsLinked(n, config, maxSize);
    FreshIsKept(p, config, maxSize);
    var ls, es := RunProjects(p, Start(n, config, maxSize), ts, j);
    assert E.Kept(p, E.Fresh(config, maxSize), id);
    E.CompletionFiresOnce(p, E.Fresh(config, maxSize), es, j.executor, id);
    assert Linked(ViewOf(j.pool, id), j.executor, j.asked, id);
    assert Gave(j.executor, id, value);
  }

  /** With keys that separate results, every execution that returned, every completed record and every
      resolved future holds what its task's function returns. */
  lemma {:induction false} ValuesAreRight(
      p: E.Program, n: nat, config: AsyncCaching.Config, maxSize: Option<int>, ts: seq<Turn>, j: Joint, id: TaskId)
    requires E.KeysSeparate(p, config) && Runs(p, Start(n, config, maxSize), ts, j)
    ensures Right(p, j, id)
  {
    StartIsLinked(n, config, maxSize);
    FreshIsKept(p, config, maxSize);
    var ls, es := RunProjects(p, Start(n, config, maxSize), ts, j);
    E.RunKeeps(p, E.Fresh(config, maxSize), es, j.executor);
    assert Linked(ViewOf(j.pool, id), j.executor, j.asked, id);
    assert E.Kept(p, j.executor, id);
    forall value | Holds(ViewOf(j.pool, id), value)
      ensures id in j.asked && value == p.result(j.asked[id].call)
    {
      assert Gave(j.executor, id, value);
    }
  }

  lemma {:induction false} RunsJoin(p: E.Program, j: Joint, ts: seq<Turn>, mid: Joint, more: seq<Turn>, j': Joint)
    requires Runs(p, j, ts, mid) && Runs(p, mid, more, j')
    ensures Runs(p, j, ts + more, j')
    decreases |ts|
  {
    if ts == [] {
      assert ts + more == more;
    } else {
      RunsJoin(p, TakeTurn(p, j, ts[0]), ts[1..], mid, more, j');
      assert (ts + more)[1..] == ts[1..] + more;
    }
  }

  /** What a task was submitted with never changes. */
  lemma {:induction false} AskedStays(p: E.Program, j: Joint, ts: seq<Turn>, j': Joint, id: TaskId)
    requires LinkInv(j) && Runs(p, j, ts, j') && id in j.asked
    ensures id in j'.asked && j'.asked[id] == j.asked[id]
    decreases |ts|
  {
    if ts != [] {
      assert Linked(ViewOf(j.pool, id), j.executor, j.asked, id);
      TurnKeeps(p, j, ts[0]);
      AskedStays(p, TakeTurn(p, j, ts[0]), ts[1..], j', id);
    }
  }

  /** So is every value `wait_for_tasks` puts together from a scan and the futures it reads later. */
  lemma {:induction false} AwaitedIsRight(
      p: E.Program, n: nat, config: AsyncCaching.Config, maxSize: Option<int>,
      ts: seq<Turn>, j: Joint, more: seq<Turn>, j': Joint, id: TaskId)
    requires E.KeysSeparate(p, config) && Runs(p, Start(n, config, maxSize), ts, j) && Runs(p, j, more, j')
    requires WaitForTasks.Waited(j.pool, j'.pool, id).Some?
    ensures id in j'.asked && WaitForTasks.Waited(j.pool, j'.pool, id) == Some(p.result(j'.asked[id].call))
  {
    StartIsLinked(n, config, maxSize);
    var ls, es := RunProjects(p, Start(n, config, maxSize), ts, j);
    RunsJoin(p, Start(n, config, maxSize), ts, j, more, j');
    ValuesAreRight(p, n, config, maxSize, ts, j, id);
    ValuesAreRight(p, n, config, maxSize, ts + more, j', id);
    var value := WaitForTasks.Waited(j.pool, j'.pool, id).value;
    if WaitForTasks.IsCompleted(j.pool, id) {
      assert Holds(ViewOf(j.pool, id), value);
      AskedStays(p, j, more, j', id);
    } else {
      assert Holds(ViewOf(j'.pool, id), value);
    }
  }

  // ---------------------------------------------------------------- how failures come through

  /** When the user's function fails and the worker has resumed, the record says what happened: an error with
      its message, a cancellation, or a timeout with its limit. */
  lemma {:induction false} FailureIsReported(
      p: E.Program, j: Joint, id: TaskId, outcome: E.UserOutcome, now: real, stamp: real, w: nat, later: real)
    requires CanTurn(j, Ending(id, outcome, now, stamp)) && outcome != E.UserReturned
    requires w < |j.pool.workers| && j.pool.workers[w] == Awaiting(id) && id in j.pool.tasks
    ensures var ended := TakeTurn(p, j, Ending(id, outcome, now, stamp));
      CanTurn(ended, Pooling(WorkerResume(w, later)))
    ensures var ended := TakeTurn(p, j, Ending(id, outcome, now, stamp));
      var tasks := TakeTurn(p, ended, Pooling(WorkerResume(w, later))).pool.tasks;
      && id in tasks && tasks[id].status == Failed && tasks[id].completedAt == Some(later)
      && tasks[id].error == Some(
           match outcome
           case UserReturned => ""
           case UserRaised(message) =>
             "Task " + id + ": [ErrorCategory." + "TASK_EXECUTION" + "] " + ("Task execution failed: " + message)
           case UserCancelled => "Task " + id + ": [ErrorCategory." + "CANCELLATION" + "] " + "Task cancelled"
           case TimedOut(limit) =>
             "Task " + id + ": [ErrorCategory." + "TIMEOUT" + "] " + ("Task timed out after " + limit + " seconds"))
  {
    var ended := TakeTurn(p, j, Ending(id, outcome, now, stamp));
    assert ended.pool.execs[id].Done? && ended.pool.execs[id].outcome.Raised?;
    assert ended.pool.tasks == j.pool.tasks && ended.pool.workers == j.pool.workers;
    RaisedIsRecorded(ended.pool, w, later);
  }

  // ---------------------------------------------------------------- when keys do not separate

  ghost predicate Comes(p: E.Program, j: Joint, j': Joint) {
    exists ts :: Runs(p, j, ts, j')
  }

  lemma {:induction false} ComesFurther(p: E.Program, j: Joint, j': Joint, t: Turn)
    requires Comes(p, j, j') && CanTurn(j', t)
    ensures Comes(p, j, TakeTurn(p, j', t))
  {
    var ts :| Runs(p, j, ts, j');
    var next := TakeTurn(p, j', t);
    assert [t][1..] == [] && Runs(p, next, [], next);
    assert Runs(p, j', [t], next);
    RunsJoin(p, j, ts, j', [t], next);
  }

  function TaskOf(r: E.Request): Item {
    Item(r.task, Entry(0, r.call, None))
  }

  /** Nothing is queued, and the first worker is idle. */
  predicate Ready(j: Joint) {
    j.pool.queue.heap == map[] && j.pool.queue.cancelled == {} && j.pool.workers != [] && j.pool.workers[0] == Idle
  }

  /** The first worker has taken the task and its execution has not begun. */
  predicate Taken(j: Joint, r: E.Request) {
    && j.pool.queue.heap == map[] && j.pool.queue.cancelled == {}
    && j.pool.workers != [] && j.pool.workers[0] == Awaiting(r.task)
    && r.task in j.pool.execs && j.pool.execs[r.task] == Created(false)
    && r.task in j.pool.tasks && j.pool.tasks[r.task].status == Running
    && r.task in j.asked && j.asked[r.task] == r
  }

  /** A task is submitted and taken at once. */
  lemma {:induction false} IsTaken(p: E.Program, j0: Joint, j: Joint, r: E.Request) returns (j': Joint)
    requires Comes(p, j0, j) && Ready(j) && r.task !in j.pool.used
    ensures Comes(p, j0, j') && Taken(j', r) && j'.executor == j.executor
    ensures j'.pool.used == j.pool.used + {r.task}
  {
    var item := TaskOf(r);
    ComesFurther(p, j0, j, Submitting(item, r, 1.0));
    var j1 := TakeTurn(p, j, Submitting(item, r, 1.0));
    assert j1.pool.queue.heap == map[item.id := item.entry];
    OnlyEntryIsTaken(j1.pool.queue, item, 2.0);
    ComesFurther(p, j0, j1, Pooling(WorkerGet(0, 2.0)));
    j' := TakeTurn(p, j1, Pooling(WorkerGet(0, 2.0)));
  }

  /** Its execution is answered by the cache. */
  lemma {:induction false} IsServed(p: E.Program, j0: Joint, j: Joint, r: E.Request, now: real, value: PyValue)
    returns (j': Joint)
    requires Comes(p, j0, j) && Taken(j, r)
    requires HitOf(E.Look(p, j.executor, r.task, r, now), r.task) == Some(value)
    ensures Comes(p, j0, j') && r.task in j'.asked && j'.asked[r.task] == r
    ensures Holds(ViewOf(j'.pool, r.task), value)
  {
    ComesFurther(p, j0, j, Beginning(r.task, now));
    j' := TakeTurn(p, j, Beginning(r.task, now));
  }

  /** Its execution calls the user's function. */
  lemma {:induction false} IsCalled(p: E.Program, j0: Joint, j: Joint, r: E.Request, now: real) returns (j': Joint)
    requires Comes(p, j0, j) && Taken(j, r)
    requires HitOf(E.Look(p, j.executor, r.task, r, now), r.task) == None
    ensures Comes(p, j0, j') && j'.executor == E.Look(p, j.executor, r.task, r, now)
    ensures j'.pool == j.pool.(execs := j.pool.execs[r.task := InUser(false)]) && j'.asked == j.asked
  {
    ComesFurther(p, j0, j, Beginning(r.task, now));
    j' := TakeTurn(p, j, Beginning(r.task, now));
  }

  /** The function returns, and the worker is free again. */
  lemma {:induction false} IsFinished(p: E.Program, j0: Joint, j: Joint, r: E.Request, now: real, stamp: real)
    returns (j': Joint)
    requires Comes(p, j0, j) && j.pool.queue.heap == map[] && j.pool.queue.cancelled == {}
    requires j.pool.workers != [] && j.pool.workers[0] == Awaiting(r.task)
    requires r.task in j.pool.execs && j.pool.execs[r.task].InUser? && r.task in j.executor.flights
    ensures Comes(p, j0, j') && Ready(j') && j'.pool.used == j.pool.used
    ensures j'.executor == E.Land(p, j.executor, r.task, E.UserReturned, now, stamp)
  {
    var end := Ending(r.task, E.UserReturned, now, stamp);
    ComesFurther(p, j0, j, end);
    var ended := TakeTurn(p, j, end);
    assert ended.pool.workers == j.pool.workers && ended.pool.queue == j.pool.queue;
    ResumeFrees(ended.pool, 0, now);
    ComesFurther(p, j0, ended, Pooling(WorkerResume(0, now)));
    j' := TakeTurn(p, ended, Pooling(WorkerResume(0, now)));
  }

  lemma {:induction false} ResumeFrees(s: State, w: nat, now: real)
    requires Enabled(s, WorkerResume(w, now)) && s.execs[s.workers[w].id].outcome.Returned?
    ensures var s' := Resume(s, w, now);
      && s'.workers == s.workers[w := Idle] && s'.used == s.used
      && s'.queue.heap == s.queue.heap && s'.queue.cancelled == s.queue.cancelled
  {
  }

  /** The first of two tasks is executed, and its result stored. */
  lemma {:induction false} FirstIsStored(
      p: E.Program, n: nat, config: AsyncCaching.Config, maxSize: Option<int>, a: E.Request, key: MemoryCache.Key)
    returns (j: Joint)
    requires n > 0 && E.StoresUnder(p, config, a, key) && a.task == "first"
    requires a.useCache == Some(true) && a.cacheTtl == Some(100.0)
    ensures Comes(p, Start(n, config, maxSize), j) && Ready(j) && j.pool.used == {"first"}
    ensures var w := E.Look(p, E.Fresh(config, maxSize), "first", a, 1.0);
      "first" in w.flights && j.executor == E.Land(p, w, "first", E.UserReturned, 2.0, 3.0)
  {
    var j0 := Start(n, config, maxSize);
    assert Runs(p, j0, [], j0);
    var w := E.FirstMisses(p, config, maxSize, a, key);
    var j1 := IsTaken(p, j0, j0, a);
    var j2 := IsCalled(p, j0, j1, a, 1.0);
    j := IsFinished(p, j0, j2, a, 2.0, 3.0);
  }

  /** Two tasks whose keys agree and whose results do not: the second is given the first one's result. */
  lemma {:induction false} SharedKeyMisleads(
      p: E.Program, n: nat, config: AsyncCaching.Config, maxSize: Option<int>,
      a: E.Request, b: E.Request, key: MemoryCache.Key)
    requires n > 0 && E.StoresUnder(p, config, a, key) && AsyncCaching.KeyOf(config, p.keyOf(b)) == Ok(key)
    requires a.useCache == Some(true) && a.cacheTtl == Some(100.0) && b.useCache == Some(true)
    requires a.task == "first" && b.task == "second" && p.result(a.call) != p.result(b.call)
    ensures !AllRight(p, n, config, maxSize)
  {
    var j0 := Start(n, config, maxSize);
    var j1 := FirstIsStored(p, n, config, maxSize, a, key);
    var w := E.FirstStores(p, config, maxSize, a, key);
    var w' := E.SecondIsServed(p, w, b, key, p.result(a.call));
    var j2 := IsTaken(p, j0, j1, b);
    var j3 := IsServed(p, j0, j2, b, 4.0, p.result(a.call));
    var ts :| Runs(p, j0, ts, j3);
    assert !Right(p, j3, "second");
  }

  /** The key is made from the function and its arguments alone. */
  ghost predicate KeyIsOfCall(p: E.Program) {
    forall r: E.Request, r': E.Request | r.call == r'.call :: p.keyOf(r) == p.keyOf(r')
  }

  lemma {:induction false} CollisionMisleads(
      p: E.Program, n: nat, config: AsyncCaching.Config, maxSize: Option<int>,
      a: E.Request, b: E.Request, key: MemoryCache.Key)
    requires n > 0 && KeyIsOfCall(p) && E.StoresUnder(p, config, a, key)
    requires AsyncCaching.KeyOf(config, p.keyOf(b)) == Ok(key) && p.result(a.call) != p.result(b.call)
    ensures !AllRight(p, n, config, maxSize)
  {
    var a' := E.Request("first", a.call, Some(true), Some(100.0), None);
    var b' := E.Request("second", b.call, Some(true), None, None);
    assert p.keyOf(a') == p.keyOf(a) && p.keyOf(b') == p.keyOf(b);
    SharedKeyMisleads(p, n, config, maxSize, a', b', key);
  }

  lemma {:induction false} SeparateKeysMakeAllRight(
      p: E.Program, n: nat, config: AsyncCaching.Config, maxSize: Option<int>)
    requires E.KeysSeparate(p, config)
    ensures AllRight(p, n, config, maxSize)
  {
    forall ts, j, id | Runs(p, Start(n, config, maxSize), ts, j) ensures Right(p, j, id) {
      ValuesAreRight(p, n, config, maxSize, ts, j, id);
    }
  }

  /** When the key is made from the call, as the worker's is, everything a pool with workers hands out is
      what its tasks' functions return if and only if equal keys mean equal results. */
  lemma {:induction false} AllRightExactly(p: E.Program, n: nat, config: AsyncCaching.Config, maxSize: Option<int>)
    requires n > 0 && KeyIsOfCall(p)
    ensures AllRight(p, n, config, maxSize) <==> E.KeysSeparate(p, config)
  {
    if E.KeysSeparate(p, config) {
      SeparateKeysMakeAllRight(p, n, config, maxSize);
    } else {
      var a, b, key := E.KeysCollide(p, config);
      CollisionMisleads(p, n, config, maxSize, a, b, key);
    }
  }

  /** With the worker's own key, two functions that return different results for the same arguments
      can make a pool complete a task with the result of the wrong one. */
  lemma {:induction false} WorkerKeyMisleads(
      p: E.Program, n: nat, config: AsyncCaching.Config, maxSize: Option<int>, r: E.Request, func: string)
    requires n > 0 && p.keyOf == E.WorkerKey && AsyncCaching.Storable(config, p.result(r.call), p.packer)
    requires p.result(r.call) != p.result(r.call.(func := func))
    ensures !AllRight(p, n, config, maxSize)
  {
    E.WorkerKeysDoNotSeparate(p, config, r, func);
    forall q: E.Request, q': E.Request | q.call == q'.call ensures p.keyOf(q) == p.keyOf(q') {
      E.WorkerKeyIsOfCall(q, q');
    }
    AllRightExactly(p, n, config, maxSize);
  }
}
