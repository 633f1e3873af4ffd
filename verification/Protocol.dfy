/**
  The task-worker protocol as a transition system.

  Clients, workers and one execution per running job interleave only where the code suspends.
  With an unbounded queue no lock is held across a suspension, so the stretch of code between two
  suspensions is one step. What the scheduler, the user's functions, the cache and the garbage
  collector choose is in the label of the step; `Apply` is what the code then does.
*/
module Protocol {
  import opened Common
  import opened Status
  import opened Queue
  import opened Futures

  /** How an execution ended: by returning, with an error of any kind (also a cancellation or a
      timeout seen by the user's function), or by being cancelled before it began. */
  datatype Outcome = Returned(value: PyValue) | Raised(error: string) | CancelledEarly

  datatype ExecState =
    | Created(cancelRequested: bool)
    | InUser(cancelRequested: bool)
    | Done(outcome: Outcome)

  datatype WorkerState = Idle | Awaiting(id: TaskId) | Exited

  /** `taskFutures` and `table` are the worker's and the future manager's dictionaries of futures;
      `running` and `taskToWorker` are the pool's two dictionaries of executions; `used` is every
      id submitted so far. */
  datatype State = State(
    tasks: map<TaskId, TaskRecord>,
    queue: QueueState,
    table: FutureTable,
    taskFutures: set<TaskId>,
    running: set<TaskId>,
    taskToWorker: set<TaskId>,
    workers: seq<WorkerState>,
    execs: map<TaskId, ExecState>,
    used: set<TaskId>)

  datatype Label =
    | AddTask(item: Item, now: real)
    | CancelTask(id: TaskId, now: real)
    | GetTaskFuture(id: TaskId)
    | DropFuture(id: TaskId)
    | ForgetFuture(id: TaskId)
    | CleanupFutures
    | CleanupOldTasks(cutoff: real)
    | WorkerGet(w: nat, now: real)
    | ExecBegin(id: TaskId, hit: Option<PyValue>, now: real)
    | ExecEnd(id: TaskId, outcome: Outcome, now: real)
    | WorkerResume(w: nat, now: real)

  function Init(maxWorkers: nat): State {
    State(map[], EmptyQueue, NoFutures, {}, {}, {}, seq(maxWorkers, i => Idle), map[], {})
  }

  // ---------------------------------------------------------------- callbacks

  function OnStarted(s: State, id: TaskId): State {
    if id in s.tasks then s.(tasks := s.tasks[id := MarkStarted(s.tasks[id])]) else s
  }

  function OnCompleted(s: State, id: TaskId, value: PyValue, fromCache: bool, now: real): State {
    if id in s.tasks then
      s.(tasks := s.tasks[id := MarkCompleted(s.tasks[id].(fromCache := fromCache), value, now)],
         table := SetResult(s.table, id, value))
    else s
  }

  function OnFailed(s: State, id: TaskId, error: string, now: real): State {
    if id in s.tasks then
      s.(tasks := s.tasks[id := MarkFailed(s.tasks[id], error, now)], table := SetException(s.table, id, error))
    else s
  }

  function OnCancelled(s: State, id: TaskId, reason: string, now: real): State {
    if id in s.tasks then
      s.(tasks := s.tasks[id := MarkCancelled(s.tasks[id], reason, now)],
         table := SetException(s.table, id, "Task cancelled"))
    else s
  }

  // ---------------------------------------------------------------- client calls

  function Submit(s: State, item: Item, now: real): State {
    s.(tasks := s.tasks[item.id := NewTask], queue := Put(s.queue, item, now), used := s.used + {item.id})
  }

  /** `cancel_running_task`: a finished execution is only untracked. */
  function CancelRunning(s: State, id: TaskId): (State, bool) {
    if id !in s.taskToWorker || id !in s.execs then (s, false)
    else
      match s.execs[id]
      case Done(_) => (s.(running := s.running - {id}, taskToWorker := s.taskToWorker - {id}), false)
      case Created(_) => (s.(execs := s.execs[id := Created(true)]), true)
      case InUser(_) => (s.(execs := s.execs[id := InUser(true)]), true)
  }

  function Cancel(s: State, id: TaskId, now: real): (State, bool) {
    if id !in s.tasks || IsTerminal(s.tasks[id].status) then (s, false)
    else if s.tasks[id].status != Running then
      var removed := s.(queue := Remove(s.queue, id).0);
      (OnCancelled(removed, id, "Task cancelled before execution", now), true)
    else
      var (asked, found) := CancelRunning(s, id);
      (OnCancelled(asked, id, if found then "Task execution cancelled" else "Task cancellation requested", now), true)
  }

  function ObtainFuture(s: State, id: TaskId): State {
    if id !in s.tasks || id in s.taskFutures then s
    else
      var table := GetFuture(s.table, id);
      s.(taskFutures := s.taskFutures + {id}, table := CompleteFromTaskInfo(table, id, s.tasks[id]))
  }

  /** The finished tasks older than the cutoff. */
  function Expired(s: State, cutoff: real): set<TaskId> {
    set id | id in s.tasks && IsTerminal(s.tasks[id].status) && s.tasks[id].completedAt.Some? &&
             s.tasks[id].completedAt.value < cutoff
  }

  /** Cancel the future of every given id. */
  function CancelFutures(t: FutureTable, ids: set<TaskId>): FutureTable {
    FutureTable(DropAll(t.futures, ids), t.pending - (set id | id in ids && Waiting(t, id)))
  }

  function Cleanup(s: State, cutoff: real): State {
    var gone := Expired(s, cutoff);
    s.(tasks := s.tasks - gone, table := CancelFutures(s.table, gone), queue := Clean(s.queue, gone))
  }

  // ---------------------------------------------------------------- workers and executions

  /** A worker takes the next task, marks it started, creates its execution and tracks it. */
  ghost function TakeNext(s: State, w: nat, now: real): State
    requires w < |s.workers|
  {
    var (q, r) := Get(s.queue, now);
    var s' := s.(queue := q);
    if r.None? then s' else
      var id := r.value.id;
      OnStarted(s', id).(execs := s.execs[id := Created(false)],
                         running := s.running + {id},
                         taskToWorker := s.taskToWorker + {id},
                         workers := s.workers[w := Awaiting(id)])
  }

  /** The execution's first step: cancelled already, served from the cache, or calling the user. The
      lookup in between does not suspend, which is so over the memory adapter. */
  function Begin(s: State, id: TaskId, hit: Option<PyValue>, now: real): State
    requires id in s.execs && s.execs[id].Created?
  {
    if s.execs[id].cancelRequested then s.(execs := s.execs[id := Done(CancelledEarly)])
    else match hit
      case Some(value) => OnCompleted(s, id, value, true, now).(execs := s.execs[id := Done(Returned(value))])
      case None => s.(execs := s.execs[id := InUser(false)])
  }

  function End(s: State, id: TaskId, outcome: Outcome, now: real): State
    requires id in s.execs && s.execs[id].InUser?
  {
    match outcome
    case Returned(value) => OnCompleted(s, id, value, false, now).(execs := s.execs[id := Done(outcome)])
    case _ => s.(execs := s.execs[id := Done(outcome)])
  }

  /** The callback a worker calls for an execution that ended. A return was reported already. */
  function Tell(s: State, id: TaskId, outcome: Outcome, now: real): State {
    match outcome
    case Returned(_) => s
    case Raised(error) => OnFailed(s, id, error, now)
    case CancelledEarly => OnCancelled(s, id, "Task cancelled during execution", now)
  }

  /** The worker sees how its execution ended, tells the callbacks, stops tracking it and marks the
      entry done. A plain cancellation escapes the worker's loop and ends the worker. */
  function Resume(s: State, w: nat, now: real): State
    requires w < |s.workers| && s.workers[w].Awaiting?
    requires s.workers[w].id in s.execs && s.execs[s.workers[w].id].Done?
  {
    var id := s.workers[w].id;
    Tell(s, id, s.execs[id].outcome, now).(
      running := s.running - {id},
      taskToWorker := s.taskToWorker - {id},
      execs := s.execs - {id},
      queue := TaskDone(s.queue),
      workers := s.workers[w := if s.execs[id].outcome == CancelledEarly then Exited else Idle])
  }

  // ---------------------------------------------------------------- steps and runs

  ghost predicate Enabled(s: State, l: Label) {
    match l
    case AddTask(item, _) => item.id !in s.used
    case WorkerGet(w, _) => w < |s.workers| && s.workers[w] == Idle
    case ExecBegin(id, _, _) => id in s.execs && s.execs[id].Created?
    case ExecEnd(id, outcome, _) => id in s.execs && s.execs[id].InUser? && outcome != CancelledEarly
    case WorkerResume(w, _) =>
      && w < |s.workers| && s.workers[w].Awaiting?
      && s.workers[w].id in s.execs && s.execs[s.workers[w].id].Done?
    case _ => true
  }

  ghost function Apply(s: State, l: Label): State
    requires Enabled(s, l)
  {
    match l
    case AddTask(item, now) => Submit(s, item, now)
    case CancelTask(id, now) => Cancel(s, id, now).0
    case GetTaskFuture(id) => ObtainFuture(s, id)
    case DropFuture(id) => s.(table := ClientCancel(s.table, id))
    case ForgetFuture(id) => s.(table := Forget(s.table, id), taskFutures := s.taskFutures - {id})
    case CleanupFutures => s.(table := CleanupCompleted(s.table))
    case CleanupOldTasks(cutoff) => Cleanup(s, cutoff)
    case WorkerGet(w, now) => TakeNext(s, w, now)
    case ExecBegin(id, hit, now) => Begin(s, id, hit, now)
    case ExecEnd(id, outcome, now) => End(s, id, outcome, now)
    case WorkerResume(w, now) => Resume(s, w, now)
  }

  /** `ls` takes `s` to `s'`. */
  ghost predicate Run(s: State, ls: seq<Label>, s': State)
    decreases |ls|
  {
    if ls == [] then s == s' else Enabled(s, ls[0]) && Run(Apply(s, ls[0]), ls[1..], s')
  }

  /** The state a run reaches from the start of a pool with `n` workers. */
  ghost predicate Reachable(n: nat, s: State) {
    exists ls :: Run(Init(n), ls, s)
  }

  lemma {:induction false} RunStep(s: State, l: Label, ls: seq<Label>, s': State)
    requires Enabled(s, l) && Run(Apply(s, l), ls, s')
    ensures Run(s, [l] + ls, s')
  {
    assert ([l] + ls)[1..] == ls;
  }

  lemma {:induction false} RunsCompose(s: State, ls: seq<Label>, mid: State, more: seq<Label>, s': State)
    requires Run(s, ls, mid) && Run(mid, more, s')
    ensures Run(s, ls + more, s')
    decreases |ls|
  {
    if ls == [] {
      assert ls + more == more;
    } else {
      var l, rest := ls[0], ls[1..];
      assert ls + more == [l] + (rest + more);
      RunsCompose(Apply(s, l), rest, mid, more, s');
      RunStep(s, l, rest + more, s');
    }
  }

  lemma {:induction false} ReachStep(n: nat, s: State, l: Label)
    requires Reachable(n, s) && Enabled(s, l)
    ensures Reachable(n, Apply(s, l))
  {
    var ls :| Run(Init(n), ls, s);
    assert Run(Apply(s, l), [], Apply(s, l));
    assert Run(s, [l], Apply(s, l));
    RunsCompose(Init(n), ls, s, [l], Apply(s, l));
  }
}
