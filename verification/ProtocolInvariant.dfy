/**
  What every reachable state of the protocol keeps.

  Nearly all of it is said id by id: everything the system holds under one task id is gathered
  in an `IdView`, and `Good` says which combinations can occur.
*/
module ProtocolInvariant {
  import opened Common
  import opened Status
  import opened Queue
  import opened Futures
  import opened Protocol

  // ---------------------------------------------------------------- one id

  datatype IdView = IdView(
    task: Option<TaskRecord>,
    inHeap: bool,
    queued: bool,
    cancelled: bool,
    exec: Option<ExecState>,
    running: bool,
    toWorker: bool,
    future: Option<FutureState>,
    pending: bool,
    registered: bool,
    used: bool)

  function ViewOf(s: State, id: TaskId): IdView {
    IdView(
      if id in s.tasks then Some(s.tasks[id]) else None,
      id in s.queue.heap,
      id in s.queue.queued,
      id in s.queue.cancelled,
      if id in s.execs then Some(s.execs[id]) else None,
      id in s.running,
      id in s.taskToWorker,
      if id in s.table.futures then Some(s.table.futures[id]) else None,
      id in s.table.pending,
      id in s.taskFutures,
      id in s.used)
  }

  /** Everything known under an id was submitted, and an entry being executed has left the heap. */
  predicate Once(v: IdView) {
    && (v.task.Some? || v.inHeap || v.exec.Some? || v.future.Some? ==> v.used)
    && !(v.inHeap && v.exec.Some?)
  }

  /** The pending tasks are the queued entries, and a cancelled entry's task is on record as
      cancelled. An entry that is neither belongs to a task retention has dropped. */
  predicate QueueMatchesTask(v: IdView) {
    && (v.queued ==> v.inHeap && !v.cancelled && v.task.Some? && v.task.value.status == Pending)
    && (v.cancelled ==> v.inHeap && v.task.Some? && v.task.value.status == Cancelled)
    && (v.task.Some? && v.task.value.status == Pending ==> v.queued)
    && (v.inHeap && v.task.Some? ==> v.queued || v.cancelled)
  }

  /** The pool's two dictionaries agree and track every unfinished execution. */
  predicate Tracked(v: IdView) {
    && v.running == v.toWorker
    && (v.running ==> v.exec.Some?)
    && (v.exec.Some? && !v.exec.value.Done? ==> v.running)
  }

  /** What a task's record says while its execution is in a given state. */
  predicate RecordMatchesExec(t: TaskRecord, e: ExecState) {
    match e
    case Created(asked) => t.status == if asked then Cancelled else Running
    case InUser(asked) => t.status == if asked then Cancelled else Running
    case Done(Returned(v)) => t.status == Cancelled || (t.status == Completed && t.result == Some(v))
    case Done(Raised(_)) => t.status == Running || t.status == Cancelled
    case Done(CancelledEarly) => t.status == Cancelled
  }

  predicate TaskMatchesExec(v: IdView) {
    && (v.task.Some? && v.task.value.status == Running ==> v.exec.Some?)
    && (v.task.Some? && v.exec.Some? ==> RecordMatchesExec(v.task.value, v.exec.value))
    && (v.task.Some? && v.task.value.status == Completed ==> v.task.value.result.Some?)
  }

  predicate FutureMatchesTask(f: FutureState, task: Option<TaskRecord>) {
    match f
    case Unresolved => task.Some? && !IsTerminal(task.value.status)
    case Resolved(v) => task.Some? ==> task.value.status == Completed && task.value.result == Some(v)
    case Excepted(_) => task.Some? ==> task.value.status == Failed || task.value.status == Cancelled
    case Dropped => true
  }

  predicate FutureOnRecord(v: IdView) {
    && v.registered == v.future.Some?
    && (v.future == Some(Unresolved) ==> v.pending)
    && (v.future.Some? ==> FutureMatchesTask(v.future.value, v.task))
  }

  predicate Good(v: IdView) {
    Once(v) && QueueMatchesTask(v) && Tracked(v) && TaskMatchesExec(v) && FutureOnRecord(v)
  }

  // ---------------------------------------------------------------- the invariant

  /** Each execution is awaited by exactly one worker. */
  ghost predicate WorkersHold(workers: seq<WorkerState>, execs: set<TaskId>) {
    && (forall i | 0 <= i < |workers| && workers[i].Awaiting? :: workers[i].id in execs)
    && (forall id | id in execs :: Awaiting(id) in workers)
    && (forall i, j | 0 <= i < j < |workers| && workers[i].Awaiting? && workers[j].Awaiting? ::
          workers[i].id != workers[j].id)
  }

  /** Every entry put and not yet marked done is in the heap or with a worker. */
  ghost predicate JoinBalances(s: State) {
    s.queue.unfinished == |s.queue.heap| + |s.execs|
  }

  ghost predicate AllGood(s: State) {
    forall id :: Good(ViewOf(s, id))
  }

  ghost predicate Inv(s: State) {
    AllGood(s) && WorkersHold(s.workers, s.execs.Keys) && JoinBalances(s)
  }

  // ---------------------------------------------------------------- client steps, id by id

  lemma {:induction false} SubmitKeepsGood(s: State, item: Item, now: real, id: TaskId)
    requires Good(ViewOf(s, id)) && item.id !in s.used
    ensures Good(ViewOf(Submit(s, item, now), id))
  {
  }

  lemma {:induction false} CancelPendingKeepsGood(s: State, target: TaskId, now: real, id: TaskId)
    requires Good(ViewOf(s, id))
    requires target in s.tasks && s.tasks[target].status == Pending
    ensures Good(ViewOf(Cancel(s, target, now).0, id))
  {
  }

  /** What the cancellation callback changes under an id. */
  function CancelledView(v: IdView, reason: string, now: real): IdView {
    if v.task.None? then v
    else
      v.(task := Some(MarkCancelled(v.task.value, reason, now)),
         future := if v.future == Some(Unresolved) then Some(Excepted("Task cancelled")) else v.future,
         pending := v.pending && v.future != Some(Unresolved))
  }

  lemma {:induction false} OnCancelledView(s: State, target: TaskId, reason: string, now: real, id: TaskId)
    ensures ViewOf(OnCancelled(s, target, reason, now), id) ==
      if id == target then CancelledView(ViewOf(s, id), reason, now) else ViewOf(s, id)
  {
  }

  lemma {:induction false} CancelRunningView(s: State, target: TaskId, id: TaskId)
    requires Good(ViewOf(s, id)) && target in s.tasks && s.tasks[target].status == Running
    ensures var v, v' := ViewOf(s, id), ViewOf(CancelRunning(s, target).0, id);
      if id != target then v' == v
      else
        && v.exec.Some?
        && (v.exec.value.Created? ==> v' == v.(exec := Some(Created(true))))
        && (v.exec.value.InUser? ==> v' == v.(exec := Some(InUser(true))))
        && (v.exec.value.Done? ==> v' == v.(running := false, toWorker := false))
  {
  }

  lemma {:induction false} CancelRunningKeepsGood(s: State, target: TaskId, now: real, id: TaskId)
    requires Good(ViewOf(s, id))
    requires target in s.tasks && s.tasks[target].status == Running
    ensures Good(ViewOf(Cancel(s, target, now).0, id))
  {
    var (asked, found) := CancelRunning(s, target);
    var reason := if found then "Task execution cancelled" else "Task cancellation requested";
    CancelRunningView(s, target, id);
    OnCancelledView(asked, target, reason, now, id);
    assert Cancel(s, target, now).0 == OnCancelled(asked, target, reason, now);
  }

  lemma {:induction false} CancelKeepsGood(s: State, target: TaskId, now: real, id: TaskId)
    requires Good(ViewOf(s, id))
    ensures Good(ViewOf(Cancel(s, target, now).0, id))
  {
    if target in s.tasks && s.tasks[target].status == Pending {
      CancelPendingKeepsGood(s, target, now, id);
    } else if target in s.tasks && s.tasks[target].status == Running {
      CancelRunningKeepsGood(s, target, now, id);
    }
  }

  lemma {:induction false} ObtainKeepsGood(s: State, target: TaskId, id: TaskId)
    requires Good(ViewOf(s, id))
    ensures Good(ViewOf(ObtainFuture(s, target), id))
  {
  }

  lemma {:induction false} FutureStepsKeepGood(s: State, target: TaskId, id: TaskId)
    requires Good(ViewOf(s, id))
    ensures Good(ViewOf(s.(table := ClientCancel(s.table, target)), id))
    ensures Good(ViewOf(s.(table := Forget(s.table, target), taskFutures := s.taskFutures - {target}), id))
    ensures Good(ViewOf(s.(table := CleanupCompleted(s.table)), id))
  {
  }

  lemma {:induction false} CleanupKeepsGood(s: State, cutoff: real, id: TaskId)
    requires Good(ViewOf(s, id))
    ensures Good(ViewOf(Cleanup(s, cutoff), id))
  {
  }

  // ---------------------------------------------------------------- worker steps, id by id

  lemma {:induction false} GetUnder(q: QueueState, now: real, id: TaskId)
    ensures var (q', r) := Get(q, now);
      && (r.Some? ==> r.value.id in q.heap && r.value.id !in q.cancelled)
      && (if r.Some? && id == r.value.id then
            id !in q'.heap && id !in q'.queued && id !in q'.cancelled
          else if id in q.heap && id in q.cancelled && id !in q'.heap then
            id !in q'.cancelled && (id in q'.queued <==> id in q.queued)
          else
            && (id in q'.heap <==> id in q.heap)
            && (id in q'.queued <==> id in q.queued)
            && (id in q'.cancelled <==> id in q.cancelled))
  {
    GetReturnsMin(q, now);
  }

  /** What taking the next task changes under an id: the taken one starts, a dropped one vanishes
      from the queue, and nothing else moves. */
  lemma {:induction false} TakeNextView(s: State, w: nat, now: real, id: TaskId)
    requires w < |s.workers|
    ensures var v, v', r := ViewOf(s, id), ViewOf(TakeNext(s, w, now), id), Get(s.queue, now).1;
      if r.Some? && id == r.value.id then
        && v.inHeap && !v.cancelled
        && v' == v.(task := if v.task.Some? then Some(MarkStarted(v.task.value)) else None,
                    inHeap := false, queued := false, exec := Some(Created(false)), running := true, toWorker := true)
      else if v.inHeap && v.cancelled && !v'.inHeap then v' == v.(inHeap := false, cancelled := false)
      else v' == v
  {
    GetUnder(s.queue, now, id);
  }

  lemma {:induction false} TakeNextKeepsGood(s: State, w: nat, now: real, id: TaskId)
    requires w < |s.workers| && Good(ViewOf(s, id))
    ensures Good(ViewOf(TakeNext(s, w, now), id))
  {
    TakeNextView(s, w, now, id);
  }

  lemma {:induction false} BeginLeavesOthers(s: State, target: TaskId, hit: Option<PyValue>, now: real, id: TaskId)
    requires target in s.execs && s.execs[target].Created? && id != target
    ensures ViewOf(Begin(s, target, hit, now), id) == ViewOf(s, id)
  {
  }

  lemma {:induction false} EndLeavesOthers(s: State, target: TaskId, outcome: Outcome, now: real, id: TaskId)
    requires target in s.execs && s.execs[target].InUser? && id != target
    ensures ViewOf(End(s, target, outcome, now), id) == ViewOf(s, id)
  {
  }

  lemma {:induction false} BeginKeepsGood(s: State, target: TaskId, hit: Option<PyValue>, now: real, id: TaskId)
    requires Good(ViewOf(s, id)) && target in s.execs && s.execs[target].Created?
    ensures Good(ViewOf(Begin(s, target, hit, now), id))
  {
    if id != target {
      BeginLeavesOthers(s, target, hit, now, id);
    }
  }

  lemma {:induction false} EndKeepsGood(s: State, target: TaskId, outcome: Outcome, now: real, id: TaskId)
    requires Good(ViewOf(s, id)) && target in s.execs && s.execs[target].InUser? && outcome != CancelledEarly
    ensures Good(ViewOf(End(s, target, outcome, now), id))
  {
    if id != target {
      EndLeavesOthers(s, target, outcome, now, id);
    }
  }

  /** What the failure callback changes under an id. */
  function FailedView(v: IdView, error: string, now: real): IdView {
    if v.task.None? then v
    else
      v.(task := Some(MarkFailed(v.task.value, error, now)),
         future := if v.future == Some(Unresolved) then Some(Excepted(error)) else v.future,
         pending := v.pending && v.future != Some(Unresolved))
  }

  lemma {:induction false} OnFailedView(s: State, target: TaskId, error: string, now: real, id: TaskId)
    ensures ViewOf(OnFailed(s, target, error, now), id) ==
      if id == target then FailedView(ViewOf(s, id), error, now) else ViewOf(s, id)
  {
  }

  /** What the end of an execution changes under its id: its worker reports it and lets it go. */
  function ResumedView(v: IdView, outcome: Outcome, now: real): IdView {
    var told := match outcome
      case Returned(_) => v
      case Raised(error) => FailedView(v, error, now)
      case CancelledEarly => CancelledView(v, "Task cancelled during execution", now);
    told.(exec := None, running := false, toWorker := false)
  }

  /** The parts of the state that no callback touches. */
  lemma {:induction false} ResumeParts(s: State, w: nat, now: real)
    requires Enabled(s, WorkerResume(w, now))
    ensures var s', id := Resume(s, w, now), s.workers[w].id;
      && s'.workers == s.workers[w := if s.execs[id].outcome == CancelledEarly then Exited else Idle]
      && s'.execs == s.execs - {id} && s'.queue == TaskDone(s.queue)
  {
  }

  lemma {:induction false} ResumeView(s: State, w: nat, now: real, id: TaskId)
    requires Enabled(s, WorkerResume(w, now))
    ensures ViewOf(Resume(s, w, now), id) ==
      if id == s.workers[w].id then ResumedView(ViewOf(s, id), s.execs[id].outcome, now) else ViewOf(s, id)
  {
    var target := s.workers[w].id;
    match s.execs[target].outcome
    case Raised(error) => OnFailedView(s, target, error, now, id);
    case CancelledEarly => OnCancelledView(s, target, "Task cancelled during execution", now, id);
    case _ =>
  }

  lemma {:induction false} ResumedViewIsGood(v: IdView, outcome: Outcome, now: real)
    requires Good(v) && v.exec == Some(Done(outcome))
    ensures Good(ResumedView(v, outcome, now))
  {
  }

  lemma {:induction false} ResumeKeepsGood(s: State, w: nat, now: real, id: TaskId)
    requires Good(ViewOf(s, id)) && Enabled(s, WorkerResume(w, now))
    ensures Good(ViewOf(Resume(s, w, now), id))
  {
    ResumeView(s, w, now, id);
    if id == s.workers[w].id {
      ResumedViewIsGood(ViewOf(s, id), s.execs[id].outcome, now);
    }
  }

  lemma {:induction false} StepKeepsGood(s: State, l: Label, id: TaskId)
    requires AllGood(s) && Enabled(s, l)
    ensures Good(ViewOf(Apply(s, l), id))
  {
    assert Good(ViewOf(s, id));
    match l
    case AddTask(item, now) => SubmitKeepsGood(s, item, now, id);
    case CancelTask(target, now) => CancelKeepsGood(s, target, now, id);
    case GetTaskFuture(target) => ObtainKeepsGood(s, target, id);
    case DropFuture(target) => FutureStepsKeepGood(s, target, id);
    case ForgetFuture(target) => FutureStepsKeepGood(s, target, id);
    case CleanupFutures => FutureStepsKeepGood(s, id, id);
    case CleanupOldTasks(cutoff) => CleanupKeepsGood(s, cutoff, id);
    case WorkerGet(w, now) => TakeNextKeepsGood(s, w, now, id);
    case ExecBegin(target, hit, now) => BeginKeepsGood(s, target, hit, now, id);
    case ExecEnd(target, outcome, now) => EndKeepsGood(s, target, outcome, now, id);
    case WorkerResume(w, now) => ResumeKeepsGood(s, w, now, id);
  }

  // ---------------------------------------------------------------- workers

  lemma {:induction false} HoldOneMore(workers: seq<WorkerState>, execs: set<TaskId>, w: nat, id: TaskId)
    requires WorkersHold(workers, execs) && w < |workers| && workers[w] == Idle && id !in execs
    ensures WorkersHold(workers[w := Awaiting(id)], execs + {id})
  {
    var workers' := workers[w := Awaiting(id)];
    assert workers'[w] == Awaiting(id);
    forall other | other in execs ensures Awaiting(other) in workers' {
      var i :| 0 <= i < |workers| && workers[i] == Awaiting(other);
      assert workers'[i] == Awaiting(other);
    }
  }

  lemma {:induction false} HoldOneLess(workers: seq<WorkerState>, execs: set<TaskId>, w: nat, after: WorkerState)
    requires WorkersHold(workers, execs) && w < |workers| && workers[w].Awaiting? && !after.Awaiting?
    ensures WorkersHold(workers[w := after], execs - {workers[w].id})
  {
    var workers' := workers[w := after];
    forall other | other in execs - {workers[w].id} ensures Awaiting(other) in workers' {
      var i :| 0 <= i < |workers| && workers[i] == Awaiting(other);
      assert workers'[i] == Awaiting(other);
    }
  }

  /** Two states with the same workers, executions in progress and unfinished entries. */
  ghost predicate SameWork(s: State, s': State) {
    && s'.workers == s.workers
    && s'.execs.Keys == s.execs.Keys
    && s'.queue.heap == s.queue.heap
    && s'.queue.unfinished == s.queue.unfinished
  }

  lemma {:induction false} CancelSameWork(s: State, id: TaskId, now: real)
    ensures SameWork(s, Cancel(s, id, now).0)
  {
    if id in s.tasks && s.tasks[id].status == Running {
      assert SameWork(s, CancelRunning(s, id).0);
    }
  }

  lemma {:induction false} ClientSameWork(s: State, l: Label)
    requires Enabled(s, l)
    requires l.GetTaskFuture? || l.DropFuture? || l.ForgetFuture? || l.CleanupFutures? || l.CleanupOldTasks?
    ensures SameWork(s, Apply(s, l))
  {
  }

  lemma {:induction false} ExecSameWork(s: State, l: Label)
    requires Enabled(s, l) && (l.ExecBegin? || l.ExecEnd?)
    ensures SameWork(s, Apply(s, l))
  {
  }

  /** Only submitting, taking and finishing a task change the work there is. */
  lemma {:induction false} OtherSameWork(s: State, l: Label)
    requires Enabled(s, l) && !l.AddTask? && !l.WorkerGet? && !l.WorkerResume?
    ensures SameWork(s, Apply(s, l))
  {
    if l.CancelTask? {
      CancelSameWork(s, l.id, l.now);
    } else if l.ExecBegin? || l.ExecEnd? {
      ExecSameWork(s, l);
    } else {
      ClientSameWork(s, l);
    }
  }

  lemma {:induction false} TakeNextKeepsWorkers(s: State, w: nat, now: real)
    requires AllGood(s) && WorkersHold(s.workers, s.execs.Keys) && Enabled(s, WorkerGet(w, now))
    ensures WorkersHold(TakeNext(s, w, now).workers, TakeNext(s, w, now).execs.Keys)
  {
    var r := Get(s.queue, now).1;
    if r.Some? {
      var id := r.value.id;
      GetReturnsMin(s.queue, now);
      assert Good(ViewOf(s, id));
      HoldOneMore(s.workers, s.execs.Keys, w, id);
      assert s.execs[id := Created(false)].Keys == s.execs.Keys + {id};
      assert TakeNext(s, w, now).workers == s.workers[w := Awaiting(id)];
      assert TakeNext(s, w, now).execs == s.execs[id := Created(false)];
    }
  }

  lemma {:induction false} ResumeKeepsWorkers(s: State, w: nat, now: real)
    requires WorkersHold(s.workers, s.execs.Keys) && Enabled(s, WorkerResume(w, now))
    ensures WorkersHold(Resume(s, w, now).workers, Resume(s, w, now).execs.Keys)
  {
    var id := s.workers[w].id;
    ResumeParts(s, w, now);
    HoldOneLess(s.workers, s.execs.Keys, w, if s.execs[id].outcome == CancelledEarly then Exited else Idle);
    assert (s.execs - {id}).Keys == s.execs.Keys - {id};
  }

  /** Which workers hold which executions changes only when one is taken or finished. */
  lemma {:induction false} StepKeepsWorkers(s: State, l: Label)
    requires AllGood(s) && WorkersHold(s.workers, s.execs.Keys) && Enabled(s, l)
    ensures WorkersHold(Apply(s, l).workers, Apply(s, l).execs.Keys)
  {
    if l.WorkerGet? {
      TakeNextKeepsWorkers(s, l.w, l.now);
    } else if l.WorkerResume? {
      ResumeKeepsWorkers(s, l.w, l.now);
    } else if !l.AddTask? {
      OtherSameWork(s, l);
    }
  }

  lemma {:induction false} StepKeepsPoolSize(s: State, l: Label)
    requires Enabled(s, l)
    ensures |Apply(s, l).workers| == |s.workers|
  {
    if !l.WorkerGet? && !l.WorkerResume? && !l.AddTask? {
      OtherSameWork(s, l);
    }
  }

  // ---------------------------------------------------------------- join accounting

  lemma {:induction false} WithoutSize<K, V>(m: map<K, V>, ks: set<K>)
    requires ks <= m.Keys
    ensures |m - ks| == |m| - |ks|
  {
    assert (m - ks).Keys == m.Keys - ks;
    SubsetSize(ks, m.Keys);
    assert |m.Keys - ks| == |m.Keys| - |ks|;
  }

  lemma {:induction false} WithSize<K, V>(m: map<K, V>, k: K, v: V)
    requires k !in m
    ensures |m[k := v]| == |m| + 1
  {
    assert m[k := v].Keys == m.Keys + {k};
  }

  /** Taking `r` after dropping `gone` cancelled entries takes that many off the heap. */
  lemma {:induction false} GetSize(q: QueueState, now: real)
    ensures var (q', r) := Get(q, now);
      |q'.heap| - q'.unfinished == |q.heap| - q.unfinished - if r.Some? then 1 else 0
    ensures |Get(q, now).0.heap| <= |q.heap|
    ensures q.heap != map[] ==> |Get(q, now).0.heap| < |q.heap|
  {
    GetReturnsMin(q, now);
    var (q', r) := Get(q, now);
    var gone := Purged(q, r);
    WithoutSize(q.heap, gone);
    assert r.Some? ==> r.value.id !in gone;
    WithoutSize(q.heap - gone, ReturnedIds(r));
    if q.heap != map[] && r.None? {
      var id :| id in q.heap;
      assert id in gone;
    }
  }

  lemma {:induction false} TakeNextBalances(s: State, w: nat, now: real)
    requires AllGood(s) && JoinBalances(s) && w < |s.workers|
    ensures JoinBalances(TakeNext(s, w, now))
  {
    GetSize(s.queue, now);
    var (q, r) := Get(s.queue, now);
    if r.Some? {
      var id := r.value.id;
      GetReturnsMin(s.queue, now);
      assert Good(ViewOf(s, id));
      WithSize(s.execs, id, Created(false));
      assert TakeNext(s, w, now).execs == s.execs[id := Created(false)];
      assert TakeNext(s, w, now).queue == q;
    }
  }

  lemma {:induction false} StepBalances(s: State, l: Label)
    requires AllGood(s) && JoinBalances(s) && Enabled(s, l)
    ensures JoinBalances(Apply(s, l))
  {
    if l.AddTask? {
      assert Good(ViewOf(s, l.item.id));
      WithSize(s.queue.heap, l.item.id, l.item.entry);
    } else if l.WorkerGet? {
      TakeNextBalances(s, l.w, l.now);
    } else if l.WorkerResume? {
      WithoutSize(s.execs, {s.workers[l.w].id});
    } else {
      OtherSameWork(s, l);
      SameKeysSameSize(s.execs, Apply(s, l).execs);
    }
  }

  lemma {:induction false} SameKeysSameSize<K, V>(m: map<K, V>, n: map<K, V>)
    requires m.Keys == n.Keys
    ensures |m| == |n|
  {
    assert |m.Keys| == |m| && |n.Keys| == |n|;
  }

  // ---------------------------------------------------------------- every reachable state

  lemma {:induction false} InitKeeps(n: nat)
    ensures Inv(Init(n))
  {
    var s := Init(n);
    forall id ensures Good(ViewOf(s, id)) {
    }
  }

  lemma {:induction false} StepKeeps(s: State, l: Label)
    requires Inv(s) && Enabled(s, l)
    ensures Inv(Apply(s, l))
  {
    forall id ensures Good(ViewOf(Apply(s, l), id)) {
      StepKeepsGood(s, l, id);
    }
    StepKeepsWorkers(s, l);
    StepBalances(s, l);
  }

  lemma {:induction false} RunKeeps(s: State, ls: seq<Label>, s': State)
    requires Inv(s) && Run(s, ls, s')
    ensures Inv(s') && |s'.workers| == |s.workers|
    decreases |ls|
  {
    if ls != [] {
      StepKeeps(s, ls[0]);
      StepKeepsPoolSize(s, ls[0]);
      RunKeeps(Apply(s, ls[0]), ls[1..], s');
    }
  }

  lemma {:induction false} ReachableKeeps(n: nat, s: State)
    requires Reachable(n, s)
    ensures Inv(s) && |s.workers| == n
  {
    var ls :| Run(Init(n), ls, s);
    InitKeeps(n);
    RunKeeps(Init(n), ls, s);
  }
}
