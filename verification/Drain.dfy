/**
  Draining the queue: once submissions stop, the pool runs out of work, and `join` accounting
  reaches zero, unless every worker has been lost to an early cancellation.
*/
module Drain {
  import opened Common
  import opened Status
  import opened Queue
  import opened Protocol
  import opened ProtocolInvariant

  // ---------------------------------------------------------------- work left to do

  /** The steps a worker still owes the task it holds. */
  function Owed(worker: WorkerState, execs: map<TaskId, ExecState>): nat {
    if worker.Awaiting? && worker.id in execs then
      match execs[worker.id]
      case Created(_) => 3
      case InUser(_) => 2
      case Done(_) => 1
    else 0
  }

  /** Whether a worker has left, or will leave as soon as it resumes. */
  predicate IsLost(worker: WorkerState, execs: map<TaskId, ExecState>) {
    || worker == Exited
    || (worker.Awaiting? && worker.id in execs &&
        (execs[worker.id] == Created(true) || execs[worker.id] == Done(CancelledEarly)))
  }

  /** What is added up over the workers. */
  datatype Tally = StepsOwed | WorkersLost

  function Count(t: Tally, worker: WorkerState, execs: map<TaskId, ExecState>): nat {
    match t
    case StepsOwed => Owed(worker, execs)
    case WorkersLost => if IsLost(worker, execs) then 1 else 0
  }

  function CountAll(t: Tally, workers: seq<WorkerState>, execs: map<TaskId, ExecState>): nat {
    if workers == [] then 0 else Count(t, workers[0], execs) + CountAll(t, workers[1..], execs)
  }

  function Measure(s: State): nat {
    4 * |s.queue.heap| + CountAll(StepsOwed, s.workers, s.execs)
  }

  /** The steps of workers and executions, other than polling an empty queue. */
  predicate IsWork(s: State, l: Label) {
    (l.WorkerGet? && s.queue.heap != map[]) || l.ExecBegin? || l.ExecEnd? || l.WorkerResume?
  }

  lemma {:induction false} CountDiffersAt(
      t: Tally, ws: seq<WorkerState>, execs: map<TaskId, ExecState>, ws': seq<WorkerState>,
      execs': map<TaskId, ExecState>, w: nat)
    requires |ws| == |ws'| && w < |ws|
    requires forall i | 0 <= i < |ws| && i != w :: Count(t, ws[i], execs) == Count(t, ws'[i], execs')
    ensures CountAll(t, ws', execs') - CountAll(t, ws, execs) == Count(t, ws'[w], execs') - Count(t, ws[w], execs)
    decreases |ws|
  {
    if w == 0 {
      SameCount(t, ws[1..], execs, ws'[1..], execs');
    } else {
      CountDiffersAt(t, ws[1..], execs, ws'[1..], execs', w - 1);
    }
  }

  lemma {:induction false} SameCount(
      t: Tally, ws: seq<WorkerState>, execs: map<TaskId, ExecState>, ws': seq<WorkerState>,
      execs': map<TaskId, ExecState>)
    requires |ws| == |ws'|
    requires forall i | 0 <= i < |ws| :: Count(t, ws[i], execs) == Count(t, ws'[i], execs')
    ensures CountAll(t, ws', execs') == CountAll(t, ws, execs)
    decreases |ws|
  {
    if ws != [] {
      SameCount(t, ws[1..], execs, ws'[1..], execs');
    }
  }

  lemma {:induction false} CountOne(t: Tally, ws: seq<WorkerState>, execs: map<TaskId, ExecState>, w: nat)
    requires w < |ws|
    ensures CountAll(t, ws, execs) >= Count(t, ws[w], execs)
    decreases |ws|
  {
    if w > 0 {
      CountOne(t, ws[1..], execs, w - 1);
    }
  }

  lemma {:induction false} CountNothing(t: Tally, ws: seq<WorkerState>, execs: map<TaskId, ExecState>)
    requires forall i | 0 <= i < |ws| :: Count(t, ws[i], execs) == 0
    ensures CountAll(t, ws, execs) == 0
    decreases |ws|
  {
    if ws != [] {
      CountNothing(t, ws[1..], execs);
    }
  }

  // ---------------------------------------------------------------- each step of work uses some up

  lemma {:induction false} CountTaking(
      t: Tally, ws: seq<WorkerState>, execs: map<TaskId, ExecState>, w: nat, id: TaskId)
    requires WorkersHold(ws, execs.Keys) && w < |ws| && ws[w] == Idle && id !in execs
    ensures CountAll(t, ws[w := Awaiting(id)], execs[id := Created(false)]) ==
      CountAll(t, ws, execs) + if t.StepsOwed? then 3 else 0
  {
    CountDiffersAt(t, ws, execs, ws[w := Awaiting(id)], execs[id := Created(false)], w);
  }

  lemma {:induction false} CountChanging(
      t: Tally, ws: seq<WorkerState>, execs: map<TaskId, ExecState>, id: TaskId, e: ExecState)
    requires WorkersHold(ws, execs.Keys) && id in execs
    ensures CountAll(t, ws, execs[id := e]) - CountAll(t, ws, execs) ==
      Count(t, Awaiting(id), execs[id := e]) - Count(t, Awaiting(id), execs)
  {
    assert Awaiting(id) in ws;
    var w :| 0 <= w < |ws| && ws[w] == Awaiting(id);
    CountDiffersAt(t, ws, execs, ws, execs[id := e], w);
  }

  lemma {:induction false} CountFinishing(
      t: Tally, ws: seq<WorkerState>, execs: map<TaskId, ExecState>, w: nat, after: WorkerState)
    requires WorkersHold(ws, execs.Keys) && w < |ws| && ws[w].Awaiting? && !after.Awaiting?
    ensures CountAll(t, ws[w := after], execs - {ws[w].id}) - CountAll(t, ws, execs) ==
      Count(t, after, map[]) - Count(t, ws[w], execs)
  {
    CountDiffersAt(t, ws, execs, ws[w := after], execs - {ws[w].id}, w);
  }

  lemma {:induction false} GetUsesWork(s: State, w: nat, now: real)
    requires Inv(s) && Enabled(s, WorkerGet(w, now)) && s.queue.heap != map[]
    ensures Measure(TakeNext(s, w, now)) < Measure(s)
  {
    GetSize(s.queue, now);
    var (q, r) := Get(s.queue, now);
    var s' := TakeNext(s, w, now);
    assert s'.queue == q;
    if r.Some? {
      var id := r.value.id;
      GetUnder(s.queue, now, id);
      assert id !in s.execs by { assert Good(ViewOf(s, id)); }
      CountTaking(StepsOwed, s.workers, s.execs, w, id);
      assert s'.workers == s.workers[w := Awaiting(id)] && s'.execs == s.execs[id := Created(false)];
    }
  }

  lemma {:induction false} ExecStep(s: State, l: Label)
    requires Enabled(s, l) && (l.ExecBegin? || l.ExecEnd?)
    ensures l.id in s.execs && l.id in Apply(s, l).execs
    ensures Apply(s, l).execs == s.execs[l.id := Apply(s, l).execs[l.id]]
    ensures Owed(Awaiting(l.id), Apply(s, l).execs) < Owed(Awaiting(l.id), s.execs)
  {
  }

  lemma {:induction false} ExecUsesWork(s: State, l: Label)
    requires Inv(s) && Enabled(s, l) && (l.ExecBegin? || l.ExecEnd?)
    ensures Measure(Apply(s, l)) < Measure(s)
  {
    ExecSameWork(s, l);
    ExecStep(s, l);
    CountChanging(StepsOwed, s.workers, s.execs, l.id, Apply(s, l).execs[l.id]);
  }

  lemma {:induction false} ResumeUsesWork(s: State, w: nat, now: real)
    requires Inv(s) && Enabled(s, WorkerResume(w, now))
    ensures Measure(Resume(s, w, now)) < Measure(s)
  {
    ResumeParts(s, w, now);
    CountFinishing(StepsOwed, s.workers, s.execs, w, Resume(s, w, now).workers[w]);
  }

  /** Whatever the scheduler picks, a step of a worker or an execution brings the end closer. */
  lemma {:induction false} WorkDecreases(s: State, l: Label)
    requires Inv(s) && Enabled(s, l) && IsWork(s, l)
    ensures Measure(Apply(s, l)) < Measure(s)
  {
    match l
    case WorkerGet(w, now) => GetUsesWork(s, w, now);
    case WorkerResume(w, now) => ResumeUsesWork(s, w, now);
    case _ => ExecUsesWork(s, l);
  }

  lemma {:induction false} CancelAddsNoWork(s: State, id: TaskId, now: real)
    ensures Measure(Cancel(s, id, now).0) == Measure(s)
  {
    CancelSameWork(s, id, now);
    var s' := Cancel(s, id, now).0;
    forall other | other in s.execs
      ensures Owed(Awaiting(other), s.execs) == Owed(Awaiting(other), s'.execs)
    {
      if id in s.tasks && s.tasks[id].status == Running {
        assert s'.execs == CancelRunning(s, id).0.execs;
      }
    }
    forall i | 0 <= i < |s.workers|
      ensures Count(StepsOwed, s.workers[i], s.execs) == Count(StepsOwed, s.workers[i], s'.execs)
    {
      if s.workers[i].Awaiting? && s.workers[i].id in s.execs {
        assert Owed(Awaiting(s.workers[i].id), s.execs) == Owed(Awaiting(s.workers[i].id), s'.execs);
      }
    }
    SameCount(StepsOwed, s.workers, s.execs, s'.workers, s'.execs);
  }

  /** Short of submitting, no client call, poll or retention pass adds work. */
  lemma {:induction false} OthersAddNoWork(s: State, l: Label)
    requires Enabled(s, l) && !l.AddTask? && !IsWork(s, l)
    ensures Measure(Apply(s, l)) == Measure(s)
  {
    match l
    case CancelTask(id, now) => CancelAddsNoWork(s, id, now);
    case WorkerGet(w, now) => assert TakeNext(s, w, now) == s;
    case _ => ClientSameWork(s, l);
  }

  predicate Submits(ls: seq<Label>) {
    exists i | 0 <= i < |ls| :: ls[i].AddTask?
  }

  ghost function WorkSteps(s: State, ls: seq<Label>): nat
    decreases |ls|
  {
    if ls == [] || !Enabled(s, ls[0]) then 0
    else (if IsWork(s, ls[0]) then 1 else 0) + WorkSteps(Apply(s, ls[0]), ls[1..])
  }

  /** Without submissions, all workers and executions together take at most as many steps as the
      measure says, whatever clients do meanwhile. */
  lemma {:induction false} DrainIsBounded(s: State, ls: seq<Label>, s': State)
    requires Inv(s) && Run(s, ls, s') && !Submits(ls)
    ensures WorkSteps(s, ls) + Measure(s') <= Measure(s)
    decreases |ls|
  {
    if ls != [] {
      var next := Apply(s, ls[0]);
      assert forall i | 0 <= i < |ls[1..]| :: ls[1..][i] == ls[i + 1];
      StepKeeps(s, ls[0]);
      DrainIsBounded(next, ls[1..], s');
      if IsWork(s, ls[0]) {
        WorkDecreases(s, ls[0]);
      } else {
        OthersAddNoWork(s, ls[0]);
      }
    }
  }

  // ---------------------------------------------------------------- where it ends

  predicate Alive(s: State) {
    exists w | 0 <= w < |s.workers| :: s.workers[w] != Exited
  }

  ghost predicate CanWork(s: State) {
    exists l :: Enabled(s, l) && IsWork(s, l)
  }

  lemma {:induction false} BusyWorkerCanWork(s: State, w: nat)
    requires Inv(s) && w < |s.workers| && s.workers[w].Awaiting?
    ensures CanWork(s)
  {
    var id := s.workers[w].id;
    var l := match s.execs[id]
      case Created(_) => ExecBegin(id, None, 0.0)
      case InUser(_) => ExecEnd(id, Returned(PNone), 0.0)
      case Done(_) => WorkerResume(w, 0.0);
    assert Enabled(s, l) && IsWork(s, l);
  }

  /** `join` would return exactly when no work is left. */
  lemma {:induction false} DrainedExactly(s: State)
    requires Inv(s)
    ensures s.queue.unfinished == 0 <==> Measure(s) == 0
    ensures s.queue.unfinished >= |s.queue.heap|
  {
    if s.execs == map[] {
      CountNothing(StepsOwed, s.workers, s.execs);
    } else {
      var id :| id in s.execs;
      assert Awaiting(id) in s.workers;
      var w :| 0 <= w < |s.workers| && s.workers[w] == Awaiting(id);
      CountOne(StepsOwed, s.workers, s.execs, w);
    }
  }

  /** Some worker or execution can take a step if and only if entries are unfinished and a worker
      is left: nothing the clients do can block the pool in any other way. */
  lemma {:induction false} CanWorkExactly(s: State)
    requires Inv(s)
    ensures CanWork(s) <==> s.queue.unfinished > 0 && Alive(s)
  {
    DrainedExactly(s);
    if CanWork(s) {
      var l :| Enabled(s, l) && IsWork(s, l);
      if l.WorkerGet? || l.WorkerResume? {
        assert s.workers[l.w] != Exited;
      } else {
        assert Awaiting(l.id) in s.workers;
      }
      WorkDecreases(s, l);
    } else if s.queue.unfinished > 0 && Alive(s) {
      var w :| 0 <= w < |s.workers| && s.workers[w] != Exited;
      if s.workers[w].Awaiting? {
        BusyWorkerCanWork(s, w);
      } else if s.queue.heap != map[] {
        assert Enabled(s, WorkerGet(w, 0.0)) && IsWork(s, WorkerGet(w, 0.0));
      } else {
        var id :| id in s.execs;
        assert Awaiting(id) in s.workers;
        var v :| 0 <= v < |s.workers| && s.workers[v] == Awaiting(id);
        BusyWorkerCanWork(s, v);
      }
    }
  }

  /** Each `task_done` is matched by a `put`: the counter is positive whenever a worker is about to
      call it, so `asyncio`'s "called too many times" cannot be raised. */
  lemma {:induction false} TaskDoneIsMatched(s: State, w: nat, now: real)
    requires Inv(s) && Enabled(s, WorkerResume(w, now))
    ensures s.queue.unfinished > |s.queue.heap|
    ensures Resume(s, w, now).queue.unfinished == s.queue.unfinished - 1
  {
    assert s.workers[w].id in s.execs.Keys;
    assert |s.execs.Keys| > 0;
  }
}
