/**
  When the locks can deadlock: never with an unbounded queue, and with a bounded one as soon as two
  clients use it, or one client and no worker. Locks are handed over first come, first served, as
  `asyncio` does. No client gives up a call it has begun: a timeout or cancellation of its own, which
  would release what the call holds, is outside this model.
*/
module Deadlock {
  import opened Common
  import opened LockOrder

  /** What an actor still has to do in its current call, and when it got there: an actor that needs a
      lock next is in line for it since then. */
  datatype Actor = Actor(rest: Script, since: nat)

  /** Actors below `workers` are the pool's workers with their executions; the others are clients
      and maintenance tasks. A capacity of 0 is `asyncio`'s unlimited queue. */
  datatype System = System(
    capacity: nat,
    workers: nat,
    actors: seq<Actor>,
    held: map<Lock, nat>,
    items: nat,
    clock: nat)

  /** `PollEnds`: a worker's `get` runs into its own timeout, wherever it waits. */
  datatype Label = Start(a: nat, c: LockOrder.Call) | Advance(a: nat) | PollEnds(a: nat)

  function Idle(capacity: nat, workers: nat, n: nat): System {
    System(capacity, workers, seq(n, i => Actor([], 0)), map[], 0, 1)
  }

  /** The next instruction of an actor is this one. */
  predicate At(s: System, a: nat, i: Instr) {
    a < |s.actors| && s.actors[a].rest != [] && s.actors[a].rest[0] == i
  }

  predicate FirstInLine(s: System, a: nat, l: Lock) {
    a < |s.actors| && forall b | 0 <= b < |s.actors| && At(s, b, Acquire(l)) :: s.actors[a].since <= s.actors[b].since
  }

  predicate Free(s: System, a: nat, i: Instr) {
    match i
    case Acquire(l) => l !in s.held && FirstInLine(s, a, l)
    case PutItem => s.capacity == 0 || s.items < s.capacity
    case TakeItem => s.items > 0
    case _ => true
  }

  predicate Enabled(s: System, l: Label) {
    && l.a < |s.actors|
    && match l
       case Start(a, c) => s.actors[a].rest == [] && (c.WorkerTurn? <==> a < s.workers)
       case Advance(a) => s.actors[a].rest != [] && Free(s, a, s.actors[a].rest[0])
       case PollEnds(a) => a < s.workers && (At(s, a, TakeItem) || At(s, a, Acquire(QueueLock)))
  }

  function To(s: System, a: nat, rest: Script): System
    requires a < |s.actors|
  {
    s.(actors := s.actors[a := Actor(rest, s.clock)], clock := s.clock + 1)
  }

  function HeldAfter(held: map<Lock, nat>, a: nat, i: Instr): map<Lock, nat> {
    match i
    case Acquire(l) => held[l := a]
    case Release(l) => held - {l}
    case _ => held
  }

  function ItemsAfter(items: nat, i: Instr): nat {
    if i.PutItem? then items + 1 else if i.TakeItem? && items > 0 then items - 1 else items
  }

  function Apply(s: System, l: Label): System
    requires Enabled(s, l)
  {
    match l
    case Start(a, c) => To(s, a, ScriptOf(c))
    case PollEnds(a) => To(s, a, [])
    case Advance(a) =>
      var i := s.actors[a].rest[0];
      To(s, a, s.actors[a].rest[1..]).(held := HeldAfter(s.held, a, i), items := ItemsAfter(s.items, i))
  }

  predicate Run(s: System, ls: seq<Label>, s': System)
    decreases |ls|
  {
    if ls == [] then s == s' else Enabled(s, ls[0]) && Run(Apply(s, ls[0]), ls[1..], s')
  }

  ghost predicate Reaches(s: System, s': System) {
    exists ls :: Run(s, ls, s')
  }

  lemma {:induction false} ReachesItself(s: System)
    ensures Reaches(s, s)
  {
    assert Run(s, [], s);
  }

  lemma {:induction false} RunThenStep(s: System, ls: seq<Label>, s': System, l: Label)
    requires Run(s, ls, s') && Enabled(s', l)
    ensures Run(s, ls + [l], Apply(s', l))
    decreases |ls|
  {
    if ls == [] {
      assert [l][1..] == [] && Run(Apply(s, l), [], Apply(s, l));
    } else {
      RunThenStep(Apply(s, ls[0]), ls[1..], s', l);
      assert (ls + [l])[1..] == ls[1..] + [l];
    }
  }

  lemma {:induction false} ReachesStep(s: System, s': System, l: Label)
    requires Reaches(s, s') && Enabled(s', l)
    ensures Reaches(s, Apply(s', l))
  {
    var ls :| Run(s, ls, s');
    RunThenStep(s, ls, s', l);
  }

  // ---------------------------------------------------------------- the discipline, at run time

  function HeldBy(s: System, a: nat): set<Lock> {
    set l | l in s.held && s.held[l] == a
  }

  /** The actor has the rest of a script that keeps the order from the locks it holds and gives them
      all back. A worker takes an item before it needs the queue lock and puts none; a client takes
      none and needs the queue lock before it puts one. */
  predicate Disciplined(s: System, a: nat)
    requires a < |s.actors|
  {
    && After(HeldBy(s, a), s.actors[a].rest) == Some({})
    && s.actors[a].since < s.clock
    && if a < s.workers
       then WorkersRest(s.actors[a].rest) && (At(s, a, Acquire(QueueLock)) ==> HeldBy(s, a) == {})
       else ClientsRest(s.actors[a].rest)
  }

  predicate Inv(s: System) {
    && (forall a | 0 <= a < |s.actors| :: Disciplined(s, a))
    && (forall l | l in s.held :: s.held[l] < |s.actors|)
  }

  lemma {:induction false} IdleKeeps(capacity: nat, workers: nat, n: nat)
    ensures Inv(Idle(capacity, workers, n))
  {
    var s := Idle(capacity, workers, n);
    forall a | 0 <= a < n ensures HeldBy(s, a) == {} {
    }
  }

  lemma {:induction false} OthersKeepDiscipline(s: System, l: Label, a: nat)
    requires Inv(s) && Enabled(s, l) && a < |s.actors| && a != l.a
    ensures Disciplined(Apply(s, l), a)
  {
    var s' := Apply(s, l);
    assert s'.actors[a] == s.actors[a];
    assert Disciplined(s, a) && Disciplined(s, l.a);
    assert HeldBy(s', a) == HeldBy(s, a);
  }

  lemma {:induction false} StartKeepsDiscipline(s: System, l: Label)
    requires Inv(s) && Enabled(s, l) && l.Start?
    ensures Disciplined(Apply(s, l), l.a)
  {
    assert Disciplined(s, l.a);
    assert HeldBy(Apply(s, l), l.a) == HeldBy(s, l.a) == {};
    EveryCallKeepsTheOrder(l.c);
    if l.c.WorkerTurn? {
      WorkersCallIsPart(l.c);
    } else {
      ClientsCallIsTheirs(l.c);
    }
  }

  lemma {:induction false} AdvanceKeepsDiscipline(s: System, l: Label)
    requires Inv(s) && Enabled(s, l) && l.Advance?
    ensures Disciplined(Apply(s, l), l.a)
  {
    var a, s', rest := l.a, Apply(s, l), s.actors[l.a].rest;
    assert Disciplined(s, a);
    var i := rest[0];
    assert HeldBy(s', a) ==
      if i.Acquire? then HeldBy(s, a) + {i.l} else if i.Release? then HeldBy(s, a) - {i.l} else HeldBy(s, a);
    forall k | 0 <= k < |rest[1..]| ensures rest[1..][k] == rest[k + 1] && rest[k + 1] in rest {
    }
    if a < s.workers && At(s', a, Acquire(QueueLock)) {
      assert rest[1] == Acquire(QueueLock);
      assert rest[1 - 1] == TakeItem;
    }
  }

  lemma {:induction false} StepKeeps(s: System, l: Label)
    requires Inv(s) && Enabled(s, l)
    ensures Inv(Apply(s, l)) && SameShape(s, Apply(s, l))
  {
    var s' := Apply(s, l);
    forall a | 0 <= a < |s.actors| ensures Disciplined(s', a) {
      if a != l.a {
        OthersKeepDiscipline(s, l, a);
      } else if l.Start? {
        StartKeepsDiscipline(s, l);
      } else if l.Advance? {
        AdvanceKeepsDiscipline(s, l);
      } else {
        assert Disciplined(s, a) && HeldBy(s', a) == HeldBy(s, a) == {};
      }
    }
  }

  predicate SameShape(s: System, s': System) {
    s'.capacity == s.capacity && s'.workers == s.workers && |s'.actors| == |s.actors|
  }

  lemma {:induction false} RunKeeps(s: System, ls: seq<Label>, s': System)
    requires Inv(s) && Run(s, ls, s')
    ensures Inv(s') && SameShape(s, s')
    decreases |ls|
  {
    if ls != [] {
      StepKeeps(s, ls[0]);
      RunKeeps(Apply(s, ls[0]), ls[1..], s');
    }
  }

  // ---------------------------------------------------------------- someone can step

  lemma {:induction false} HighestRank(ls: set<Lock>) returns (top: Lock)
    requires ls != {}
    ensures top in ls && forall l | l in ls :: Rank(l) <= Rank(top)
    decreases ls
  {
    top :| top in ls;
    var rest := ls - {top};
    if rest != {} {
      var next := HighestRank(rest);
      if Rank(next) > Rank(top) {
        top := next;
      }
    } else {
      assert ls == {top};
    }
  }

  /** Of the actors below `n` that are in line for a lock, one has been there longest. */
  lemma {:induction false} LongestInLine(s: System, l: Lock, a: nat, n: nat) returns (b: nat)
    requires a < n <= |s.actors| && At(s, a, Acquire(l))
    ensures b < n && At(s, b, Acquire(l))
    ensures forall c | 0 <= c < n && At(s, c, Acquire(l)) :: s.actors[b].since <= s.actors[c].since
    decreases n
  {
    b := a;
    if a < n - 1 {
      b := LongestInLine(s, l, a, n - 1);
      if At(s, n - 1, Acquire(l)) && s.actors[n - 1].since < s.actors[b].since {
        b := n - 1;
      }
    } else if exists c :: 0 <= c < n - 1 && At(s, c, Acquire(l)) {
      var c: nat :| c < n - 1 && At(s, c, Acquire(l));
      var b' := LongestInLine(s, l, c, n - 1);
      if s.actors[b'].since < s.actors[b].since {
        b := b';
      }
    }
  }

  /** For a lock nobody holds, whoever is first in line can step. */
  lemma {:induction false} FirstCanStep(s: System, l: Lock, a: nat) returns (b: nat)
    requires At(s, a, Acquire(l)) && l !in s.held
    ensures At(s, b, Acquire(l)) && Enabled(s, Advance(b))
  {
    b := LongestInLine(s, l, a, |s.actors|);
    assert FirstInLine(s, b, l);
  }

  predicate NoPutWaits(s: System) {
    forall a | 0 <= a < |s.actors| && At(s, a, PutItem) :: s.capacity == 0 || s.items < s.capacity
  }

  /** If locks are held and no one waits for a slot, then whoever holds the lock of highest rank, or
      the first in line for the free lock it needs, can step. */
  lemma {:induction false} SomeoneCanStep(s: System) returns (a: nat)
    requires Inv(s) && NoPutWaits(s) && s.held != map[]
    ensures a < |s.actors| && Enabled(s, Advance(a))
  {
    var top := HighestRank(s.held.Keys);
    a := s.held[top];
    assert top in HeldBy(s, a);
    assert Disciplined(s, a);
    var i := s.actors[a].rest[0];
    assert At(s, a, i);
    if i.Acquire? {
      a := FirstCanStep(s, i.l, a);
    }
  }

  function TotalLength(actors: seq<Actor>): nat {
    if actors == [] then 0 else |actors[0].rest| + TotalLength(actors[1..])
  }

  lemma {:induction false} OneShorter(actors: seq<Actor>, a: nat, moved: Actor)
    requires a < |actors| && actors[a].rest != [] && moved.rest == actors[a].rest[1..]
    ensures TotalLength(actors[a := moved]) == TotalLength(actors) - 1
    decreases |actors|
  {
    if a > 0 {
      OneShorter(actors[1..], a - 1, moved);
      assert actors[a := moved][1..] == actors[1..][a - 1 := moved];
    } else {
      assert actors[0 := moved][1..] == actors[1..];
    }
  }

  lemma {:induction false} AdvanceShortens(s: System, a: nat)
    requires Inv(s) && Enabled(s, Advance(a))
    ensures TotalLength(Apply(s, Advance(a)).actors) == TotalLength(s.actors) - 1
    ensures Inv(Apply(s, Advance(a))) && SameShape(s, Apply(s, Advance(a)))
  {
    StepKeeps(s, Advance(a));
    OneShorter(s.actors, a, Actor(s.actors[a].rest[1..], s.clock));
  }

  lemma {:induction false} StepThenRun(s: System, l: Label, ls: seq<Label>, s': System)
    requires Enabled(s, l) && Run(Apply(s, l), ls, s')
    ensures Run(s, [l] + ls, s')
  {
    assert ([l] + ls)[1..] == ls;
  }

  /** From any state, letting actors go on with the calls they have begun frees every lock within as
      many steps as they have instructions left: no one who waits for a lock waits in a circle. */
  lemma {:induction false} LocksCanBeFreed(s: System) returns (ls: seq<Label>, s': System)
    requires Inv(s) && (s.capacity == 0 || |s.actors| <= s.workers)
    ensures Run(s, ls, s') && s'.held == map[]
    ensures |ls| <= TotalLength(s.actors) && forall i | 0 <= i < |ls| :: ls[i].Advance?
    decreases TotalLength(s.actors)
  {
    if s.held == map[] {
      ls, s' := [], s;
    } else {
      forall a | 0 <= a < |s.actors| && At(s, a, PutItem) ensures s.capacity == 0 {
        assert Disciplined(s, a) && s.actors[a].rest[0] in s.actors[a].rest;
      }
      var a := SomeoneCanStep(s);
      AdvanceShortens(s, a);
      var rest;
      rest, s' := LocksCanBeFreed(Apply(s, Advance(a)));
      StepThenRun(s, Advance(a), rest, s');
      ls := [Advance(a)] + rest;
    }
  }

  // ---------------------------------------------------------------- one client, some workers

  /** The only client waits for a slot in a full queue, under the queue lock. */
  predicate Blocked(s: System) {
    At(s, s.workers, PutItem) && s.items == s.capacity
  }

  /** What first come, first served buys: a worker in line for the queue lock behind the client took
      its item after the client got in line, so there is a slot for what the client is going to put. */
  predicate SlotBehind(s: System) {
    && s.items <= s.capacity
    && (At(s, s.workers, PutItem) ==>
        forall w | 0 <= w < s.workers && At(s, w, Acquire(QueueLock)) :: s.items < s.capacity)
    && (At(s, s.workers, Acquire(QueueLock)) ==>
        forall w | 0 <= w < s.workers && At(s, w, Acquire(QueueLock)) ::
          s.actors[s.workers].since <= s.actors[w].since ==> s.items < s.capacity)
  }

  predicate OneClient(s: System) {
    Inv(s) && s.capacity > 0 && s.workers > 0 && |s.actors| == s.workers + 1 && SlotBehind(s)
  }

  lemma {:induction false} ClientKeepsSlot(s: System, l: Label)
    requires OneClient(s) && Enabled(s, l) && l.a == s.workers
    ensures SlotBehind(Apply(s, l))
  {
    var s', rest := Apply(s, l), s.actors[l.a].rest;
    StepKeeps(s, l);
    assert Disciplined(s, l.a) && Disciplined(s', l.a);
    forall w | 0 <= w < s.workers ensures s'.actors[w] == s.actors[w] && s.actors[w].since < s.clock {
      assert Disciplined(s, w);
    }
    if l.Start? {
      assert HeldBy(s', l.a) == HeldBy(s, l.a);
    } else if At(s', l.a, PutItem) {
      assert rest[1] == PutItem && rest[1 - 1] == Acquire(QueueLock);
    }
  }

  lemma {:induction false} WorkerKeepsSlot(s: System, l: Label)
    requires OneClient(s) && Enabled(s, l) && l.a < s.workers
    ensures SlotBehind(Apply(s, l))
  {
    var s', rest := Apply(s, l), s.actors[l.a].rest;
    assert Disciplined(s, l.a);
    assert s'.actors[s.workers] == s.actors[s.workers];
    if l.Start? {
      WorkersCallIsPart(l.c);
    } else if l.Advance? {
      assert rest[0] in rest;
      if At(s', l.a, Acquire(QueueLock)) {
        assert rest[1] == Acquire(QueueLock) && rest[1 - 1] == TakeItem;
      }
    }
    assert s'.items <= s.items && (At(s', l.a, Acquire(QueueLock)) ==> s'.items < s.capacity);
    assert At(s', s.workers, PutItem) ==> At(s, s.workers, PutItem);
    forall w | 0 <= w < s.workers && w != l.a && At(s', w, Acquire(QueueLock)) ensures At(s, w, Acquire(QueueLock)) {
      assert s'.actors[w] == s.actors[w];
    }
  }

  lemma {:induction false} OneClientKeeps(s: System, l: Label)
    requires OneClient(s) && Enabled(s, l)
    ensures OneClient(Apply(s, l)) && SameShape(s, Apply(s, l))
  {
    StepKeeps(s, l);
    if l.a == s.workers {
      ClientKeepsSlot(s, l);
    } else {
      WorkerKeepsSlot(s, l);
    }
  }

  lemma {:induction false} OneClientRunKeeps(s: System, ls: seq<Label>, s': System)
    requires OneClient(s) && Run(s, ls, s')
    ensures OneClient(s')
    decreases |ls|
  {
    if ls != [] {
      OneClientKeeps(s, ls[0]);
      OneClientRunKeeps(Apply(s, ls[0]), ls[1..], s');
    }
  }

  /** While the client waits for a slot, some other actor can step, or an idle worker can start. */
  lemma {:induction false} SomeWorkerCanStep(s: System) returns (a: nat)
    requires OneClient(s) && Blocked(s) && s.actors[0].rest != []
    ensures a < s.workers && Enabled(s, Advance(a))
  {
    var c := s.workers;
    assert Disciplined(s, c) && Disciplined(s, 0);
    assert HeldBy(s, c) == {QueueLock};
    var others := s.held.Keys - {QueueLock};
    a := 0;
    if others != {} {
      var top := HighestRank(others);
      a := s.held[top];
      assert top in HeldBy(s, a);
      assert a != c;
    } else {
      assert HeldBy(s, 0) == {} by {
        assert QueueLock in HeldBy(s, c);
      }
    }
    assert Disciplined(s, a);
    var i := s.actors[a].rest[0];
    assert i in s.actors[a].rest;
    assert At(s, a, i);
    if i.Acquire? {
      assert i.l != QueueLock;
      assert i.l !in s.held;
      a := FirstCanStep(s, i.l, a);
    }
  }

  lemma {:induction false} RunThenRun(s: System, ls: seq<Label>, mid: System, ms: seq<Label>, s': System)
    requires Run(s, ls, mid) && Run(mid, ms, s')
    ensures Run(s, ls + ms, s')
    decreases |ls|
  {
    if ls == [] {
      assert ls + ms == ms;
    } else {
      RunThenRun(Apply(s, ls[0]), ls[1..], mid, ms, s');
      StepThenRun(s, ls[0], ls[1..] + ms, s');
      assert [ls[0]] + (ls[1..] + ms) == ls + ms;
    }
  }

  lemma {:induction false} TurnTakesFirst(id: TaskId)
    ensures ScriptOf(WorkerTurn(id, 0, false)) != [] && ScriptOf(WorkerTurn(id, 0, false))[0] == TakeItem
  {
    TurnSplits(id);
  }

  /** An idle worker takes an item. */
  lemma {:induction false} IdleWorkerTakes(s: System) returns (ls: seq<Label>, s': System)
    requires OneClient(s) && Blocked(s) && s.actors[0].rest == []
    ensures Run(s, ls, s') && OneClient(s') && SameShape(s, s')
    ensures s'.items < s'.capacity && s'.actors[s.workers] == s.actors[s.workers]
  {
    TurnTakesFirst("");
    var l := Start(0, WorkerTurn("", 0, false));
    var s1 := Apply(s, l);
    OneClientKeeps(s, l);
    assert At(s1, 0, TakeItem);
    OneClientKeeps(s1, Advance(0));
    s' := Apply(s1, Advance(0));
    assert Run(s', [], s');
    StepThenRun(s1, Advance(0), [], s');
    ls := [l] + ([Advance(0)] + []);
    StepThenRun(s, l, [Advance(0)] + [], s');
  }

  /** A client that waits for a slot gets one, without a step of its own. */
  lemma {:induction false} SlotOpens(s: System) returns (ls: seq<Label>, s': System)
    requires OneClient(s) && Blocked(s)
    ensures Run(s, ls, s') && OneClient(s') && SameShape(s, s')
    ensures s'.items < s'.capacity && s'.actors[s.workers] == s.actors[s.workers]
    decreases TotalLength(s.actors)
  {
    if s.actors[0].rest == [] {
      ls, s' := IdleWorkerTakes(s);
    } else {
      var a := SomeWorkerCanStep(s);
      var next := Apply(s, Advance(a));
      AdvanceShortens(s, a);
      OneClientKeeps(s, Advance(a));
      var more;
      if next.items < next.capacity {
        more, s' := [], next;
      } else {
        more, s' := SlotOpens(next);
      }
      ls := [Advance(a)] + more;
      StepThenRun(s, Advance(a), more, s');
    }
  }

  /** With one client and at least one worker, every lock can be freed. */
  lemma {:induction false} OneClientFrees(s: System) returns (ls: seq<Label>, s': System)
    requires OneClient(s)
    ensures Run(s, ls, s') && s'.held == map[]
    decreases |s.actors[s.workers].rest|, TotalLength(s.actors)
  {
    if s.held == map[] {
      ls, s' := [], s;
    } else if Blocked(s) {
      var opening, open := SlotOpens(s);
      var put := Advance(s.workers);
      OneClientKeeps(open, put);
      var rest;
      rest, s' := OneClientFrees(Apply(open, put));
      StepThenRun(open, put, rest, s');
      RunThenRun(s, opening, open, [put] + rest, s');
      ls := opening + ([put] + rest);
    } else {
      forall a | 0 <= a < |s.actors| && At(s, a, PutItem) ensures s.items < s.capacity {
        assert Disciplined(s, a) && s.actors[a].rest[0] in s.actors[a].rest;
      }
      var a := SomeoneCanStep(s);
      AdvanceShortens(s, a);
      OneClientKeeps(s, Advance(a));
      var rest;
      rest, s' := OneClientFrees(Apply(s, Advance(a)));
      StepThenRun(s, Advance(a), rest, s');
      ls := [Advance(a)] + rest;
    }
  }

  // ---------------------------------------------------------------- a jam

  /** The queue is full; one client waits for a slot under the queue lock, another waits for that
      lock under the tasks lock to cancel a task. */
  predicate ClientsJammed(s: System, putter: nat, canceller: nat) {
    && s.capacity > 0 && s.items == s.capacity && putter != canceller
    && s.workers <= putter && At(s, putter, PutItem)
    && s.workers <= canceller && At(s, canceller, Acquire(QueueLock))
    && QueueLock in s.held && s.held[QueueLock] == putter
    && TasksLock in s.held && s.held[TasksLock] == canceller
  }

  /** Beside those, every worker waits for the tasks lock to report the end of its task. */
  predicate Jammed(s: System, putter: nat, canceller: nat) {
    ClientsJammed(s, putter, canceller) && forall w | 0 <= w < s.workers :: At(s, w, Acquire(TasksLock))
  }

  lemma {:induction false} StepKeepsJam(s: System, l: Label, putter: nat, canceller: nat)
    requires Inv(s) && Jammed(s, putter, canceller) && Enabled(s, l)
    ensures Jammed(Apply(s, l), putter, canceller)
  {
    assert l.a >= s.workers && l.a != putter && l.a != canceller by {
      assert l.a < s.workers ==> At(s, l.a, Acquire(TasksLock));
    }
    if l.Advance? {
      assert Disciplined(s, l.a);
      assert s.actors[l.a].rest[0] in s.actors[l.a].rest;
      assert QueueLock !in HeldBy(s, l.a) && TasksLock !in HeldBy(s, l.a);
      assert s.actors[l.a].rest[0] != PutItem by {
        assert QueueLock in {QueueLock};
      }
    }
    forall w | 0 <= w < s.workers ensures At(Apply(s, l), w, Acquire(TasksLock)) {
      assert At(s, w, Acquire(TasksLock));
    }
  }

  /** A jam is for ever: whatever else starts or finishes, the two locks are never released and no
      task is ever taken, started or reported again. */
  lemma {:induction false} JamIsForever(s: System, ls: seq<Label>, s': System, putter: nat, canceller: nat)
    requires Inv(s) && Jammed(s, putter, canceller) && Run(s, ls, s')
    ensures Jammed(s', putter, canceller)
    decreases |ls|
  {
    if ls != [] {
      StepKeeps(s, ls[0]);
      StepKeepsJam(s, ls[0], putter, canceller);
      JamIsForever(Apply(s, ls[0]), ls[1..], s', putter, canceller);
    }
  }

  /** Without workers a client that waits for a slot in a full queue does so for ever. */
  predicate Stranded(s: System) {
    s.workers == 0 && s.capacity > 0 && |s.actors| == 1 && Blocked(s)
  }

  lemma {:induction false} StrandedIsForever(s: System, ls: seq<Label>, s': System)
    requires Stranded(s)
    ensures Run(s, ls, s') ==> s' == s
  {
    if ls != [] {
      assert !Enabled(s, ls[0]) by {
        assert At(s, 0, PutItem);
      }
    }
  }

  // ---------------------------------------------------------------- how it comes about

  /** The locks other actors hold. */
  function Others(s: System, a: nat): map<Lock, nat> {
    map l | l in s.held && s.held[l] != a :: s.held[l]
  }

  /** The actor has got to the rest of its script and holds nothing; the others are as they were. */
  predicate Moved(s: System, s': System, a: nat, rest: Script) {
    && SameShape(s, s') && a < |s.actors| && s'.actors[a].rest == rest && s'.held == Others(s, a)
    && forall b | 0 <= b < |s.actors| && b != a :: s'.actors[b] == s.actors[b]
  }

  /** No other actor holds the lock or is in line for it. */
  predicate Unused(s: System, a: nat, l: Lock) {
    && (l in s.held ==> s.held[l] == a)
    && forall b | 0 <= b < |s.actors| && b != a :: !At(s, b, Acquire(l))
  }

  predicate AllUnused(s: System, a: nat, part: Script) {
    forall i | 0 <= i < |part| && part[i].Acquire? :: Unused(s, a, part[i].l)
  }

  lemma {:induction false} StaysUnused(s: System, s': System, a: nat, l: Lock)
    requires Unused(s, a, l) && |s'.actors| == |s.actors|
    requires forall b | 0 <= b < |s.actors| && b != a :: s'.actors[b] == s.actors[b]
    requires l in s'.held && s'.held[l] != a ==> l in s.held && s.held[l] == s'.held[l]
    ensures Unused(s', a, l)
  {
    forall b | 0 <= b < |s.actors| && b != a ensures !At(s', b, Acquire(l)) {
      assert !At(s, b, Acquire(l));
    }
  }

  lemma {:induction false} AdvancesAlone(s: System, a: nat, part: Script, rest: Script)
    requires a < |s.actors| && s.actors[a].rest == part + rest && part != []
    requires AllUnused(s, a, part) && After(HeldBy(s, a), part) == Some({}) && MovesNothing(part)
    ensures Enabled(s, Advance(a))
    ensures var next := Apply(s, Advance(a));
      && SameShape(s, next) && next.actors[a].rest == part[1..] + rest && next.items == s.items
      && (forall b | 0 <= b < |s.actors| && b != a :: next.actors[b] == s.actors[b])
      && AllUnused(next, a, part[1..]) && After(HeldBy(next, a), part[1..]) == Some({})
      && Others(next, a) == Others(s, a)
  {
    var i := part[0];
    assert (part + rest)[0] == i && (part + rest)[1..] == part[1..] + rest && i in part;
    var next := Apply(s, Advance(a));
    assert HeldBy(next, a) ==
      if i.Acquire? then HeldBy(s, a) + {i.l} else if i.Release? then HeldBy(s, a) - {i.l} else HeldBy(s, a);
    forall k | 0 <= k < |part[1..]| && part[1..][k].Acquire? ensures Unused(next, a, part[1..][k].l) {
      assert part[1..][k] == part[k + 1];
      StaysUnused(s, next, a, part[k + 1].l);
    }
  }

  /** An actor runs through a part of its script on its own, while nobody else uses its locks. */
  lemma {:induction false} RunsAlone(s0: System, s: System, a: nat, part: Script, rest: Script) returns (s': System)
    requires Reaches(s0, s) && a < |s.actors| && s.actors[a].rest == part + rest
    requires AllUnused(s, a, part) && After(HeldBy(s, a), part) == Some({}) && MovesNothing(part)
    ensures Reaches(s0, s') && Moved(s, s', a, rest) && s'.items == s.items
    decreases |part|
  {
    if part == [] {
      s' := s;
      assert part + rest == rest;
      assert forall l | l in s.held :: l !in HeldBy(s, a);
    } else {
      AdvancesAlone(s, a, part, rest);
      ReachesStep(s0, s, Advance(a));
      forall x | x in part[1..] ensures x in part {
      }
      s' := RunsAlone(s0, Apply(s, Advance(a)), a, part[1..], rest);
    }
  }

  /** No lock is held, and no one is in line for one or about to take or put an item. */
  predicate Quiet(s: System) {
    && s.held == map[]
    && forall a | 0 <= a < |s.actors| :: s.actors[a].rest == [] || s.actors[a].rest[0] == Await
  }

  lemma {:induction false} QuietIsUnused(s: System, s': System, a: nat, part: Script)
    requires Quiet(s) && a < |s.actors| && SameShape(s, s') && s'.held == map[]
    requires forall b | 0 <= b < |s.actors| && b != a :: s'.actors[b] == s.actors[b]
    ensures AllUnused(s', a, part) && HeldBy(s', a) == {} && Others(s', a) == map[]
  {
  }

  /** The client holds the queue lock and is about to put; nothing else has changed. */
  predicate AboutToPut(s: System, s': System, a: nat) {
    && SameShape(s, s') && a < |s.actors| && s'.actors[a].rest == [PutItem, Release(QueueLock)]
    && s'.held == map[QueueLock := a] && s'.items == s.items
    && forall b | 0 <= b < |s.actors| && b != a :: s'.actors[b] == s.actors[b]
  }

  lemma {:induction false} AddingSplits()
    ensures Adding() == With(TasksLock, []) + [Acquire(QueueLock), PutItem, Release(QueueLock)]
    ensures Keeps({}, With(TasksLock, [])) && MovesNothing(With(TasksLock, []))
  {
    EmptyWithKeeps({}, TasksLock);
  }

  lemma {:induction false} ClientWaitsToPut(s0: System, s: System, a: nat) returns (s': System)
    requires Reaches(s0, s) && Quiet(s) && s.workers <= a < |s.actors| && s.actors[a].rest == []
    ensures Reaches(s0, s') && AboutToPut(s, s', a)
  {
    AddingSplits();
    var rest := [Acquire(QueueLock), PutItem, Release(QueueLock)];
    ReachesStep(s0, s, Start(a, AddTask));
    var s1 := Apply(s, Start(a, AddTask));
    QuietIsUnused(s, s1, a, With(TasksLock, []));
    var s2 := RunsAlone(s0, s1, a, With(TasksLock, []), rest);
    QuietIsUnused(s, s2, a, [rest[0]]);
    assert Unused(s2, a, [rest[0]][0].l);
    ReachesStep(s0, s2, Advance(a));
    s' := Apply(s2, Advance(a));
    assert rest[1..] == [PutItem, Release(QueueLock)];
    assert map[][QueueLock := a] == map[QueueLock := a];
  }

  /** The same state but for the number of items and the times of arrival. */
  predicate SameBut(s: System, s': System, items: nat) {
    && SameShape(s, s') && s'.held == s.held && s'.items == items
    && forall b | 0 <= b < |s.actors| :: s'.actors[b].rest == s.actors[b].rest
  }

  lemma {:induction false} ClientAdds(s0: System, s: System, a: nat) returns (s': System)
    requires Reaches(s0, s) && Quiet(s) && s.workers <= a < |s.actors| && s.actors[a].rest == []
    requires s.items < s.capacity
    ensures Reaches(s0, s') && SameBut(s, s', s.items + 1)
  {
    var s1 := ClientWaitsToPut(s0, s, a);
    ReachesStep(s0, s1, Advance(a));
    var s2 := Apply(s1, Advance(a));
    assert [PutItem, Release(QueueLock)][1..] == [Release(QueueLock)];
    ReachesStep(s0, s2, Advance(a));
    s' := Apply(s2, Advance(a));
    assert [Release(QueueLock)][1..] == [];
    assert s'.held == map[];
  }

  lemma {:induction false} ClientFills(s0: System, s: System, a: nat) returns (s': System)
    requires Reaches(s0, s) && Quiet(s) && s.workers <= a < |s.actors| && s.actors[a].rest == []
    requires s.items <= s.capacity
    ensures Reaches(s0, s') && SameBut(s, s', s.capacity)
    decreases s.capacity - s.items
  {
    if s.items < s.capacity {
      var more := ClientAdds(s0, s, a);
      s' := ClientFills(s0, more, a);
    } else {
      s' := s;
    }
  }

  /** Distinct ids: a task for each worker, and one more that is still queued. */
  function TaskOf(w: nat): TaskId {
    seq(w, i => 't')
  }

  /** Workers below `busy` are waiting for their task's function, and everyone else is idle. */
  predicate Parked(s: System, busy: nat) {
    && s.workers <= |s.actors| && busy <= s.workers && s.held == map[]
    && (forall w | 0 <= w < busy :: s.actors[w].rest == Returning(TaskOf(w)))
    && (forall a | busy <= a < |s.actors| :: s.actors[a].rest == [])
  }

  lemma {:induction false} ParkedIsQuiet(s: System, busy: nat)
    requires Parked(s, busy)
    ensures Quiet(s)
  {
    forall w | 0 <= w < busy ensures s.actors[w].rest[0] == Await {
      ReturningAwaits(TaskOf(w));
    }
  }

  lemma {:induction false} ReturningAwaits(id: TaskId)
    ensures Returning(id) == [Await] + (CacheAccess() + Reporting(id))
    ensures Reporting(id) != [] && Reporting(id)[0] == Acquire(TasksLock)
  {
    var parts := [[Await], CacheAccess(), OnEnded(id), With(RunningLock, [])];
    var last := [OnEnded(id), With(RunningLock, [])];
    assert parts[1..] == [CacheAccess()] + last && parts[1..][1..] == last;
    assert InTurn(parts[1..]) == CacheAccess() + InTurn(last);
    assert InTurn(parts) == [Await] + InTurn(parts[1..]);
    assert last[1..] == [With(RunningLock, [])] && InTurn(last) == OnEnded(id) + InTurn(last[1..]);
  }

  /** What a worker still has to do once the result is stored. */
  function Reporting(id: TaskId): Script {
    InTurn([OnEnded(id), With(RunningLock, [])])
  }

  /** A worker starts a turn and takes the only item. */
  lemma {:induction false} WorkerTakes(s0: System, s: System, w: nat) returns (s': System)
    requires Reaches(s0, s) && w < s.workers <= |s.actors| && s.actors[w].rest == [] && s.items == 1
    ensures Reaches(s0, s') && SameShape(s, s') && s'.held == s.held && s'.items == 0
    ensures s'.actors[w].rest == Beginning(TaskOf(w)) + Returning(TaskOf(w))
    ensures forall b | 0 <= b < |s.actors| && b != w :: s'.actors[b] == s.actors[b]
  {
    var turn := Start(w, WorkerTurn(TaskOf(w), 0, false));
    ReachesStep(s0, s, turn);
    var s1 := Apply(s, turn);
    TurnSplits(TaskOf(w));
    TakesThen(Beginning(TaskOf(w)), Returning(TaskOf(w)));
    ReachesStep(s0, s1, Advance(w));
    s' := Apply(s1, Advance(w));
  }

  lemma {:induction false} TakesThen(part: Script, rest: Script)
    ensures ([TakeItem] + part + rest)[0] == TakeItem && ([TakeItem] + part + rest)[1..] == part + rest
  {
  }

  lemma {:induction false} WorkerParks(s0: System, s: System, w: nat) returns (s': System)
    requires Reaches(s0, s) && Parked(s, w) && w < s.workers < |s.actors| && s.items == 0 < s.capacity
    ensures Reaches(s0, s') && Parked(s', w + 1) && SameShape(s, s') && s'.items == 0
  {
    ParkedIsQuiet(s, w);
    var s1 := ClientAdds(s0, s, s.workers);
    assert Parked(s1, w);
    ParkedIsQuiet(s1, w);
    var s2 := WorkerTakes(s0, s1, w);
    s' := WorkerBegins(s0, s1, s2, w);
    assert Parked(s', w + 1);
  }

  lemma {:induction false} WorkerBegins(s0: System, s: System, s1: System, w: nat) returns (s': System)
    requires Reaches(s0, s1) && Quiet(s) && SameShape(s, s1) && w < |s.actors| && s1.held == map[]
    requires s1.actors[w].rest == Beginning(TaskOf(w)) + Returning(TaskOf(w))
    requires forall b | 0 <= b < |s.actors| && b != w :: s1.actors[b] == s.actors[b]
    ensures Reaches(s0, s') && Moved(s1, s', w, Returning(TaskOf(w))) && s'.items == s1.items && s'.held == map[]
  {
    BeginningKeeps(TaskOf(w));
    BeginningMovesNothing(TaskOf(w));
    QuietIsUnused(s, s1, w, Beginning(TaskOf(w)));
    s' := RunsAlone(s0, s1, w, Beginning(TaskOf(w)), Returning(TaskOf(w)));
  }

  lemma {:induction false} AllWorkersPark(s0: System, s: System, w: nat) returns (s': System)
    requires Reaches(s0, s) && Parked(s, w) && s.workers < |s.actors| && s.items == 0 < s.capacity
    ensures Reaches(s0, s') && Parked(s', s.workers) && SameShape(s, s') && s'.items == 0
    decreases s.workers - w
  {
    if w < s.workers {
      var next := WorkerParks(s0, s, w);
      s' := AllWorkersPark(s0, next, w + 1);
    } else {
      s' := s;
    }
  }

  /** The clients are jammed, and workers below `done` have come back from their task's function. */
  predicate Jamming(s: System, done: nat) {
    var putter, canceller := s.workers, s.workers + 1;
    && ClientsJammed(s, putter, canceller) && done <= s.workers
    && s.held == map[QueueLock := putter, TasksLock := canceller]
    && (forall w | 0 <= w < done :: At(s, w, Acquire(TasksLock)))
    && (forall w | done <= w < s.workers :: s.actors[w].rest == Returning(TaskOf(w)))
    && (forall a | canceller < a < |s.actors| :: s.actors[a].rest == [])
  }

  lemma {:induction false} ClientsJam(s0: System, s: System) returns (s': System)
    requires Reaches(s0, s) && Parked(s, s.workers) && |s.actors| >= s.workers + 2 && s.items == s.capacity > 0
    ensures Reaches(s0, s') && Jamming(s', 0) && SameShape(s, s')
  {
    ParkedIsQuiet(s, s.workers);
    var s1 := ClientWaitsToPut(s0, s, s.workers);
    s' := CancellerWaits(s0, s, s1);
  }

  lemma {:induction false} CancellerWaits(s0: System, s: System, s1: System) returns (s': System)
    requires Reaches(s0, s1) && Parked(s, s.workers) && Quiet(s) && |s.actors| >= s.workers + 2
    requires s.items == s.capacity > 0 && AboutToPut(s, s1, s.workers)
    ensures Reaches(s0, s') && Jamming(s', 0) && SameShape(s, s')
  {
    var c, id := s.workers + 1, TaskOf(s.workers);
    ReachesStep(s0, s1, Start(c, CancelPending(id)));
    var s2 := Apply(s1, Start(c, CancelPending(id)));
    CancellingStarts(id);
    assert s2.actors[c].rest == CancellingPending(id);
    FirstForTasks(s, s2);
    ReachesStep(s0, s2, Advance(c));
    s' := Apply(s2, Advance(c));
  }

  lemma {:induction false} FirstForTasks(s: System, s': System)
    requires Quiet(s) && SameShape(s, s') && |s.actors| >= s.workers + 2
    requires s'.actors[s.workers].rest == [PutItem, Release(QueueLock)]
    requires forall b | 0 <= b < |s.actors| && b != s.workers && b != s.workers + 1 :: s'.actors[b] == s.actors[b]
    ensures FirstInLine(s', s.workers + 1, TasksLock)
  {
    forall b | 0 <= b < |s'.actors| && b != s.workers + 1 ensures !At(s', b, Acquire(TasksLock)) {
      assert b != s.workers ==> s'.actors[b] == s.actors[b];
    }
  }

  lemma {:induction false} CancellingStarts(id: TaskId)
    ensures |CancellingPending(id)| > 1
    ensures CancellingPending(id)[0] == Acquire(TasksLock) && CancellingPending(id)[1] == Acquire(QueueLock)
  {
  }

  lemma {:induction false} WorkerReturns(s0: System, s: System, w: nat) returns (s': System)
    requires Reaches(s0, s) && Jamming(s, w) && w < s.workers
    ensures Reaches(s0, s') && Jamming(s', w + 1) && SameShape(s, s')
  {
    ReturningAwaits(TaskOf(w));
    ReachesStep(s0, s, Advance(w));
    var s1 := Apply(s, Advance(w));
    AwaitsThen(CacheAccess() + Reporting(TaskOf(w)));
    CacheIsUnused(s, s1, w);
    s' := WorkerStores(s0, s1, w);
    assert Others(s1, w) == s.held;
    StillJamming(s, s', w);
  }

  lemma {:induction false} AwaitsThen(rest: Script)
    ensures ([Await] + rest)[1..] == rest
  {
  }

  lemma {:induction false} WorkerStores(s0: System, s: System, w: nat) returns (s': System)
    requires Reaches(s0, s) && w < |s.actors| && s.actors[w].rest == CacheAccess() + Reporting(TaskOf(w))
    requires HeldBy(s, w) == {} && AllUnused(s, w, CacheAccess())
    ensures Reaches(s0, s') && Moved(s, s', w, Reporting(TaskOf(w))) && s'.items == s.items
  {
    CacheAccessKeeps();
    s' := RunsAlone(s0, s, w, CacheAccess(), Reporting(TaskOf(w)));
  }

  lemma {:induction false} StillJamming(s: System, s': System, w: nat)
    requires Jamming(s, w) && w < s.workers && SameShape(s, s') && s'.held == s.held && s'.items == s.items
    requires s'.actors[w].rest == Reporting(TaskOf(w))
    requires forall b | 0 <= b < |s.actors| && b != w :: s'.actors[b] == s.actors[b]
    ensures Jamming(s', w + 1)
  {
    ReturningAwaits(TaskOf(w));
    forall v | 0 <= v < w + 1 ensures At(s', v, Acquire(TasksLock)) {
      assert v < w ==> At(s, v, Acquire(TasksLock));
    }
  }

  lemma {:induction false} CacheIsUnused(s: System, s1: System, w: nat)
    requires Jamming(s, w) && w < s.workers && SameShape(s, s1) && s1.held == s.held
    requires forall b | 0 <= b < |s.actors| && b != w :: s1.actors[b] == s.actors[b]
    ensures AllUnused(s1, w, CacheAccess()) && HeldBy(s1, w) == {}
  {
    forall b, l | 0 <= b < |s.actors| && b != w && (l == MapLock || l == MemoryLock) ensures !At(s1, b, Acquire(l)) {
      if b < w {
        assert At(s, b, Acquire(TasksLock));
      } else if b < s.workers {
        ReturningAwaits(TaskOf(b));
      }
    }
  }

  lemma {:induction false} AllWorkersReturn(s0: System, s: System, w: nat) returns (s': System)
    requires Reaches(s0, s) && Jamming(s, w)
    ensures Reaches(s0, s') && Jammed(s', s.workers, s.workers + 1)
    decreases s.workers - w
  {
    if w < s.workers {
      var next := WorkerReturns(s0, s, w);
      s' := AllWorkersReturn(s0, next, w + 1);
    } else {
      s' := s;
    }
  }

  /** A bounded queue can jam with two clients, whatever its size and the number of workers. */
  lemma {:induction false} BoundedQueueCanJam(capacity: nat, workers: nat, n: nat) returns (s: System)
    requires capacity > 0 && n >= workers + 2
    ensures Reaches(Idle(capacity, workers, n), s) && Jammed(s, workers, workers + 1)
  {
    var s0 := Idle(capacity, workers, n);
    ReachesItself(s0);
    var s1 := AllWorkersPark(s0, s0, 0);
    ParkedIsQuiet(s1, workers);
    var s2 := ClientFills(s0, s1, workers);
    var s3 := ClientsJam(s0, s2);
    s := AllWorkersReturn(s0, s3, 0);
  }

  /** Without workers one client is enough. */
  lemma {:induction false} ClientCanStrand(capacity: nat) returns (s: System)
    requires capacity > 0
    ensures Reaches(Idle(capacity, 0, 1), s) && Stranded(s) && s.held != map[]
  {
    var s0 := Idle(capacity, 0, 1);
    ReachesItself(s0);
    var s1 := ClientFills(s0, s0, 0);
    s := ClientWaitsToPut(s0, s1, 0);
    assert QueueLock in s.held;
  }

  // ---------------------------------------------------------------- the exact condition

  /** From this state it is still possible that every lock is released. */
  ghost predicate CanFree(s: System) {
    exists s' :: Reaches(s, s') && s'.held == map[]
  }

  ghost predicate AlwaysCanFree(s: System) {
    forall s' :: Reaches(s, s') ==> CanFree(s')
  }

  lemma {:induction false} NeverJams(capacity: nat, workers: nat, n: nat)
    requires capacity == 0 || n <= workers || (n == workers + 1 && workers > 0)
    ensures AlwaysCanFree(Idle(capacity, workers, n))
  {
    var s0 := Idle(capacity, workers, n);
    IdleKeeps(capacity, workers, n);
    forall s | Reaches(s0, s) ensures CanFree(s) {
      var ls :| Run(s0, ls, s);
      RunKeeps(s0, ls, s);
      var more, s';
      if capacity == 0 || n <= workers {
        more, s' := LocksCanBeFreed(s);
      } else {
        OneClientRunKeeps(s0, ls, s);
        more, s' := OneClientFrees(s);
      }
      assert Reaches(s, s');
    }
  }

  lemma {:induction false} TwoClientsJam(capacity: nat, workers: nat, n: nat)
    requires capacity > 0 && n >= workers + 2
    ensures !AlwaysCanFree(Idle(capacity, workers, n))
  {
    var s0 := Idle(capacity, workers, n);
    var s := BoundedQueueCanJam(capacity, workers, n);
    IdleKeeps(capacity, workers, n);
    var ls :| Run(s0, ls, s);
    RunKeeps(s0, ls, s);
    if CanFree(s) {
      var s' :| Reaches(s, s') && s'.held == map[];
      var more :| Run(s, more, s');
      JamIsForever(s, more, s', workers, workers + 1);
    }
  }

  lemma {:induction false} OneClientAloneJams(capacity: nat)
    requires capacity > 0
    ensures !AlwaysCanFree(Idle(capacity, 0, 1))
  {
    var s := ClientCanStrand(capacity);
    if CanFree(s) {
      var s' :| Reaches(s, s') && s'.held == map[];
      var more :| Run(s, more, s');
      StrandedIsForever(s, more, s');
    }
  }

  /** The locks can always be freed again if and only if the queue is unbounded, or no client uses
      it, or there is one client and at least one worker. */
  lemma {:induction false} DeadlockFreeExactly(capacity: nat, workers: nat, n: nat)
    ensures AlwaysCanFree(Idle(capacity, workers, n)) <==>
      capacity == 0 || n <= workers || (n == workers + 1 && workers > 0)
  {
    if capacity == 0 || n <= workers || (n == workers + 1 && workers > 0) {
      NeverJams(capacity, workers, n);
    } else if n >= workers + 2 {
      TwoClientsJam(capacity, workers, n);
    } else {
      OneClientAloneJams(capacity);
    }
  }
}
