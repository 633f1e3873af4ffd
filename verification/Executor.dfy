/**
  Executing a task with the result cache (`executor.py`), any number of executions at a time.

  An execution looks in the cache up to its call of the user's function and stores the result when
  that returns; between the two, other executions and other uses of the cache take place.
*/
module Executor {
  import opened Common
  import opened MemoryCache
  import opened AsyncCaching

  /** What `execute_task` is given; the two options default to caching and to the task's own id. */
  datatype Request = Request(
    task: TaskId,
    call: Call,
    useCache: Option<bool>,
    cacheTtl: Option<real>,
    cacheEntryId: Option<EntryId>)

  /** How the user's function ended; a time limit is as it is printed. */
  datatype UserOutcome = UserReturned | UserRaised(message: string) | UserCancelled | TimedOut(limit: string)

  datatype ExecResult =
    | Value(value: PyValue)
    | TaskExecutionError(message: string)
    | TaskCancellationError
    | TaskTimeoutError(limit: string)

  /** What the completion callback is told. */
  datatype Completion = Completion(n: TaskId, value: PyValue, fromCache: bool)

  /** An execution waiting for the user's function; `caching` is the local `use_cache`. */
  datatype Flight = Flight(request: Request, caching: bool)

  datatype World = World(
    cache: Cache,
    flights: map<TaskId, Flight>,
    requests: map<TaskId, Request>,
    results: map<TaskId, ExecResult>,
    fired: seq<Completion>)

  /** The functions under consideration: what each call returns when it returns, and the key made for
      each request. */
  datatype Program = Program(result: Call -> PyValue, keyOf: Request -> KeyOutcome, packer: Packer)

  function WantsCache(r: Request): bool {
    if r.useCache.Some? then r.useCache.value else true
  }

  function EntryOf(r: Request): EntryId {
    if r.cacheEntryId.Some? then r.cacheEntryId.value else r.task
  }

  datatype Label =
    | Begin(n: TaskId, request: Request, now: real)
    | End(n: TaskId, outcome: UserOutcome, now: real, stamp: real)
    | Other(op: CacheOp)

  function Finished(w: World, n: TaskId, result: ExecResult, fromCache: bool): World {
    w.(flights := w.flights - {n},
       results := w.results[n := result],
       fired := if result.Value? then w.fired + [Completion(n, result.value, fromCache)] else w.fired)
  }

  function Look(p: Program, w: World, n: TaskId, r: Request, now: real): World {
    var known := w.(requests := w.requests[n := r]);
    if !WantsCache(r) || !w.cache.enabled then known.(flights := w.flights[n := Flight(r, WantsCache(r))])
    else
      var (cache, hit) := Get(w.cache, p.keyOf(r), Some(EntryOf(r)), now);
      match hit
      case Err(_) => known.(flights := w.flights[n := Flight(r, false)])
      case Ok(None) => known.(cache := cache, flights := w.flights[n := Flight(r, true)])
      case Ok(Some(v)) => Finished(known.(cache := cache), n, Value(v), true)
  }

  ghost function Land(p: Program, w: World, n: TaskId, outcome: UserOutcome, now: real, stamp: real): World
    requires n in w.flights
  {
    match outcome
    case TimedOut(limit) => Finished(w, n, TaskTimeoutError(limit), false)
    case UserCancelled => Finished(w, n, TaskCancellationError, false)
    case UserRaised(message) => Finished(w, n, TaskExecutionError(message), false)
    case UserReturned =>
      var Flight(r, caching) := w.flights[n];
      var value := p.result(r.call);
      var stored :=
        if caching && w.cache.enabled then
          w.(cache := Set(w.cache, p.keyOf(r), Some(EntryOf(r)), value, r.cacheTtl, p.packer, now, stamp).0)
        else w;
      Finished(stored, n, Value(value), false)
  }

  /** Everyone else may read, invalidate, clear, clean up and switch the cache, but results are
      stored by executions alone. */
  ghost predicate Enabled(w: World, l: Label) {
    match l
    case Begin(n, _, _) => n !in w.requests
    case End(n, _, _, _) => n in w.flights
    case Other(op) => Proper(op) && !op.SetOp?
  }

  ghost function Apply(p: Program, w: World, l: Label): World
    requires Enabled(w, l)
  {
    match l
    case Begin(n, r, now) => Look(p, w, n, r, now)
    case End(n, outcome, now, stamp) => Land(p, w, n, outcome, now, stamp)
    case Other(op) => w.(cache := AsyncCaching.Perform(w.cache, op))
  }

  ghost predicate Run(p: Program, w: World, ls: seq<Label>, w': World)
    decreases |ls|
  {
    if ls == [] then w == w' else Enabled(w, ls[0]) && Run(p, Apply(p, w, ls[0]), ls[1..], w')
  }

  function Fresh(config: Config, maxSize: Option<int>): World {
    World(Cache(EmptyStore(maxSize), config, true, map[], {}), map[], map[], map[], [])
  }

  // ---------------------------------------------------------------- what is in the cache

  /** A request whose result can be stored under this key. */
  ghost predicate StoresUnder(p: Program, config: Config, r: Request, key: Key) {
    KeyOf(config, p.keyOf(r)) == Ok(key) && Storable(config, p.result(r.call), p.packer)
  }

  ghost predicate Honest(p: Program, config: Config, key: Key, value: PyValue) {
    exists r :: StoresUnder(p, config, r, key) && value == p.result(r.call)
  }

  /** Every entry is the result of some call with that key. */
  ghost predicate Sound(p: Program, c: Cache) {
    forall k | k in c.store.entries :: Honest(p, c.config, k, c.store.entries[k].value)
  }

  /** Equal keys mean equal results, wherever the first is one the cache would store. */
  ghost predicate KeysSeparate(p: Program, config: Config) {
    forall a, b, key | StoresUnder(p, config, a, key) && KeyOf(config, p.keyOf(b)) == Ok(key) ::
      p.result(a.call) == p.result(b.call)
  }

  lemma {:induction false} KeysCollide(p: Program, config: Config) returns (a: Request, b: Request, key: Key)
    requires !KeysSeparate(p, config)
    ensures StoresUnder(p, config, a, key) && KeyOf(config, p.keyOf(b)) == Ok(key)
    ensures p.result(a.call) != p.result(b.call)
  {
    a, b, key :| StoresUnder(p, config, a, key) && KeyOf(config, p.keyOf(b)) == Ok(key) &&
      p.result(a.call) != p.result(b.call);
  }

  lemma {:induction false} InsertAddsOne(s: Store, key: Key, value: PyValue, ttl: Option<real>, now: real, stamp: real)
    ensures var s' := Insert(s, key, value, ttl, now, stamp);
      && key in s'.entries && s'.entries[key].value == value
      && forall k | k in s'.entries && k != key :: k in s.entries && s'.entries[k] == s.entries[k]
  {
  }

  /** Short of a `set`, an operation on the cache adds no entry and changes none. */
  lemma {:induction false} OthersOnlyDrop(c: Cache, op: CacheOp)
    requires Proper(op) && !op.SetOp?
    ensures var c' := AsyncCaching.Perform(c, op);
      && c'.config == c.config
      && forall k | k in c'.store.entries :: k in c.store.entries && c'.store.entries[k] == c.store.entries[k]
  {
    if op.CleanupOp? {
      ProbesExactly(c.store, c.ids, op.order, op.times);
    }
  }

  lemma {:induction false} SetKeepsSound(
      p: Program, c: Cache, r: Request, id: Option<EntryId>, now: real, stamp: real)
    requires Sound(p, c)
    ensures var c' := Set(c, p.keyOf(r), id, p.result(r.call), r.cacheTtl, p.packer, now, stamp).0;
      Sound(p, c') && c'.config == c.config
  {
    var value := p.result(r.call);
    var key := KeyOf(c.config, p.keyOf(r));
    if c.enabled && Storable(c.config, value, p.packer) && key.Ok? {
      var ttl := if r.cacheTtl.Some? then r.cacheTtl else c.config.defaultTtl;
      InsertAddsOne(c.store, key.value, value, ttl, now, stamp);
      assert StoresUnder(p, c.config, r, key.value);
    }
  }

  lemma {:induction false} StepKeepsSound(p: Program, w: World, l: Label)
    requires Sound(p, w.cache) && Enabled(w, l)
    ensures Sound(p, Apply(p, w, l).cache) && Apply(p, w, l).cache.config == w.cache.config
  {
    match l
    case Begin(n, r, now) =>
      if WantsCache(r) && w.cache.enabled {
        OthersOnlyDrop(w.cache, CacheOp.GetOp(p.keyOf(r), Some(EntryOf(r)), now));
      }
    case End(n, outcome, now, stamp) =>
      var r := w.flights[n].request;
      SetKeepsSound(p, w.cache, r, Some(EntryOf(r)), now, stamp);
    case Other(op) => OthersOnlyDrop(w.cache, op);
  }

  // ---------------------------------------------------------------- what comes back

  /** What the callback was told about an execution, in order. */
  function Told(fired: seq<Completion>, n: TaskId): seq<PyValue> {
    if fired == [] then [] else
      var last := fired[|fired| - 1];
      Told(fired[..|fired| - 1], n) + if last.n == n then [last.value] else []
  }

  lemma {:induction false} ToldMore(fired: seq<Completion>, c: Completion, n: TaskId)
    ensures Told(fired + [c], n) == Told(fired, n) + if c.n == n then [c.value] else []
  {
    assert (fired + [c])[..|fired|] == fired;
  }

  /** The callback has been called once for an execution that returned, and never for another. */
  predicate ToldOnce(w: World, n: TaskId) {
    Told(w.fired, n) == if n in w.results && w.results[n].Value? then [w.results[n].value] else []
  }

  predicate Tracks(w: World, n: TaskId) {
    && (n in w.flights ==> n in w.requests && n !in w.results && w.flights[n].request == w.requests[n])
    && (n in w.results ==> n in w.requests)
  }

  lemma {:induction false} FinishedTells(w: World, m: TaskId, result: ExecResult, fromCache: bool, n: TaskId)
    requires ToldOnce(w, n) && m !in w.results
    ensures ToldOnce(Finished(w, m, result, fromCache), n)
  {
    if result.Value? {
      ToldMore(w.fired, Completion(m, result.value, fromCache), n);
    }
  }

  lemma {:induction false} LookTells(p: Program, w: World, m: TaskId, r: Request, now: real, n: TaskId)
    requires ToldOnce(w, n) && m !in w.results
    ensures ToldOnce(Look(p, w, m, r, now), n)
  {
    var w' := Look(p, w, m, r, now);
    if WantsCache(r) && w.cache.enabled {
      var (cache, hit) := Get(w.cache, p.keyOf(r), Some(EntryOf(r)), now);
      if hit.Ok? && hit.value.Some? {
        FinishedTells(w.(requests := w.requests[m := r], cache := cache), m, Value(hit.value.value), true, n);
      }
    }
  }

  lemma {:induction false} LandTells(
      p: Program, w: World, m: TaskId, outcome: UserOutcome, now: real, stamp: real, n: TaskId)
    requires ToldOnce(w, n) && m in w.flights && m !in w.results
    ensures ToldOnce(Land(p, w, m, outcome, now, stamp), n)
  {
    var w' := Land(p, w, m, outcome, now, stamp);
    FinishedTells(w.(cache := w'.cache), m, w'.results[m], false, n);
  }

  lemma {:induction false} StepTells(p: Program, w: World, l: Label, n: TaskId)
    requires ToldOnce(w, n) && Enabled(w, l) && (forall m :: Tracks(w, m))
    ensures ToldOnce(Apply(p, w, l), n)
  {
    match l
    case Begin(m, r, now) =>
      assert Tracks(w, m);
      LookTells(p, w, m, r, now, n);
    case End(m, outcome, now, stamp) =>
      assert Tracks(w, m);
      LandTells(p, w, m, outcome, now, stamp, n);
    case Other(op) =>
  }

  lemma {:induction false} StepTracks(p: Program, w: World, l: Label, n: TaskId)
    requires Tracks(w, n) && Enabled(w, l)
    ensures Tracks(Apply(p, w, l), n)
  {
  }

  /** An execution that has returned has returned what its function returns. */
  ghost predicate Right(p: Program, w: World, n: TaskId) {
    n in w.results && w.results[n].Value? ==>
      n in w.requests && w.results[n].value == p.result(w.requests[n].call)
  }

  lemma {:induction false} HitIsRight(p: Program, c: Cache, r: Request, now: real)
    requires Sound(p, c) && KeysSeparate(p, c.config)
    ensures var hit := Get(c, p.keyOf(r), Some(EntryOf(r)), now).1;
      hit.Ok? && hit.value.Some? ==> hit.value.value == p.result(r.call)
  {
    var hit := Get(c, p.keyOf(r), Some(EntryOf(r)), now).1;
    if hit.Ok? && hit.value.Some? {
      var key := KeyOf(c.config, p.keyOf(r)).value;
      assert Honest(p, c.config, key, hit.value.value);
      var a :| StoresUnder(p, c.config, a, key) && hit.value.value == p.result(a.call);
      assert p.result(a.call) == p.result(r.call);
    }
  }

  lemma {:induction false} StepRight(p: Program, w: World, l: Label, n: TaskId)
    requires Sound(p, w.cache) && KeysSeparate(p, w.cache.config)
    requires Right(p, w, n) && Tracks(w, n) && Enabled(w, l)
    ensures Right(p, Apply(p, w, l), n)
  {
    if l.Begin? && l.n == n {
      HitIsRight(p, w.cache, l.request, l.now);
    }
  }

  /** Everything the executor promises about one execution. */
  ghost predicate Kept(p: Program, w: World, n: TaskId) {
    Right(p, w, n) && ToldOnce(w, n)
  }

  ghost predicate Inv(p: Program, w: World) {
    Sound(p, w.cache) && forall n :: Tracks(w, n) && Kept(p, w, n)
  }

  lemma {:induction false} RunKeeps(p: Program, w: World, ls: seq<Label>, w': World)
    requires Inv(p, w) && KeysSeparate(p, w.cache.config) && Run(p, w, ls, w')
    ensures Inv(p, w')
    decreases |ls|
  {
    if ls != [] {
      var next := Apply(p, w, ls[0]);
      StepKeepsSound(p, w, ls[0]);
      forall n ensures Tracks(next, n) && Kept(p, next, n) {
        assert Tracks(w, n) && Kept(p, w, n);
        StepTracks(p, w, ls[0], n);
        StepRight(p, w, ls[0], n);
        assert forall m :: Tracks(w, m);
        StepTells(p, w, ls[0], n);
      }
      RunKeeps(p, next, ls[1..], w');
    }
  }

  /** The callback fires exactly once for each normal return and never for an error, whatever the
      keys are like. */
  lemma {:induction false} CompletionFiresOnce(p: Program, w: World, ls: seq<Label>, w': World, n: TaskId)
    requires (forall m :: Tracks(w, m)) && ToldOnce(w, n) && Run(p, w, ls, w')
    ensures ToldOnce(w', n)
    decreases |ls|
  {
    if ls != [] {
      StepTells(p, w, ls[0], n);
      forall m ensures Tracks(Apply(p, w, ls[0]), m) {
        StepTracks(p, w, ls[0], m);
      }
      CompletionFiresOnce(p, Apply(p, w, ls[0]), ls[1..], w', n);
    }
  }

  // ---------------------------------------------------------------- the exact condition

  /** Caching cannot be told from running the function every time. */
  ghost predicate Transparent(p: Program, config: Config, maxSize: Option<int>) {
    forall ls, w, n | Run(p, Fresh(config, maxSize), ls, w) :: Right(p, w, n)
  }

  /** With nothing in the cache a first execution calls its function. */
  lemma {:induction false} FirstMisses(p: Program, config: Config, maxSize: Option<int>, a: Request, key: Key)
    returns (w: World)
    requires KeyOf(config, p.keyOf(a)) == Ok(key) && a.useCache == Some(true)
    ensures w == Look(p, Fresh(config, maxSize), "first", a, 1.0)
    ensures w.flights == map["first" := Flight(a, true)] && w.results == map[] && w.requests == map["first" := a]
    ensures w.cache.enabled && w.cache.config == config
  {
    w := Look(p, Fresh(config, maxSize), "first", a, 1.0);
  }

  /** It stores its result under its key, for a long time. */
  lemma {:induction false} FirstStores(p: Program, config: Config, maxSize: Option<int>, a: Request, key: Key)
    returns (w: World)
    requires StoresUnder(p, config, a, key) && a.useCache == Some(true) && a.cacheTtl == Some(100.0)
    requires "first" in Look(p, Fresh(config, maxSize), "first", a, 1.0).flights
    ensures w == Land(p, Look(p, Fresh(config, maxSize), "first", a, 1.0), "first", UserReturned, 2.0, 3.0)
    ensures w.results == map["first" := Value(p.result(a.call))] && w.requests.Keys == {"first"} && w.flights == map[]
    ensures w.cache.enabled && w.cache.config == config
    ensures key in w.cache.store.entries && w.cache.store.entries[key] == Cached(p.result(a.call), Some(102.0))
  {
    var w1 := FirstMisses(p, config, maxSize, a, key);
    w := Land(p, w1, "first", UserReturned, 2.0, 3.0);
    InsertAddsOne(w1.cache.store, key, p.result(a.call), a.cacheTtl, 2.0, 3.0);
  }

  /** A stored result is served to another call with its key. */
  lemma {:induction false} SecondIsServed(p: Program, w: World, b: Request, key: Key, value: PyValue)
    returns (w': World)
    requires w.cache.enabled && KeyOf(w.cache.config, p.keyOf(b)) == Ok(key) && b.useCache == Some(true)
    requires key in w.cache.store.entries && w.cache.store.entries[key] == Cached(value, Some(102.0))
    ensures w' == Look(p, w, "second", b, 4.0)
    ensures "second" in w'.results && w'.results["second"] == Value(value)
    ensures "second" in w'.requests && w'.requests["second"] == b
  {
    w' := Look(p, w, "second", b, 4.0);
  }

  lemma {:induction false} RunThenStep(p: Program, w: World, ls: seq<Label>, w': World, l: Label)
    requires Run(p, w, ls, w') && Enabled(w', l)
    ensures Run(p, w, ls + [l], Apply(p, w', l))
    decreases |ls|
  {
    if ls == [] {
      assert [l][1..] == [] && Run(p, Apply(p, w, l), [], Apply(p, w, l));
    } else {
      RunThenStep(p, Apply(p, w, ls[0]), ls[1..], w', l);
      assert (ls + [l])[1..] == ls[1..] + [l];
    }
  }

  lemma {:induction false} SharedKeyShows(
      p: Program, config: Config, maxSize: Option<int>, a: Request, b: Request, key: Key)
    requires StoresUnder(p, config, a, key) && KeyOf(config, p.keyOf(b)) == Ok(key)
    requires a.useCache == Some(true) && a.cacheTtl == Some(100.0) && b.useCache == Some(true)
    requires p.result(a.call) != p.result(b.call)
    ensures !Transparent(p, config, maxSize)
  {
    var w0 := Fresh(config, maxSize);
    var w1 := FirstMisses(p, config, maxSize, a, key);
    var w2 := FirstStores(p, config, maxSize, a, key);
    var w3 := SecondIsServed(p, w2, b, key, p.result(a.call));
    var l1, l2, l3 := Begin("first", a, 1.0), End("first", UserReturned, 2.0, 3.0), Begin("second", b, 4.0);
    RunOfThree(p, w0, l1, l2, l3);
    assert !Right(p, w3, "second");
  }

  lemma {:induction false} RunOfThree(p: Program, w: World, a: Label, b: Label, c: Label)
    requires Enabled(w, a) && Enabled(Apply(p, w, a), b) && Enabled(Apply(p, Apply(p, w, a), b), c)
    ensures Run(p, w, [] + [a] + [b] + [c], Apply(p, Apply(p, Apply(p, w, a), b), c))
  {
    assert Run(p, w, [], w);
    RunThenStep(p, w, [], w, a);
    RunThenStep(p, w, [] + [a], Apply(p, w, a), b);
    RunThenStep(p, w, [] + [a] + [b], Apply(p, Apply(p, w, a), b), c);
  }

  lemma {:induction false} SeparateKeysAreTransparent(p: Program, config: Config, maxSize: Option<int>)
    requires KeysSeparate(p, config)
    ensures Transparent(p, config, maxSize)
  {
    forall ls, w, n | Run(p, Fresh(config, maxSize), ls, w) ensures Right(p, w, n) {
      RunKeeps(p, Fresh(config, maxSize), ls, w);
      assert Kept(p, w, n);
    }
  }

  /** Every run returns what the functions return if and only if equal keys mean equal results. */
  lemma {:induction false} TransparentExactly(p: Program, config: Config, maxSize: Option<int>)
    requires forall r: Request, u, t :: p.keyOf(r.(useCache := u, cacheTtl := t)) == p.keyOf(r)
    ensures Transparent(p, config, maxSize) <==> KeysSeparate(p, config)
  {
    if KeysSeparate(p, config) {
      SeparateKeysAreTransparent(p, config, maxSize);
    } else {
      var a, b, key := KeysCollide(p, config);
      var a' := a.(useCache := Some(true), cacheTtl := Some(100.0));
      var b' := b.(useCache := Some(true), cacheTtl := b.cacheTtl);
      assert p.keyOf(a') == p.keyOf(a) && p.keyOf(b') == p.keyOf(b);
      SharedKeyShows(p, config, maxSize, a', b', key);
    }
  }

  // ---------------------------------------------------------------- the worker's own key

  function Context(r: Request): map<string, string> {
    map["fn_name" := r.call.func, "args" := r.call.args, "kwargs" := r.call.kwargs, "entry_id" := EntryOf(r)]
  }

  /** `extract_key_component` of a path without dots. */
  function Extract(path: string, context: map<string, string>): string {
    if path in context then context[path] else "none"
  }

  function Joined(parts: seq<string>): string {
    if parts == [] then "" else if |parts| == 1 then parts[0] else parts[0] + ":" + Joined(parts[1..])
  }

  /** The key `add_task` prescribes: it asks for `func_name`, which the context does not have. */
  function WorkerKey(r: Request): KeyOutcome {
    Made(Joined([Extract("func_name", Context(r)), Extract("args", Context(r)), Extract("kwargs", Context(r))]))
  }

  /** Two functions called with the same arguments share the worker's key. */
  lemma {:induction false} WorkerKeyIgnoresFunction(r: Request, func: string)
    ensures WorkerKey(r.(call := r.call.(func := func))) == WorkerKey(r)
  {
    assert |"func_name"| == 9 && |"fn_name"| == 7 && |"args"| == 4 && |"kwargs"| == 6 && |"entry_id"| == 8;
    var other := r.(call := r.call.(func := func));
    assert Extract("func_name", Context(r)) == Extract("func_name", Context(other)) == "none";
  }

  /** So it does not separate two functions that return different results for the same arguments. */
  lemma {:induction false} WorkerKeysDoNotSeparate(p: Program, config: Config, r: Request, func: string)
    requires p.keyOf == WorkerKey && Storable(config, p.result(r.call), p.packer)
    requires p.result(r.call) != p.result(r.call.(func := func))
    ensures !KeysSeparate(p, config)
  {
    var other := r.(call := r.call.(func := func));
    WorkerKeyIgnoresFunction(r, func);
    assert |WorkerKey(r).key| > 0;
    assert StoresUnder(p, config, r, WorkerKey(r).key);
    assert KeyOf(config, p.keyOf(other)) == Ok(WorkerKey(r).key);
  }

  /** Only the call goes into the worker's key. */
  lemma {:induction false} WorkerKeyIsOfCall(r: Request, r': Request)
    requires r.call == r'.call
    ensures WorkerKey(r) == WorkerKey(r')
  {
    assert |"func_name"| == 9 && |"fn_name"| == 7 && |"args"| == 4 && |"kwargs"| == 6 && |"entry_id"| == 8;
    forall path | path == "func_name" || path == "args" || path == "kwargs"
      ensures Extract(path, Context(r)) == Extract(path, Context(r')) {
    }
  }

  /** So the worker's cache is transparent only if any two of its functions that take the same
      arguments return the same results, as far as those can be stored. */
  lemma {:induction false} WorkerNeedsOneFunction(
      p: Program, config: Config, maxSize: Option<int>, r: Request, func: string)
    requires p.keyOf == WorkerKey
    requires Storable(config, p.result(r.call), p.packer)
    requires p.result(r.call) != p.result(r.call.(func := func))
    ensures !Transparent(p, config, maxSize)
  {
    WorkerKeysDoNotSeparate(p, config, r, func);
    forall q: Request, u, t ensures p.keyOf(q.(useCache := u, cacheTtl := t)) == p.keyOf(q) {
      WorkerKeyIsOfCall(q, q.(useCache := u, cacheTtl := t));
    }
    TransparentExactly(p, config, maxSize);
  }

  // ---------------------------------------------------------------- in place

  class TaskExecutor {
    const cache: AsyncCache
    var fired: seq<Completion>

    /** The cache and the callbacks made so far are those of a world. */
    ghost predicate Holds(w: World)
      reads this, cache, cache.adapter
    {
      cache.View() == w.cache && fired == w.fired
    }

    constructor (cache: AsyncCache)
      ensures this.cache == cache && fired == []
    {
      this.cache := cache;
      fired := [];
    }

    /** `execute_task` up to its call of the user's function: a result if the cache has one, and
      otherwise whether to store one later. An invalid key switches caching off for this task. */
    method Begin(n: TaskId, r: Request, made: KeyOutcome, now: real, ghost p: Program, ghost w: World)
      returns (result: Option<ExecResult>, caching: bool)
      requires Holds(w) && made == p.keyOf(r) && n !in w.requests && Tracks(w, n)
      requires cache.adapter.KeysAgree()
      modifies this, cache, cache.adapter
      ensures cache.adapter.KeysAgree() && Holds(Look(p, w, n, r, now))
      ensures var w' := Look(p, w, n, r, now);
        if result.Some? then n in w'.results && w'.results[n] == result.value
        else n in w'.flights && w'.flights[n] == Flight(r, caching)
    {
      result := None;
      caching := if r.useCache.Some? then r.useCache.value else true;
      if caching && cache.enabled {
        var entry := if r.cacheEntryId.Some? then r.cacheEntryId.value else r.task;
        var hit := cache.Fetch(made, Some(entry), now);
        if hit.Err? {
          caching := false;
        } else if hit.value.Some? {
          fired := fired + [Completion(n, hit.value.value, true)];
          result := Some(Value(hit.value.value));
        }
      }
    }

    /** The rest, once the user's function has ended. */
    method End(n: TaskId, r: Request, caching: bool, made: KeyOutcome, outcome: UserOutcome, value: PyValue,
               packer: Packer, now: real, stamp: real, ghost p: Program, ghost w: World)
      returns (result: ExecResult)
      requires Holds(w) && n in w.flights && w.flights[n] == Flight(r, caching)
      requires made == p.keyOf(r) && value == p.result(r.call) && packer == p.packer
      requires cache.adapter.KeysAgree()
      modifies this, cache, cache.adapter
      ensures cache.adapter.KeysAgree() && fired == Land(p, w, n, outcome, now, stamp).fired
      ensures old(cache.adapter.Distinct()) ==> Holds(Land(p, w, n, outcome, now, stamp))
      ensures Land(p, w, n, outcome, now, stamp).results[n] == result
    {
      match outcome {
        case TimedOut(limit) => return TaskTimeoutError(limit);
        case UserCancelled => return TaskCancellationError;
        case UserRaised(message) => return TaskExecutionError(message);
        case UserReturned =>
      }
      if caching && cache.enabled {
        var entry := if r.cacheEntryId.Some? then r.cacheEntryId.value else r.task;
        var stored := cache.Store(made, Some(entry), value, r.cacheTtl, packer, now, stamp);
      }
      fired := fired + [Completion(n, value, false)];
      return Value(value);
    }
  }
}
