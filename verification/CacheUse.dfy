/**
  When an execution uses the cache, and what it reports: said on the fields of the request, the cache
  and the executor.
*/
module CacheUse {
  import opened Common
  import opened MemoryCache
  import opened AsyncCaching
  import opened Executor

  /** The key function gave this key and validation lets it pass. */
  predicate Gives(c: Cache, made: KeyOutcome, key: Key) {
    made == Broken(key) || (made == Made(key) && !(c.config.validateKeys && key == ""))
  }

  /** The cache is on and has an unexpired entry under the key. */
  predicate Answers(c: Cache, made: KeyOutcome, key: Key, now: real) {
    && c.enabled && Gives(c, made, key) && key in c.store.entries
    && (c.store.entries[key].expiry.Some? ==> now <= c.store.entries[key].expiry.value)
  }

  /** A request is answered at once if and only if it does not opt out and the cache answers; it is given
      the entry's value then, and the callback is told. Otherwise its function is to be called, and no one
      is told anything yet. */
  lemma {:induction false} AnsweredExactly(p: Program, w: World, n: TaskId, r: Request, now: real)
    requires Enabled(w, Begin(n, r, now)) && Tracks(w, n)
    ensures var w' := Apply(p, w, Begin(n, r, now));
      && (n in w'.results <==> r.useCache != Some(false) && exists key :: Answers(w.cache, p.keyOf(r), key, now))
      && (forall key | n in w'.results && Answers(w.cache, p.keyOf(r), key, now) ::
            var value := w.cache.store.entries[key].value;
            w'.results[n] == Value(value) && w'.fired == w.fired + [Completion(n, value, true)] && n !in w'.flights)
      && (n !in w'.results ==> n in w'.flights && w'.flights[n].request == r && w'.fired == w.fired)
  {
    var made := p.keyOf(r);
    if made.Made? {
      assert forall key :: Answers(w.cache, made, key, now) ==> key == made.key;
      assert Gives(w.cache, made, made.key) <==> KeyOf(w.cache.config, made).Ok?;
      assert Answers(w.cache, made, made.key, now) || !Answers(w.cache, made, made.key, now);
    } else if made.Broken? {
      assert forall key :: Answers(w.cache, made, key, now) ==> key == made.defaultKey;
      assert Gives(w.cache, made, made.defaultKey);
      assert Answers(w.cache, made, made.defaultKey, now) || !Answers(w.cache, made, made.defaultKey, now);
    }
  }

  /** Whether an execution in flight may store its result was settled when it began. */
  lemma {:induction false} FlightStays(p: Program, w: World, ls: seq<Label>, w': World, n: TaskId)
    requires Run(p, w, ls, w') && n in w.flights && n in w.requests && n in w'.flights
    ensures w'.flights[n] == w.flights[n]
    decreases |ls|
  {
    if ls != [] {
      var next := Apply(p, w, ls[0]);
      if n !in next.flights {
        GoneStaysGone(p, next, ls[1..], w', n);
      } else {
        FlightStays(p, next, ls[1..], w', n);
      }
    }
  }

  lemma {:induction false} GoneStaysGone(p: Program, w: World, ls: seq<Label>, w': World, n: TaskId)
    requires Run(p, w, ls, w') && n in w.requests && n !in w.flights
    ensures n !in w'.flights
    decreases |ls|
  {
    if ls != [] {
      GoneStaysGone(p, Apply(p, w, ls[0]), ls[1..], w', n);
    }
  }

  /** A request that opts out, or whose key is refused, leaves the cache alone, when it begins and, after
      any run in between, however its function ends. */
  lemma {:induction false} OptOutStaysOut(
      p: Program, w: World, n: TaskId, r: Request, now: real, ls: seq<Label>, w': World,
      outcome: UserOutcome, later: real, stamp: real)
    requires Enabled(w, Begin(n, r, now)) && Run(p, Apply(p, w, Begin(n, r, now)), ls, w') && n in w'.flights
    requires r.useCache == Some(false) ||
             (w.cache.enabled && (p.keyOf(r) == Refused || (p.keyOf(r) == Made("") && w.cache.config.validateKeys)))
    ensures Apply(p, w, Begin(n, r, now)).cache == w.cache
    ensures Apply(p, w', End(n, outcome, later, stamp)).cache == w'.cache
  {
    var begun := Apply(p, w, Begin(n, r, now));
    assert begun.flights[n] == Flight(r, false);
    FlightStays(p, begun, ls, w', n);
  }

  /** One that does not, and whose key passes, stores what its function returns, if the cache is on by then
      and the value fits: under its key and its entry id, until its time to live is over. */
  lemma {:induction false} ReturnIsStored(
      p: Program, w: World, n: TaskId, r: Request, now: real, ls: seq<Label>, w': World, key: Key,
      later: real, stamp: real)
    requires Enabled(w, Begin(n, r, now)) && Run(p, Apply(p, w, Begin(n, r, now)), ls, w') && n in w'.flights
    requires r.useCache != Some(false) && w.cache.config == w'.cache.config && Gives(w.cache, p.keyOf(r), key)
    requires w'.cache.enabled && Storable(w'.cache.config, p.result(r.call), p.packer)
    ensures var c, value := Apply(p, w', End(n, UserReturned, later, stamp)).cache, p.result(r.call);
      && key in c.store.entries && c.store.entries[key].value == value
      && c.store.entries[key].expiry ==
           (if r.cacheTtl.Some? then Some(later + r.cacheTtl.value)
            else if c.config.defaultTtl.Some? then Some(later + c.config.defaultTtl.value) else None)
      && var entry := if r.cacheEntryId.Some? then r.cacheEntryId.value else r.task;
         entry in c.ids && c.ids[entry] == key
  {
    var begun := Apply(p, w, Begin(n, r, now));
    if n !in begun.flights {
      GoneStaysGone(p, begun, ls, w', n);
    }
    FlightStays(p, begun, ls, w', n);
    LandStores(p, w', n, r, key, later, stamp);
  }

  lemma {:induction false} LandStores(p: Program, w: World, n: TaskId, r: Request, key: Key, now: real, stamp: real)
    requires n in w.flights && w.flights[n] == Flight(r, true) && Gives(w.cache, p.keyOf(r), key)
    requires w.cache.enabled && Storable(w.cache.config, p.result(r.call), p.packer)
    ensures var c, value := Land(p, w, n, UserReturned, now, stamp).cache, p.result(r.call);
      && key in c.store.entries && c.store.entries[key].value == value
      && c.store.entries[key].expiry ==
           (if r.cacheTtl.Some? then Some(now + r.cacheTtl.value)
            else if c.config.defaultTtl.Some? then Some(now + c.config.defaultTtl.value) else None)
      && var entry := if r.cacheEntryId.Some? then r.cacheEntryId.value else r.task;
         entry in c.ids && c.ids[entry] == key
  {
    assert KeyOf(w.cache.config, p.keyOf(r)) == Ok(key);
  }

  /** How the user's function ends decides what the execution reports: a return its value, told once to the
      callback; an error, a cancellation and a timeout each their own error, told to no one. Nothing but a
      return is stored. */
  lemma {:induction false} EndsAs(p: Program, w: World, n: TaskId, outcome: UserOutcome, now: real, stamp: real)
    requires Enabled(w, End(n, outcome, now, stamp))
    ensures var w' := Apply(p, w, End(n, outcome, now, stamp));
      && n !in w'.flights && n in w'.results
      && match outcome
         case UserReturned =>
           var value := p.result(w.flights[n].request.call);
           w'.results[n] == Value(value) && w'.fired == w.fired + [Completion(n, value, false)]
         case UserRaised(message) =>
           w'.results[n] == TaskExecutionError(message) && w'.fired == w.fired && w'.cache == w.cache
         case UserCancelled => w'.results[n] == TaskCancellationError && w'.fired == w.fired && w'.cache == w.cache
         case TimedOut(limit) =>
           w'.results[n] == TaskTimeoutError(limit) && w'.fired == w.fired && w'.cache == w.cache
  {
  }
}
