/**
  The cache of `async_cache/core.py` over the memory adapter, with its index from entry ids to
  keys, as `cache_adapter.py` uses it.

  The key functions are opaque: an operation is given what its key function did.
*/
module AsyncCaching {
  import opened Common
  import opened Serialization
  import opened MemoryCache

  type EntryId = string

  /** A key function returns a key, raises `InvalidCacheKeyError`, or raises something else, upon
      which the default key is used instead. */
  datatype KeyOutcome = Made(key: Key) | Refused | Broken(defaultKey: Key)

  datatype CacheError = InvalidCacheKey

  datatype Config = Config(
    defaultTtl: Option<real>,
    maxSerializedSize: nat,
    validateKeys: bool,
    fallbackToStr: bool)

  datatype Cache = Cache(
    store: Store,
    config: Config,
    enabled: bool,
    ids: map<EntryId, Key>,
    generated: set<Key>)

  /** How a value is measured: its text for the fallback, and the length of its packed bytes. */
  datatype Packer = Packer(str: Printer, size: Wire -> nat)

  // ---------------------------------------------------------------- operations

  /** The key an operation works on, after validation. */
  function KeyOf(config: Config, made: KeyOutcome): Result<Key, CacheError> {
    match made
    case Refused => Err(InvalidCacheKey)
    case Made(key) => if config.validateKeys && key == "" then Err(InvalidCacheKey) else Ok(key)
    case Broken(key) => Ok(key)
  }

  /** Validated keys are remembered. */
  function Remember(config: Config, generated: set<Key>, made: KeyOutcome): set<Key> {
    if config.validateKeys && made.Made? then generated + {made.key} else generated
  }

  function Index(ids: map<EntryId, Key>, id: Option<EntryId>, key: Key): map<EntryId, Key> {
    if id.Some? then ids[id.value := key] else ids
  }

  function Get(c: Cache, made: KeyOutcome, id: Option<EntryId>, now: real)
    : (Cache, Result<Option<PyValue>, CacheError>)
  {
    if !c.enabled then (c, Ok(None))
    else
      var key := KeyOf(c.config, made);
      if key.Err? then (c, Err(key.error)) else
        var (store, hit) := Read(c.store, key.value, now);
        (c.(store := store, ids := Index(c.ids, id, key.value), generated := Remember(c.config, c.generated, made)),
         Ok(hit))
  }

  /** Only what MessagePack can write, in few enough bytes, is stored. */
  predicate Storable(config: Config, value: PyValue, packer: Packer) {
    var w := Encode(value, config.fallbackToStr, packer.str);
    w.Ok? && packer.size(w.value) <= config.maxSerializedSize
  }

  ghost function Set(c: Cache, made: KeyOutcome, id: Option<EntryId>, value: PyValue, ttl: Option<real>,
                     packer: Packer, now: real, stamp: real): (Cache, Result<bool, CacheError>)
  {
    if !c.enabled || !Storable(c.config, value, packer) then (c, Ok(false))
    else
      var key := KeyOf(c.config, made);
      if key.Err? then (c, Err(key.error)) else
        (c.(store := Insert(c.store, key.value, value, if ttl.Some? then ttl else c.config.defaultTtl, now, stamp),
            ids := Index(c.ids, id, key.value),
            generated := Remember(c.config, c.generated, made)),
         Ok(true))
  }

  function Invalidate(c: Cache, made: KeyOutcome, id: Option<EntryId>): (Cache, Result<bool, CacheError>) {
    match made
    case Refused => (c, Err(InvalidCacheKey))
    case Made(key) => DropKey(c, key, id)
    case Broken(key) => DropKey(c, key, id)
  }

  function DropKey(c: Cache, key: Key, id: Option<EntryId>): (Cache, Result<bool, CacheError>) {
    var (store, found) := Delete(c.store, key);
    (c.(store := store, ids := if id.Some? then c.ids - {id.value} else c.ids, generated := Unmark(c, key)), Ok(found))
  }

  function Unmark(c: Cache, key: Key): set<Key> {
    if c.config.validateKeys then c.generated - {key} else c.generated
  }

  function InvalidateById(c: Cache, id: EntryId): (Cache, bool) {
    if id !in c.ids then (c, false)
    else
      var key := c.ids[id];
      var (store, found) := Delete(c.store, key);
      if !found then (c.(store := store), false)
      else
        (c.(store := store, ids := c.ids - {id}, generated := Unmark(c, key)), true)
  }

  function GetById(c: Cache, id: EntryId, now: real): (Cache, Option<PyValue>) {
    if id !in c.ids || c.ids[id] == "" then (c, None)
    else
      var (store, hit) := Read(c.store, c.ids[id], now);
      (c.(store := store), hit)
  }

  function ClearAll(c: Cache): Cache {
    c.(store := Clear(c.store), ids := map[], generated := if c.config.validateKeys then {} else c.generated)
  }

  // ---------------------------------------------------------------- stale mappings

  /** Probe the keys of the given ids, each at its own moment; the ids whose key missed are stale. */
  function ProbeAll(s: Store, ids: map<EntryId, Key>, order: seq<EntryId>, times: seq<real>): (Store, set<EntryId>)
    requires |times| == |order|
    decreases |order|
  {
    if order == [] then (s, {}) else
      var last := |order| - 1;
      var (before, stale) := ProbeAll(s, ids, order[..last], times[..last]);
      var id := order[last];
      if id !in ids || ids[id] == "" then (before, stale)
      else
        var (after, hit) := Read(before, ids[id], times[last]);
        (after, if hit.Some? then stale else stale + {id})
  }

  function KeysOf(ids: map<EntryId, Key>, some: set<EntryId>): set<Key> {
    set id | id in some && id in ids :: ids[id]
  }

  function CleanupStale(c: Cache, order: seq<EntryId>, times: seq<real>): Cache
    requires |times| == |order|
  {
    var (store, stale) := ProbeAll(c.store, c.ids, order, times);
    c.(store := store, ids := c.ids - stale,
       generated := if c.config.validateKeys then c.generated - KeysOf(c.ids, stale) else c.generated)
  }

  /** A key that would be a hit. */
  predicate LiveAt(s: Store, key: Key, now: real) {
    key in s.entries && !IsExpired(s.entries[key], now)
  }

  predicate Increasing(times: seq<real>) {
    forall i, j | 0 <= i < j < |times| :: times[i] < times[j]
  }

  /** The probe at position `i` looks at this key. */
  predicate Probes(ids: map<EntryId, Key>, order: seq<EntryId>, i: nat, key: Key)
    requires i < |order|
  {
    order[i] in ids && ids[order[i]] == key && key != ""
  }

  /** What probing does, read off the store as it was before: an entry is dropped exactly when some
      probe finds it expired, and no entry changes. */
  predicate ProbesOnlyDropExpired(s: Store, ids: map<EntryId, Key>, order: seq<EntryId>, times: seq<real>, s': Store)
    requires |times| == |order|
  {
    && s'.entries.Keys <= s.entries.Keys
    && (forall k | k in s'.entries :: s'.entries[k] == s.entries[k])
    && (forall k | k in s.entries ::
          k !in s'.entries <==>
            exists i :: 0 <= i < |order| && Probes(ids, order, i, k) && IsExpired(s.entries[k], times[i]))
  }

  lemma {:induction false} ProbeOnce(
      s: Store, mid: Store, ids: map<EntryId, Key>, order: seq<EntryId>, times: seq<real>)
    requires order != [] && |times| == |order| && Increasing(times)
    requires ProbesOnlyDropExpired(s, ids, order[..|order| - 1], times[..|order| - 1], mid)
    ensures var last := |order| - 1;
      var after :=
        if order[last] in ids && ids[order[last]] != "" then Read(mid, ids[order[last]], times[last]).0 else mid;
      ProbesOnlyDropExpired(s, ids, order, times, after)
    ensures var last := |order| - 1;
      order[last] in ids && ids[order[last]] != "" ==>
        (Read(mid, ids[order[last]], times[last]).1.Some? <==> LiveAt(s, ids[order[last]], times[last]))
  {
    var last := |order| - 1;
    var before := order[..last];
    var after :=
      if order[last] in ids && ids[order[last]] != "" then Read(mid, ids[order[last]], times[last]).0 else mid;
    forall k | k in s.entries
      ensures k !in after.entries <==>
        exists i :: 0 <= i < |order| && Probes(ids, order, i, k) && IsExpired(s.entries[k], times[i])
    {
      if i :| 0 <= i < |before| && Probes(ids, before, i, k) && IsExpired(s.entries[k], times[..last][i]) {
        assert Probes(ids, order, i, k) && IsExpired(s.entries[k], times[i]);
      }
      if i :| 0 <= i < |order| && Probes(ids, order, i, k) && IsExpired(s.entries[k], times[i]) {
        if i < last {
          assert Probes(ids, before, i, k) && times[..last][i] == times[i];
        }
      }
      if k in mid.entries && k !in after.entries {
        assert Probes(ids, order, last, k);
      }
    }
  }

  lemma {:induction false} ProbesExactly(s: Store, ids: map<EntryId, Key>, order: seq<EntryId>, times: seq<real>)
    requires |times| == |order| && Increasing(times)
    requires forall i, j | 0 <= i < j < |order| :: order[i] != order[j]
    ensures ProbesOnlyDropExpired(s, ids, order, times, ProbeAll(s, ids, order, times).0)
    ensures forall i | 0 <= i < |order| ::
      order[i] in ProbeAll(s, ids, order, times).1 <==>
      order[i] in ids && ids[order[i]] != "" && !LiveAt(s, ids[order[i]], times[i])
    ensures forall id | id in ProbeAll(s, ids, order, times).1 :: id in order
    decreases |order|
  {
    if order != [] {
      var last := |order| - 1;
      ProbesExactly(s, ids, order[..last], times[..last]);
      var mid := ProbeAll(s, ids, order[..last], times[..last]).0;
      ProbeOnce(s, mid, ids, order, times);
      forall i | 0 <= i < |order|
        ensures order[i] in ProbeAll(s, ids, order, times).1 <==>
          order[i] in ids && ids[order[i]] != "" && !LiveAt(s, ids[order[i]], times[i])
      {
        if i < last {
          assert order[..last][i] == order[i] && times[..last][i] == times[i] && order[i] != order[last];
        } else {
          assert order[last] !in order[..last];
        }
      }
    }
  }

  /** Cleanup removes exactly the listed mappings whose key is missing or expired when it is probed,
      keeps every other one, listed or not, drops no live entry and changes no value, although its
      probes delete what they find expired and refresh what they hit. */
  lemma {:induction false} CleanupExactly(c: Cache, order: seq<EntryId>, times: seq<real>)
    requires |times| == |order| && Increasing(times)
    requires forall i, j | 0 <= i < j < |order| :: order[i] != order[j]
    ensures var c' := CleanupStale(c, order, times);
      && (forall i | 0 <= i < |order| && order[i] in c.ids ::
            order[i] in c'.ids <==> c.ids[order[i]] == "" || LiveAt(c.store, c.ids[order[i]], times[i]))
      && (forall id | id in c.ids && id !in order :: id in c'.ids)
      && (forall id | id in c'.ids :: id in c.ids && c'.ids[id] == c.ids[id])
      && ProbesOnlyDropExpired(c.store, c.ids, order, times, c'.store)
  {
    ProbesExactly(c.store, c.ids, order, times);
  }

  // ---------------------------------------------------------------- the index over whole runs

  datatype CacheOp =
    | GetOp(made: KeyOutcome, id: Option<EntryId>, now: real)
    | SetOp(made: KeyOutcome, id: Option<EntryId>, value: PyValue, ttl: Option<real>, packer: Packer,
            now: real, stamp: real)
    | InvalidateOp(made: KeyOutcome, id: Option<EntryId>)
    | InvalidateByIdOp(entry: EntryId)
    | GetByIdOp(entry: EntryId, now: real)
    | ClearOp
    | CleanupOp(order: seq<EntryId>, times: seq<real>)
    | SwitchOp(enabled: bool)

  /** Cleanup lists each id once and its clock moves on. */
  predicate Proper(op: CacheOp) {
    op.CleanupOp? ==>
      && |op.times| == |op.order| && Increasing(op.times)
      && forall i, j | 0 <= i < j < |op.order| :: op.order[i] != op.order[j]
  }

  ghost function Perform(c: Cache, op: CacheOp): Cache
    requires Proper(op)
  {
    match op
    case GetOp(made, id, now) => Get(c, made, id, now).0
    case SetOp(made, id, value, ttl, packer, now, stamp) => Set(c, made, id, value, ttl, packer, now, stamp).0
    case InvalidateOp(made, id) => Invalidate(c, made, id).0
    case InvalidateByIdOp(id) => InvalidateById(c, id).0
    case GetByIdOp(id, now) => GetById(c, id, now).0
    case ClearOp => ClearAll(c)
    case CleanupOp(order, times) => CleanupStale(c, order, times)
    case SwitchOp(enabled) => c.(enabled := enabled)
  }

  predicate Names(made: KeyOutcome, key: Key) {
    made == Made(key) || made == Broken(key)
  }

  /** The get or set reaches the store: the cache is on, the key valid and the value, if any, storable. */
  predicate Reaches(c: Cache, op: CacheOp) {
    match op
    case GetOp(made, _, _) => c.enabled && KeyOf(c.config, made).Ok?
    case SetOp(made, _, value, _, packer, _, _) =>
      c.enabled && Storable(c.config, value, packer) && KeyOf(c.config, made).Ok?
    case _ => false
  }

  /** The operation gives the id another key, or stores the key anew when the id no longer has it. */
  predicate Disturbs(c: Cache, op: CacheOp, id: EntryId, key: Key) {
    match op
    case GetOp(made, of, _) => Reaches(c, op) && of == Some(id) && !Names(made, key)
    case SetOp(made, of, _, _, _, _, _) =>
      Reaches(c, op) && if of == Some(id) then !Names(made, key) else id !in c.ids && Names(made, key)
    case InvalidateOp(made, of) => !made.Refused? && of == Some(id) && !Names(made, key)
    case _ => false
  }

  ghost predicate Undisturbed(c: Cache, ops: seq<CacheOp>, id: EntryId, key: Key)
    decreases |ops|
  {
    ops != [] ==>
      Proper(ops[0]) && !Disturbs(c, ops[0], id, key) && Undisturbed(Perform(c, ops[0]), ops[1..], id, key)
  }

  ghost function After(c: Cache, ops: seq<CacheOp>): Cache
    requires forall i | 0 <= i < |ops| :: Proper(ops[i])
    decreases |ops|
  {
    if ops == [] then c else After(Perform(c, ops[0]), ops[1..])
  }

  /** The id leads to the key, or is gone along with the key's entry. */
  predicate Leads(c: Cache, id: EntryId, key: Key) {
    if id in c.ids then c.ids[id] == key else key !in c.store.entries
  }

  lemma {:induction false} CleanupKeepsLeads(c: Cache, order: seq<EntryId>, times: seq<real>, id: EntryId, key: Key)
    requires Proper(CleanupOp(order, times)) && Leads(c, id, key) && key != ""
    ensures Leads(CleanupStale(c, order, times), id, key)
  {
    ProbesExactly(c.store, c.ids, order, times);
    var (store, stale) := ProbeAll(c.store, c.ids, order, times);
    if id in c.ids && id in stale {
      var i :| 0 <= i < |order| && order[i] == id;
      if key in c.store.entries {
        assert Probes(c.ids, order, i, key) && IsExpired(c.store.entries[key], times[i]);
      }
    }
  }

  lemma {:induction false} ReadDropsOnly(s: Store, key: Key, now: real)
    ensures Read(s, key, now).0.entries.Keys <= s.entries.Keys
  {
  }

  lemma {:induction false} SetKeepsLeads(c: Cache, op: CacheOp, id: EntryId, key: Key)
    requires op.SetOp? && Leads(c, id, key) && !Disturbs(c, op, id, key)
    ensures Leads(Perform(c, op), id, key)
  {
    var c' := Perform(c, op);
    if id !in c'.ids && Reaches(c, op) {
      var other := KeyOf(c.config, op.made).value;
      assert Names(op.made, other) && other != key;
      assert RoomFor(c.store, other).entries.Keys <= c.store.entries.Keys;
    }
  }

  lemma {:induction false} StepKeepsLeads(c: Cache, op: CacheOp, id: EntryId, key: Key)
    requires Proper(op) && Leads(c, id, key) && key != "" && !Disturbs(c, op, id, key)
    ensures Leads(Perform(c, op), id, key)
  {
    match op
    case SetOp(_, _, _, _, _, _, _) => SetKeepsLeads(c, op, id, key);
    case CleanupOp(order, times) => CleanupKeepsLeads(c, order, times, id, key);
    case GetOp(made, of, now) =>
      if KeyOf(c.config, made).Ok? {
        ReadDropsOnly(c.store, KeyOf(c.config, made).value, now);
      }
    case GetByIdOp(other, now) =>
      if other in c.ids {
        ReadDropsOnly(c.store, c.ids[other], now);
      }
    case _ =>
  }

  lemma {:induction false} RunKeepsLeads(c: Cache, ops: seq<CacheOp>, id: EntryId, key: Key)
    requires forall i | 0 <= i < |ops| :: Proper(ops[i])
    requires Leads(c, id, key) && key != "" && Undisturbed(c, ops, id, key)
    ensures Leads(After(c, ops), id, key)
    decreases |ops|
  {
    if ops != [] {
      StepKeepsLeads(c, ops[0], id, key);
      RunKeepsLeads(Perform(c, ops[0]), ops[1..], id, key);
    }
  }

  /** After a `set` with an entry id, looking up the id is looking up the key, through any run that
      does not give the id another key: sets and evictions of other keys, expiries, invalidations by
      either name, cleanup passes and clears included. */
  lemma {:induction false} IdIsKey(
      c: Cache, made: KeyOutcome, id: EntryId, value: PyValue, ttl: Option<real>, packer: Packer,
      now: real, stamp: real,
      ops: seq<CacheOp>, later: real)
    requires Set(c, made, Some(id), value, ttl, packer, now, stamp).1 == Ok(true)
    requires KeyOf(c.config, made).value != ""
    requires forall i | 0 <= i < |ops| :: Proper(ops[i])
    requires Undisturbed(Set(c, made, Some(id), value, ttl, packer, now, stamp).0, ops, id, KeyOf(c.config, made).value)
    ensures var c' := After(Set(c, made, Some(id), value, ttl, packer, now, stamp).0, ops);
      GetById(c', id, later).1 == Read(c'.store, KeyOf(c.config, made).value, later).1
  {
    RunKeepsLeads(Set(c, made, Some(id), value, ttl, packer, now, stamp).0, ops, id, KeyOf(c.config, made).value);
  }

  /** The empty key is the exception: looking it up by id always misses, so right after a `set` the
      two agree if and only if the key is not empty or the value has expired. */
  lemma {:induction false} IdIsKeyExactly(
      c: Cache, made: KeyOutcome, id: EntryId, value: PyValue, ttl: Option<real>, packer: Packer,
      now: real, stamp: real,
      later: real)
    requires Set(c, made, Some(id), value, ttl, packer, now, stamp).1 == Ok(true)
    ensures var c', key := Set(c, made, Some(id), value, ttl, packer, now, stamp).0, KeyOf(c.config, made).value;
      GetById(c', id, later).1 == Read(c'.store, key, later).1 <==> key != "" || !LiveAt(c'.store, key, later)
  {
  }

  // ---------------------------------------------------------------- in place

  class AsyncCache {
    const adapter: MemoryCacheAdapter
    const config: Config
    var enabled: bool
    var entryKeyMap: map<EntryId, Key>
    var generatedKeys: set<Key>

    function View(): Cache
      reads this, adapter
    {
      Cache(adapter.View(), config, enabled, entryKeyMap, generatedKeys)
    }

    constructor (maxSize: Option<int>, config: Config, enabled: bool)
      ensures View() == Cache(EmptyStore(maxSize), config, enabled, map[], {})
      ensures adapter.KeysAgree() && adapter.Distinct() && fresh(adapter)
    {
      adapter := new MemoryCacheAdapter(maxSize);
      this.config := config;
      this.enabled := enabled;
      entryKeyMap, generatedKeys := map[], {};
    }

    method ResolveKey(made: KeyOutcome) returns (key: Result<Key, CacheError>)
      modifies this`generatedKeys
      ensures key == KeyOf(config, made)
      ensures generatedKeys == if key.Ok? then Remember(config, old(generatedKeys), made) else old(generatedKeys)
    {
      match made {
        case Refused => return Err(InvalidCacheKey);
        case Broken(k) => return Ok(k);
        case Made(k) =>
          if config.validateKeys {
            if k == "" {
              return Err(InvalidCacheKey);
            }
            if k !in generatedKeys {
              generatedKeys := generatedKeys + {k};
            }
          }
          return Ok(k);
      }
    }

    method Fetch(made: KeyOutcome, id: Option<EntryId>, now: real) returns (r: Result<Option<PyValue>, CacheError>)
      requires adapter.KeysAgree()
      modifies this, adapter
      ensures adapter.KeysAgree() && (View(), r) == Get(old(View()), made, id, now)
      ensures old(adapter.Distinct() && adapter.Unused(now)) ==> adapter.Distinct()
    {
      if !enabled {
        return Ok(None);
      }
      var key := ResolveKey(made);
      if key.Err? {
        return Err(key.error);
      }
      if id.Some? {
        entryKeyMap := entryKeyMap[id.value := key.value];
      }
      var hit := adapter.Get(key.value, now);
      return Ok(hit);
    }

    /** If several entries were used least recently, either may make room for a new one; if not, the
        outcome is determined. */
    method Store(made: KeyOutcome, id: Option<EntryId>, value: PyValue, ttl: Option<real>, packer: Packer,
                 now: real, stamp: real)
      returns (r: Result<bool, CacheError>)
      requires adapter.KeysAgree()
      modifies this, adapter
      ensures adapter.KeysAgree() && r == Set(old(View()), made, id, value, ttl, packer, now, stamp).1
      ensures View() == Set(old(View()), made, id, value, ttl, packer, now, stamp).0.(store := adapter.View())
      ensures if r != Ok(true) then adapter.View() == old(adapter.View())
              else KeyOf(config, made).Ok? && exists room ::
                MakesRoom(old(adapter.View()), KeyOf(config, made).value, room) &&
                adapter.View() == Fill(room, KeyOf(config, made).value, Cached(value, ExpiryOf(ttl, now)), stamp)
      ensures old(adapter.Distinct()) ==> View() == Set(old(View()), made, id, value, ttl, packer, now, stamp).0
      ensures old(adapter.Distinct() && adapter.Unused(stamp)) ==> adapter.Distinct()
    {
      if !enabled {
        return Ok(false);
      }
      var fits := CheckSize(value, packer);
      if !fits {
        return Ok(false);
      }
      r := StoreStorable(made, id, value, ttl, packer, now, stamp);
    }

    method StoreStorable(made: KeyOutcome, id: Option<EntryId>, value: PyValue, ttl: Option<real>, ghost packer: Packer,
                         now: real, stamp: real)
      returns (r: Result<bool, CacheError>)
      requires adapter.KeysAgree() && enabled && Storable(config, value, packer)
      modifies this, adapter
      ensures adapter.KeysAgree() && r == Set(old(View()), made, id, value, ttl, packer, now, stamp).1
      ensures View() == Set(old(View()), made, id, value, ttl, packer, now, stamp).0.(store := adapter.View())
      ensures if r != Ok(true) then adapter.View() == old(adapter.View())
              else KeyOf(config, made).Ok? && exists room ::
                MakesRoom(old(adapter.View()), KeyOf(config, made).value, room) &&
                adapter.View() == Fill(room, KeyOf(config, made).value, Cached(value, ExpiryOf(ttl, now)), stamp)
      ensures old(adapter.Distinct()) ==> View() == Set(old(View()), made, id, value, ttl, packer, now, stamp).0
      ensures old(adapter.Distinct() && adapter.Unused(stamp)) ==> adapter.Distinct()
    {
      var key := ResolveKey(made);
      if key.Err? {
        return Err(key.error);
      }
      ghost var room := StoreUnder(key.value, id, value, ttl, now, stamp);
      return Ok(true);
    }

    /** The effective time to live is the call's own or the default. */
    function ExpiryOf(ttl: Option<real>, now: real): Option<real> {
      Expiry(if ttl.Some? then ttl else config.defaultTtl, now)
    }

    method StoreUnder(key: Key, id: Option<EntryId>, value: PyValue, ttl: Option<real>, now: real, stamp: real)
      returns (ghost room: MemoryCache.Store)
      requires adapter.KeysAgree()
      modifies this`entryKeyMap, adapter
      ensures adapter.KeysAgree() && entryKeyMap == Index(old(entryKeyMap), id, key)
      ensures MakesRoom(old(adapter.View()), key, room)
      ensures adapter.View() == Fill(room, key, Cached(value, ExpiryOf(ttl, now)), stamp)
      ensures old(adapter.Distinct()) ==> room == RoomFor(old(adapter.View()), key)
      ensures old(adapter.Distinct() && adapter.Unused(stamp)) ==> adapter.Distinct()
    {
      ghost var before := adapter.View();
      if id.Some? {
        entryKeyMap := entryKeyMap[id.value := key];
      }
      adapter.Set(key, value, if ttl.Some? then ttl else config.defaultTtl, now, stamp);
      room :| MakesRoom(before, key, room) &&
              adapter.View() == Fill(room, key, Cached(value, ExpiryOf(ttl, now)), stamp);
      if old(adapter.Distinct()) {
        RoomIsUnique(before, key, room);
      }
    }

    method CheckSize(value: PyValue, packer: Packer) returns (fits: bool)
      ensures fits == Storable(config, value, packer)
    {
      var packed := Encode(value, config.fallbackToStr, packer.str);
      if packed.Err? {
        return false;
      }
      return packer.size(packed.value) <= config.maxSerializedSize;
    }

    method DropMapping(id: EntryId)
      modifies this`entryKeyMap
      ensures entryKeyMap == old(entryKeyMap) - {id}
    {
      if id in entryKeyMap {
        entryKeyMap := entryKeyMap - {id};
      }
    }

    method UnmarkKey(key: Key)
      modifies this`generatedKeys
      ensures generatedKeys == if config.validateKeys then old(generatedKeys) - {key} else old(generatedKeys)
    {
      if config.validateKeys && key in generatedKeys {
        generatedKeys := generatedKeys - {key};
      }
    }

    method Forget(made: KeyOutcome, id: Option<EntryId>) returns (r: Result<bool, CacheError>)
      requires adapter.KeysAgree()
      modifies this, adapter
      ensures adapter.KeysAgree() && (View(), r) == Invalidate(old(View()), made, id)
      ensures old(adapter.Distinct()) ==> adapter.Distinct()
    {
      if made.Refused? {
        return Err(InvalidCacheKey);
      }
      var key := if made.Made? then made.key else made.defaultKey;
      if id.Some? {
        DropMapping(id.value);
      }
      UnmarkKey(key);
      var found := adapter.Remove(key);
      return Ok(found);
    }

    method ForgetById(id: EntryId) returns (found: bool)
      requires adapter.KeysAgree()
      modifies this, adapter
      ensures adapter.KeysAgree() && (View(), found) == InvalidateById(old(View()), id)
      ensures old(adapter.Distinct()) ==> adapter.Distinct()
    {
      if id !in entryKeyMap {
        return false;
      }
      var key := entryKeyMap[id];
      found := adapter.Remove(key);
      if found {
        DropMapping(id);
        UnmarkKey(key);
      }
    }

    method FetchById(id: EntryId, now: real) returns (hit: Option<PyValue>)
      requires adapter.KeysAgree()
      modifies adapter
      ensures adapter.KeysAgree() && (View(), hit) == GetById(old(View()), id, now)
      ensures old(adapter.Distinct() && adapter.Unused(now)) ==> adapter.Distinct()
    {
      if id !in entryKeyMap || entryKeyMap[id] == "" {
        return None;
      }
      hit := adapter.Get(entryKeyMap[id], now);
    }

    method Reset()
      modifies this, adapter
      ensures adapter.KeysAgree() && adapter.Distinct() && View() == ClearAll(old(View()))
    {
      adapter.Reset();
      entryKeyMap := map[];
      if config.validateKeys {
        generatedKeys := {};
      }
    }

    method CleanupStaleMappings(order: seq<EntryId>, times: seq<real>)
      requires |times| == |order| && adapter.KeysAgree()
      modifies this, adapter
      ensures adapter.KeysAgree() && View() == CleanupStale(old(View()), order, times)
    {
      if entryKeyMap == map[] {
        NothingToProbe(adapter.View(), order, times);
        assert entryKeyMap - {} == entryKeyMap && generatedKeys - KeysOf(entryKeyMap, {}) == generatedKeys;
        return;
      }
      var staleIds, staleKeys := FindStale(order, times);
      ghost var ids := entryKeyMap;
      RemoveMappings(staleIds);
      if config.validateKeys {
        RemoveGenerated(staleKeys);
      }
    }

    /** Probe each key; a miss makes its id stale. */
    method FindStale(order: seq<EntryId>, times: seq<real>) returns (staleIds: seq<EntryId>, staleKeys: seq<Key>)
      requires |times| == |order| && adapter.KeysAgree()
      modifies adapter
      ensures adapter.KeysAgree()
      ensures adapter.View() == ProbeAll(old(adapter.View()), entryKeyMap, order, times).0
      ensures (set id | id in staleIds) == ProbeAll(old(adapter.View()), entryKeyMap, order, times).1
      ensures (set k | k in staleKeys) ==
                KeysOf(entryKeyMap, ProbeAll(old(adapter.View()), entryKeyMap, order, times).1)
    {
      staleIds, staleKeys := [], [];
      ghost var s := adapter.View();
      for i := 0 to |order|
        invariant adapter.KeysAgree()
        invariant adapter.View() == ProbeAll(s, entryKeyMap, order[..i], times[..i]).0
        invariant (set id | id in staleIds) == ProbeAll(s, entryKeyMap, order[..i], times[..i]).1
        invariant |staleKeys| == |staleIds|
        invariant forall j | 0 <= j < |staleIds| ::
                    staleIds[j] in entryKeyMap && staleKeys[j] == entryKeyMap[staleIds[j]]
      {
        assert order[..i + 1][..i] == order[..i] && times[..i + 1][..i] == times[..i];
        var id := order[i];
        if id in entryKeyMap && entryKeyMap[id] != "" {
          var key := entryKeyMap[id];
          var hit := adapter.Get(key, times[i]);
          if hit.None? {
            staleIds, staleKeys := staleIds + [id], staleKeys + [key];
          }
        }
      }
      assert order[..|order|] == order && times[..|times|] == times;
    }

    method RemoveMappings(staleIds: seq<EntryId>)
      modifies this`entryKeyMap
      ensures entryKeyMap == old(entryKeyMap) - (set id | id in staleIds)
    {
      for i := 0 to |staleIds|
        invariant entryKeyMap == old(entryKeyMap) - (set id | id in staleIds[..i])
      {
        assert staleIds[..i + 1] == staleIds[..i] + [staleIds[i]];
        DropMapping(staleIds[i]);
      }
      assert staleIds[..|staleIds|] == staleIds;
    }

    method RemoveGenerated(staleKeys: seq<Key>)
      modifies this`generatedKeys
      ensures generatedKeys == old(generatedKeys) - (set k | k in staleKeys)
    {
      for i := 0 to |staleKeys|
        invariant generatedKeys == old(generatedKeys) - (set k | k in staleKeys[..i])
      {
        assert staleKeys[..i + 1] == staleKeys[..i] + [staleKeys[i]];
        if staleKeys[i] in generatedKeys {
          generatedKeys := generatedKeys - {staleKeys[i]};
        }
      }
      assert staleKeys[..|staleKeys|] == staleKeys;
    }
  }

  lemma {:induction false} NothingToProbe(s: Store, order: seq<EntryId>, times: seq<real>)
    requires |times| == |order|
    ensures ProbeAll(s, map[], order, times) == (s, {})
    decreases |order|
  {
    if order != [] {
      NothingToProbe(s, order[..|order| - 1], times[..|order| - 1]);
    }
  }
}
