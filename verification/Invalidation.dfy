/**
  What invalidating, clearing and switching off do to later lookups.
*/
module Invalidation {
  import opened Common
  import M = MemoryCache
  import opened AsyncCaching

  /** Every other key has its entry and access time, and every other id its key. */
  ghost predicate SameBeside(c: Cache, c': Cache, key: M.Key, id: Option<EntryId>) {
    && (forall k | k != key :: k in c'.store.entries <==> k in c.store.entries)
    && (forall k | k != key :: k in c'.store.access <==> k in c.store.access)
    && (forall k | k != key && k in c.store.entries :: c'.store.entries[k] == c.store.entries[k])
    && (forall k | k != key && k in c.store.access :: c'.store.access[k] == c.store.access[k])
    && (forall i | Some(i) != id :: i in c'.ids <==> i in c.ids)
    && (forall i | Some(i) != id && i in c.ids :: c'.ids[i] == c.ids[i])
    && c'.enabled == c.enabled && c'.config == c.config && c'.store.maxSize == c.store.maxSize
  }

  /** Invalidating a key deletes its entry, whether or not an entry id is given, says whether there was
      one, drops the id that is given and touches nothing else. */
  lemma {:induction false} InvalidateDeletes(c: Cache, made: KeyOutcome, id: Option<EntryId>, key: M.Key)
    requires Names(made, key)
    ensures var (c', r) := Invalidate(c, made, id);
      && key !in c'.store.entries && r == Ok(key in c.store.entries)
      && (id.Some? ==> id.value !in c'.ids)
      && (c.config.validateKeys ==> key !in c'.generated)
      && SameBeside(c, c', key, id)
  {
  }

  /** A refused key is reported and changes nothing. */
  lemma {:induction false} RefusedChangesNothing(c: Cache, id: Option<EntryId>)
    ensures Invalidate(c, Refused, id) == (c, Err(InvalidCacheKey))
  {
  }

  /** Invalidating by id deletes the entry of the key the id leads to, and says whether there was one; the
      id goes with it, and otherwise stays. An unknown id changes nothing. */
  lemma {:induction false} InvalidateByIdDeletes(c: Cache, id: EntryId)
    ensures var (c', found) := InvalidateById(c, id);
      if id !in c.ids then c' == c && !found
      else
        var key := c.ids[id];
        && key !in c'.store.entries && found == (key in c.store.entries)
        && (id in c'.ids <==> !found) && (id in c'.ids ==> c'.ids[id] == key)
        && (found && c.config.validateKeys ==> key !in c'.generated)
        && SameBeside(c, c', key, Some(id))
  {
  }

  lemma {:induction false} ClearDeletesAll(c: Cache)
    ensures var c' := ClearAll(c);
      c'.store.entries == map[] && c'.store.access == map[] && c'.ids == map[] && c'.enabled == c.enabled
    ensures c.config.validateKeys ==> ClearAll(c).generated == {}
  {
  }

  /** A cleanup pass forgets exactly the keys of the ids it drops. */
  lemma {:induction false} CleanupForgetsKeys(c: Cache, order: seq<EntryId>, times: seq<real>, key: M.Key)
    requires Proper(CleanupOp(order, times))
    ensures var c' := CleanupStale(c, order, times);
      key in c'.generated <==>
        key in c.generated && !(c.config.validateKeys && exists id :: id in c.ids && id !in c'.ids && c.ids[id] == key)
  {
    var c' := CleanupStale(c, order, times);
    var stale := ProbeAll(c.store, c.ids, order, times).1;
    assert forall id | id in c.ids :: id !in c'.ids <==> id in stale;
  }

  // ---------------------------------------------------------------- until it is set again

  /** No `set` in the list is of this key. */
  predicate NoSetOf(ops: seq<CacheOp>, key: M.Key) {
    forall i | 0 <= i < |ops| && ops[i].SetOp? :: !Names(ops[i].made, key)
  }

  /** A lookup of this key, or of an id that leads to it. */
  predicate LooksUp(c: Cache, op: CacheOp, key: M.Key) {
    match op
    case GetOp(made, _, _) => Names(made, key)
    case GetByIdOp(id, _) => id in c.ids && c.ids[id] == key
    case _ => false
  }

  function HitOf(c: Cache, op: CacheOp): Option<PyValue>
    requires op.GetOp? || op.GetByIdOp?
  {
    match op
    case GetOp(made, id, now) => (match Get(c, made, id, now).1 case Ok(hit) => hit case Err(_) => None)
    case GetByIdOp(id, now) => GetById(c, id, now).1
  }

  lemma {:induction false} SetOfOtherAddsNothing(c: Cache, op: CacheOp, key: M.Key)
    requires op.SetOp? && key !in c.store.entries && !Names(op.made, key)
    ensures key !in Perform(c, op).store.entries
  {
    var made := KeyOf(c.config, op.made);
    if made.Ok? {
      assert Names(op.made, made.value);
      assert M.RoomFor(c.store, made.value).entries.Keys <= c.store.entries.Keys;
    }
  }

  lemma {:induction false} StepAddsNothing(c: Cache, op: CacheOp, key: M.Key)
    requires Proper(op) && key !in c.store.entries && !(op.SetOp? && Names(op.made, key))
    ensures key !in Perform(c, op).store.entries
  {
    match op
    case SetOp(_, _, _, _, _, _, _) => SetOfOtherAddsNothing(c, op, key);
    case CleanupOp(order, times) => ProbesExactly(c.store, c.ids, order, times);
    case GetOp(made, _, now) =>
      if KeyOf(c.config, made).Ok? {
        ReadDropsOnly(c.store, KeyOf(c.config, made).value, now);
      }
    case GetByIdOp(id, now) =>
      if id in c.ids {
        ReadDropsOnly(c.store, c.ids[id], now);
      }
    case _ =>
  }

  lemma {:induction false} AbsentUntilSet(c: Cache, ops: seq<CacheOp>, key: M.Key)
    requires (forall i | 0 <= i < |ops| :: Proper(ops[i])) && key !in c.store.entries && NoSetOf(ops, key)
    ensures key !in After(c, ops).store.entries
    decreases |ops|
  {
    if ops != [] {
      StepAddsNothing(c, ops[0], key);
      assert forall i | 0 <= i < |ops[1..]| :: ops[1..][i] == ops[i + 1];
      AbsentUntilSet(Perform(c, ops[0]), ops[1..], key);
    }
  }

  lemma {:induction false} AbsentMisses(c: Cache, op: CacheOp, key: M.Key)
    requires LooksUp(c, op, key) && key !in c.store.entries
    ensures HitOf(c, op) == None
  {
  }

  /** After a key was invalidated, by its name or by an id, or everything was cleared, no lookup of it hits
      before it is set again, whatever else happens to the cache. */
  lemma {:induction false} MissesUntilSet(c: Cache, cut: CacheOp, key: M.Key, ops: seq<CacheOp>, look: CacheOp)
    requires match cut
             case InvalidateOp(made, _) => Names(made, key)
             case InvalidateByIdOp(id) => id in c.ids && c.ids[id] == key
             case ClearOp => true
             case _ => false
    requires (forall i | 0 <= i < |ops| :: Proper(ops[i])) && NoSetOf(ops, key)
    requires LooksUp(After(Perform(c, cut), ops), look, key)
    ensures HitOf(After(Perform(c, cut), ops), look) == None
  {
    match cut {
      case InvalidateOp(made, id) => InvalidateDeletes(c, made, id, key);
      case InvalidateByIdOp(id) => InvalidateByIdDeletes(c, id);
      case ClearOp => ClearDeletesAll(c);
    }
    AbsentUntilSet(Perform(c, cut), ops, key);
    AbsentMisses(After(Perform(c, cut), ops), look, key);
  }

  // ---------------------------------------------------------------- what a set and a get do

  /** A value is stored if and only if the cache is on, the value fits and the key passes; it is then a hit
      until its own time to live, or the default one, is over. */
  lemma {:induction false} SetThenGetExactly(
      c: Cache, made: KeyOutcome, id: Option<EntryId>, value: PyValue, ttl: Option<real>, packer: Packer,
      now: real, stamp: real, later: real)
    ensures var (c', r) := Set(c, made, id, value, ttl, packer, now, stamp);
      && (r == Ok(true) <==>
            c.enabled && Storable(c.config, value, packer) && !made.Refused? &&
            !(made == Made("") && c.config.validateKeys))
      && (r == Err(InvalidCacheKey) <==>
            c.enabled && Storable(c.config, value, packer) &&
            (made.Refused? || (made == Made("") && c.config.validateKeys)))
      && (r != Ok(true) ==> c' == c)
      && (r == Ok(true) ==>
            var limit := if ttl.Some? then ttl else c.config.defaultTtl;
            && Get(c', made, id, later).1 ==
                 Ok(if limit.Some? && later > now + limit.value then None else Some(value))
            && (id.Some? ==> id.value in c'.ids && Names(made, c'.ids[id.value])))
  {
  }

  /** A get is refused if and only if the cache is on and the key does not pass; it changes nothing then. */
  lemma {:induction false} GetRefusedExactly(c: Cache, made: KeyOutcome, id: Option<EntryId>, now: real)
    ensures var (c', r) := Get(c, made, id, now);
      && (r == Err(InvalidCacheKey) <==>
            c.enabled && (made.Refused? || (made == Made("") && c.config.validateKeys)))
      && (r.Err? ==> c' == c)
  {
  }

  /** A lookup that hits, by key or by id, counts as a use of the entry; one that finds it expired deletes it;
      no other entry is touched. */
  lemma {:induction false} LookupUses(c: Cache, op: CacheOp, key: M.Key)
    requires LooksUp(c, op, key) && c.enabled && (op.GetOp? ==> Reaches(c, op)) && (op.GetByIdOp? ==> key != "")
    ensures var c' := Perform(c, op);
      && (HitOf(c, op).Some? ==>
            key in c.store.entries && HitOf(c, op) == Some(c.store.entries[key].value) &&
            c'.store.entries == c.store.entries && c'.store.access == c.store.access[key := op.now])
      && (HitOf(c, op).None? ==>
            c'.store.entries == c.store.entries - {key} &&
            (key in c.store.entries ==>
               c.store.entries[key].expiry.Some? && c.store.entries[key].expiry.value < op.now))
  {
  }

  /** A get and a set that reach the store index their entry id and, with validation on, remember their key;
      they touch no other id and forget no key. */
  lemma {:induction false} ReachingIndexes(c: Cache, op: CacheOp, key: M.Key)
    requires Reaches(c, op) && Names(op.made, key)
    ensures var c' := Perform(c, op);
      && (forall i | op.id == Some(i) :: i in c'.ids && c'.ids[i] == key)
      && (forall i | op.id != Some(i) :: i in c'.ids <==> i in c.ids)
      && (forall i | op.id != Some(i) && i in c.ids :: c'.ids[i] == c.ids[i])
      && (forall k :: k in c'.generated <==> k in c.generated || (c.config.validateKeys && op.made == Made(k)))
  {
  }

  /** Switched off, the cache finds nothing, stores nothing and changes nothing. */
  lemma {:induction false} OffIsInert(c: Cache, op: CacheOp)
    requires !c.enabled && (op.GetOp? || op.SetOp?)
    ensures Perform(c, op) == c
    ensures op.GetOp? ==> HitOf(c, op) == None
  {
  }
}
