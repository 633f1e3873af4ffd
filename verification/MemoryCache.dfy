/**
  The in-memory cache adapter of `adapters/memory.py`: time-to-live plus least recently used.

  The clock is read by the caller here. Access times are told apart by a clock that strictly
  increases; Python would otherwise break ties by the order of its dictionary.
*/
module MemoryCache {
  import opened Common

  type Key = string

  datatype Cached = Cached(value: PyValue, expiry: Option<real>)

  datatype Store = Store(entries: map<Key, Cached>, access: map<Key, real>, maxSize: Option<int>)

  function EmptyStore(maxSize: Option<int>): Store {
    Store(map[], map[], maxSize)
  }

  predicate IsExpired(c: Cached, now: real) {
    c.expiry.Some? && now > c.expiry.value
  }

  function Expiry(ttl: Option<real>, now: real): Option<real> {
    if ttl.Some? then Some(now + ttl.value) else None
  }

  function Without(s: Store, key: Key): Store {
    s.(entries := s.entries - {key}, access := s.access - {key})
  }

  function Read(s: Store, key: Key, now: real): (Store, Option<PyValue>) {
    if key !in s.entries then (s, None)
    else if IsExpired(s.entries[key], now) then (Without(s, key), None)
    else (s.(access := s.access[key := now]), Some(s.entries[key].value))
  }

  /** `key` was used least recently. */
  predicate IsOldest(access: map<Key, real>, key: Key) {
    key in access && forall k | k in access :: access[key] <= access[k]
  }

  lemma {:induction false} OldestExists(access: map<Key, real>, keys: set<Key>)
    requires keys != {} && keys <= access.Keys
    ensures exists key :: key in keys && forall k | k in keys :: access[key] <= access[k]
    decreases keys
  {
    var key :| key in keys;
    var rest := keys - {key};
    if rest != {} {
      OldestExists(access, rest);
      var prior :| prior in rest && forall k | k in rest :: access[prior] <= access[k];
      var best := if access[key] <= access[prior] then key else prior;
      assert best in keys && forall k | k in keys :: access[best] <= access[k];
    } else {
      assert keys == {key};
    }
  }

  ghost function OldestKey(access: map<Key, real>): (key: Key)
    requires access != map[]
    ensures IsOldest(access, key)
  {
    OldestExists(access, access.Keys);
    assert exists key :: key in access.Keys && IsOldest(access, key);
    var key :| IsOldest(access, key);
    key
  }

  ghost function EvictOne(s: Store): Store {
    if s.access == map[] then s else Without(s, OldestKey(s.access))
  }

  /** A new key makes room first. */
  predicate MustEvict(s: Store, key: Key) {
    s.maxSize.Some? && |s.entries| >= s.maxSize.value && key !in s.entries
  }

  /** Room made for a key. */
  ghost function RoomFor(s: Store, key: Key): Store {
    if MustEvict(s, key) then EvictOne(s) else s
  }

  function Fill(room: Store, key: Key, c: Cached, stamp: real): Store {
    room.(entries := room.entries[key := c], access := room.access[key := stamp])
  }

  ghost function Insert(s: Store, key: Key, value: PyValue, ttl: Option<real>, now: real, stamp: real): Store {
    Fill(RoomFor(s, key), key, Cached(value, Expiry(ttl, now)), stamp)
  }

  /** `room` is the store with room for the key, whichever of the oldest entries goes. */
  ghost predicate MakesRoom(s: Store, key: Key, room: Store) {
    if MustEvict(s, key) && s.access != map[] then exists k :: IsOldest(s.access, k) && room == Without(s, k)
    else room == s
  }

  function Delete(s: Store, key: Key): (Store, bool) {
    if key in s.entries then (Without(s, key), true) else (s, false)
  }

  function Clear(s: Store): Store {
    s.(entries := map[], access := map[])
  }

  // ---------------------------------------------------------------- runs

  /** The readings of the clock are part of the trace. A store is given two: one for the expiry, one
      for the access time. */
  datatype Op =
    | GetOp(key: Key, now: real)
    | SetOp(key: Key, value: PyValue, ttl: Option<real>, now: real, stamp: real)
    | DeleteOp(key: Key)
    | ClearOp

  ghost function Perform(s: Store, op: Op): Store {
    match op
    case GetOp(key, now) => Read(s, key, now).0
    case SetOp(key, value, ttl, now, stamp) => Insert(s, key, value, ttl, now, stamp)
    case DeleteOp(key) => Delete(s, key).0
    case ClearOp => Clear(s)
  }

  ghost function After(s: Store, ops: seq<Op>): Store
    decreases |ops|
  {
    if ops == [] then s else After(Perform(s, ops[0]), ops[1..])
  }

  /** The last reading of the clock after an operation. */
  function Clock(op: Op, before: real): real {
    match op
    case GetOp(_, now) => now
    case SetOp(_, _, _, _, stamp) => stamp
    case _ => before
  }

  predicate Ticks(op: Op, before: real) {
    match op
    case GetOp(_, now) => before < now
    case SetOp(_, _, _, now, stamp) => before < now <= stamp
    case _ => true
  }

  predicate AllTick(ops: seq<Op>, before: real)
    decreases |ops|
  {
    ops != [] ==> Ticks(ops[0], before) && AllTick(ops[1..], Clock(ops[0], before))
  }

  function ClockAfter(ops: seq<Op>, before: real): real
    decreases |ops|
  {
    if ops == [] then before else ClockAfter(ops[1..], Clock(ops[0], before))
  }

  // ---------------------------------------------------------------- the invariant

  /** How many entries the store may hold: a size below one still leaves room for one. */
  function Capacity(maxSize: Option<int>): Option<nat> {
    match maxSize
    case None => None
    case Some(n) => Some(if n < 1 then 1 else n)
  }

  predicate Fits(size: nat, maxSize: Option<int>) {
    Capacity(maxSize).Some? ==> size <= Capacity(maxSize).value
  }

  predicate DistinctTimes(access: map<Key, real>) {
    forall a, b | a in access && b in access && a != b :: access[a] != access[b]
  }

  predicate Valid(s: Store, clock: real) {
    && s.entries.Keys == s.access.Keys
    && DistinctTimes(s.access)
    && (forall k | k in s.access :: s.access[k] <= clock)
    && Fits(|s.entries|, s.maxSize)
  }

  lemma {:induction false} OldestIsUnique(access: map<Key, real>, a: Key, b: Key)
    requires DistinctTimes(access) && IsOldest(access, a) && IsOldest(access, b)
    ensures a == b
  {
  }

  lemma {:induction false} SizeWithout(m: map<Key, Cached>, key: Key)
    ensures |m - {key}| == if key in m then |m| - 1 else |m|
  {
    assert (m - {key}).Keys == m.Keys - {key};
    if key in m {
      assert |m.Keys - {key}| == |m.Keys| - 1;
    } else {
      assert m - {key} == m;
    }
  }

  lemma {:induction false} SizeWith(m: map<Key, Cached>, key: Key, c: Cached)
    ensures |m[key := c]| == if key in m then |m| else |m| + 1
  {
    assert m[key := c].Keys == m.Keys + {key};
    if key in m {
      assert m.Keys + {key} == m.Keys;
    }
  }

  /** Only one room can be made while no two entries were used at the same time. */
  lemma {:induction false} RoomIsUnique(s: Store, key: Key, room: Store)
    requires DistinctTimes(s.access) && MakesRoom(s, key, room)
    ensures room == RoomFor(s, key)
  {
    if MustEvict(s, key) && s.access != map[] {
      var k :| IsOldest(s.access, k) && room == Without(s, k);
      OldestIsUnique(s.access, k, OldestKey(s.access));
    }
  }

  lemma {:induction false} RoomSize(s: Store, key: Key)
    requires s.entries.Keys == s.access.Keys && Fits(|s.entries|, s.maxSize)
    ensures var room := RoomFor(s, key);
      && room.entries.Keys == room.access.Keys
      && |room.entries| == (if MustEvict(s, key) && s.access != map[] then |s.entries| - 1 else |s.entries|)
      && (key !in s.entries && s.maxSize.Some? ==> |room.entries| < Capacity(s.maxSize).value)
  {
    if s.access != map[] {
      SizeWithout(s.entries, OldestKey(s.access));
      assert OldestKey(s.access) in s.access.Keys;
    } else {
      assert s.entries.Keys == {};
      assert |s.entries| == |s.entries.Keys| == 0;
    }
  }

  lemma {:induction false} InsertSize(s: Store, key: Key, value: PyValue, ttl: Option<real>, now: real, stamp: real)
    requires s.entries.Keys == s.access.Keys && Fits(|s.entries|, s.maxSize)
    ensures var s' := Insert(s, key, value, ttl, now, stamp);
      && s'.entries.Keys == s'.access.Keys
      && Fits(|s'.entries|, s'.maxSize)
      && |s'.entries| == if key in s.entries then |s.entries| else |RoomFor(s, key).entries| + 1
  {
    RoomSize(s, key);
    SizeWith(RoomFor(s, key).entries, key, Cached(value, Expiry(ttl, now)));
  }

  predicate Full(s: Store) {
    Capacity(s.maxSize).Some? && |s.entries| == Capacity(s.maxSize).value
  }

  /** A store grows by a new key unless it is full. */
  lemma {:induction false} InsertGrows(s: Store, key: Key, value: PyValue, ttl: Option<real>, now: real, stamp: real)
    requires s.entries.Keys == s.access.Keys && Fits(|s.entries|, s.maxSize)
    ensures |Insert(s, key, value, ttl, now, stamp).entries| ==
      if key in s.entries || Full(s) then |s.entries| else |s.entries| + 1
  {
    InsertSize(s, key, value, ttl, now, stamp);
    RoomSize(s, key);
    assert s.access == map[] <==> |s.entries.Keys| == 0;
  }

  /** The times of what is left, and a new latest one. */
  lemma {:induction false} InsertTimes(
      s: Store, key: Key, value: PyValue, ttl: Option<real>, now: real, stamp: real, clock: real)
    requires DistinctTimes(s.access) && (forall k | k in s.access :: s.access[k] <= clock) && clock < stamp
    ensures var access := Insert(s, key, value, ttl, now, stamp).access;
      DistinctTimes(access) && forall k | k in access :: access[k] <= stamp
  {
    var room := RoomFor(s, key);
    assert forall k | k in room.access :: k in s.access && room.access[k] == s.access[k];
  }

  lemma {:induction false} ReadKeepsValid(s: Store, key: Key, now: real, clock: real)
    requires Valid(s, clock) && clock < now
    ensures Valid(Read(s, key, now).0, now)
  {
    SizeWithout(s.entries, key);
    if key in s.entries && !IsExpired(s.entries[key], now) {
      assert s.access[key := now].Keys == s.access.Keys;
    }
  }

  lemma {:induction false} StepKeepsValid(s: Store, op: Op, clock: real)
    requires Valid(s, clock) && Ticks(op, clock)
    ensures Valid(Perform(s, op), Clock(op, clock)) && Perform(s, op).maxSize == s.maxSize
  {
    match op
    case GetOp(key, now) => ReadKeepsValid(s, key, now, clock);
    case SetOp(key, value, ttl, now, stamp) =>
      InsertSize(s, key, value, ttl, now, stamp);
      InsertTimes(s, key, value, ttl, now, stamp, clock);
    case DeleteOp(key) => SizeWithout(s.entries, key);
    case ClearOp =>
  }

  lemma {:induction false} RunKeepsValid(s: Store, ops: seq<Op>, clock: real)
    requires Valid(s, clock) && AllTick(ops, clock)
    ensures Valid(After(s, ops), ClockAfter(ops, clock)) && After(s, ops).maxSize == s.maxSize
    decreases |ops|
  {
    if ops != [] {
      StepKeepsValid(s, ops[0], clock);
      RunKeepsValid(Perform(s, ops[0]), ops[1..], Clock(ops[0], clock));
    }
  }

  // ---------------------------------------------------------------- in place

  class MemoryCacheAdapter {
    var entries: map<Key, Cached>
    var accessTimes: map<Key, real>
    const maxSize: Option<int>

    function View(): Store
      reads this
    {
      Store(entries, accessTimes, maxSize)
    }

    predicate KeysAgree()
      reads this
    {
      entries.Keys == accessTimes.Keys
    }

    /** No two entries were used at the same time, which a clock that moves between uses sees to. */
    predicate Distinct()
      reads this
    {
      DistinctTimes(accessTimes)
    }

    predicate Unused(time: real)
      reads this
    {
      forall k | k in accessTimes :: accessTimes[k] != time
    }

    constructor (maxSize: Option<int>)
      ensures View() == EmptyStore(maxSize) && KeysAgree() && Distinct()
    {
      entries, accessTimes := map[], map[];
      this.maxSize := maxSize;
    }

    method Get(key: Key, now: real) returns (hit: Option<PyValue>)
      requires KeysAgree()
      modifies this
      ensures KeysAgree() && (View(), hit) == Read(old(View()), key, now)
      ensures old(Distinct() && Unused(now)) ==> Distinct()
    {
      if key !in entries {
        return None;
      }
      var c := entries[key];
      accessTimes := accessTimes[key := now];
      if c.expiry.Some? && now > c.expiry.value {
        entries, accessTimes := entries - {key}, accessTimes - {key};
        assert accessTimes == old(accessTimes) - {key};
        return None;
      }
      return Some(c.value);
    }

    /** The entry that makes room is one used least recently: the only one, if the times are distinct. */
    method Set(key: Key, value: PyValue, ttl: Option<real>, now: real, stamp: real)
      requires KeysAgree()
      modifies this
      ensures KeysAgree()
      ensures exists room :: MakesRoom(old(View()), key, room) &&
                             View() == Fill(room, key, Cached(value, Expiry(ttl, now)), stamp)
      ensures old(Distinct()) ==> View() == Insert(old(View()), key, value, ttl, now, stamp)
      ensures old(Distinct() && Unused(stamp)) ==> Distinct()
    {
      var expiry := if ttl.Some? then Some(now + ttl.value) else None;
      MakeRoom(key);
      ghost var room := View();
      if old(Distinct()) {
        RoomIsUnique(old(View()), key, room);
      }
      Put(key, Cached(value, expiry), stamp);
      assert View() == Fill(room, key, Cached(value, expiry), stamp);
    }

    method MakeRoom(key: Key)
      requires KeysAgree()
      modifies this
      ensures KeysAgree() && MakesRoom(old(View()), key, View())
      ensures forall k | k in accessTimes :: k in old(accessTimes) && accessTimes[k] == old(accessTimes)[k]
    {
      if maxSize.Some? && |entries| >= maxSize.value && key !in entries {
        EvictLeastRecent();
      }
    }

    method Put(key: Key, c: Cached, stamp: real)
      requires KeysAgree()
      modifies this
      ensures KeysAgree() && View() == Fill(old(View()), key, c, stamp)
      ensures old(Distinct() && Unused(stamp)) ==> Distinct()
    {
      entries := entries[key := c];
      accessTimes := accessTimes[key := stamp];
    }

    method Remove(key: Key) returns (found: bool)
      requires KeysAgree()
      modifies this
      ensures KeysAgree() && (View(), found) == Delete(old(View()), key)
      ensures old(Distinct()) ==> Distinct()
    {
      if key in entries {
        entries, accessTimes := entries - {key}, accessTimes - {key};
        return true;
      }
      return false;
    }

    method Reset()
      modifies this
      ensures KeysAgree() && Distinct() && View() == Clear(old(View()))
    {
      entries, accessTimes := map[], map[];
    }

    method EvictLeastRecent()
      requires KeysAgree()
      modifies this
      ensures KeysAgree()
      ensures if old(accessTimes) == map[] then View() == old(View())
              else exists k :: IsOldest(old(accessTimes), k) && View() == Without(old(View()), k)
    {
      if accessTimes == map[] {
        return;
      }
      var oldest := FindOldest();
      entries, accessTimes := entries - {oldest}, accessTimes - {oldest};
      assert IsOldest(old(accessTimes), oldest) && View() == Without(old(View()), oldest);
    }

    method FindOldest() returns (oldest: Key)
      requires accessTimes != map[]
      ensures IsOldest(accessTimes, oldest)
    {
      oldest :| oldest in accessTimes;
      var todo := accessTimes.Keys - {oldest};
      while todo != {}
        invariant oldest in accessTimes && todo <= accessTimes.Keys
        invariant forall k | k in accessTimes && k !in todo :: accessTimes[oldest] <= accessTimes[k]
        decreases todo
      {
        var k :| k in todo;
        if accessTimes[k] < accessTimes[oldest] {
          oldest := k;
        }
        todo := todo - {k};
      }
    }
  }
}
