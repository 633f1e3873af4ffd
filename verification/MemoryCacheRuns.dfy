/**
  The memory cache over whole runs: against a larger cache on the same trace, against the plain
  history of what was set, and how long an entry survives.
*/
module MemoryCacheRuns {
  import opened Common
  import opened MemoryCache

  // ---------------------------------------------------------------- size

  /** A cache made with this size never holds more entries than that. */
  ghost predicate NeverExceeds(n: int) {
    forall ops, clock | AllTick(ops, clock) :: |After(EmptyStore(Some(n)), ops).entries| <= n
  }

  /** The documented bound holds on every trace if and only if it leaves room for an entry. */
  lemma {:induction false} SizeBoundExactly(n: int)
    ensures NeverExceeds(n) <==> n >= 1
  {
    if n >= 1 {
      forall ops, clock | AllTick(ops, clock) ensures |After(EmptyStore(Some(n)), ops).entries| <= n {
        RunKeepsValid(EmptyStore(Some(n)), ops, clock);
      }
    } else {
      var ops, clock := OneSetIsTooMany(n);
    }
  }

  lemma {:induction false} OneSetIsTooMany(n: int) returns (ops: seq<Op>, clock: real)
    requires n < 1
    ensures AllTick(ops, clock) && |After(EmptyStore(Some(n)), ops).entries| > n
  {
    ops, clock := [SetOp("k", PNone, None, 1.0, 1.0)], 0.0;
    assert ops[1..] == [] && AllTick(ops, 0.0);
    assert After(EmptyStore(Some(n)), ops).entries == map["k" := Cached(PNone, None)];
  }

  // ---------------------------------------------------------------- a smaller and a larger cache

  /** The capacity of `small` is at most that of `large`. */
  predicate NoLarger(small: Option<int>, large: Option<int>) {
    Capacity(large).Some? ==> Capacity(small).Some? && Capacity(small).value <= Capacity(large).value
  }

  predicate SameWhereSmall(small: Store, large: Store) {
    && small.entries.Keys <= large.entries.Keys
    && (forall k | k in small.entries :: large.entries[k] == small.entries[k])
    && (forall k | k in small.entries :: k in small.access && k in large.access && large.access[k] == small.access[k])
  }

  /** The larger cache is ahead by no more entries than it has extra room. */
  predicate Ahead(small: Store, large: Store) {
    Capacity(large.maxSize).Some? && Capacity(small.maxSize).Some? ==>
      |large.entries| - |small.entries| <= Capacity(large.maxSize).value - Capacity(small.maxSize).value
  }

  predicate Included(small: Store, large: Store) {
    NoLarger(small.maxSize, large.maxSize) && SameWhereSmall(small, large) && Ahead(small, large)
  }

  lemma {:induction false} WithoutAbsent(s: Store, key: Key)
    requires key !in s.entries && key !in s.access
    ensures Without(s, key) == s
  {
    assert s.entries - {key} == s.entries && s.access - {key} == s.access;
  }

  lemma {:induction false} WithoutKeepsIncluded(small: Store, large: Store, key: Key)
    requires Included(small, large)
    ensures Included(Without(small, key), Without(large, key))
  {
    SizeWithout(small.entries, key);
    SizeWithout(large.entries, key);
  }

  lemma {:induction false} DeleteKeepsIncluded(small: Store, large: Store, key: Key, clock: real)
    requires Valid(small, clock) && Valid(large, clock) && Included(small, large)
    ensures Included(Delete(small, key).0, Delete(large, key).0)
  {
    WithoutKeepsIncluded(small, large, key);
    if key !in small.entries {
      WithoutAbsent(small, key);
    }
    if key !in large.entries {
      WithoutAbsent(large, key);
    }
    assert Delete(small, key).0 == Without(small, key) && Delete(large, key).0 == Without(large, key);
  }

  lemma {:induction false} UseKeepsIncluded(small: Store, large: Store, key: Key, now: real)
    requires Included(small, large)
    ensures var used := large.(access := large.access[key := now]);
      && (key in small.entries ==> Included(small.(access := small.access[key := now]), used))
      && (key !in small.entries ==> Included(small, used))
  {
  }

  lemma {:induction false} ReadKeepsIncluded(small: Store, large: Store, key: Key, now: real, clock: real)
    requires Valid(small, clock) && Valid(large, clock) && Included(small, large)
    ensures Included(Read(small, key, now).0, Read(large, key, now).0)
    ensures Read(small, key, now).1.Some? ==> Read(large, key, now).1 == Read(small, key, now).1
  {
    if key in large.entries {
      if IsExpired(large.entries[key], now) {
        assert Read(small, key, now).0 == Delete(small, key).0 && Read(large, key, now).0 == Delete(large, key).0;
        DeleteKeepsIncluded(small, large, key, clock);
      } else {
        UseKeepsIncluded(small, large, key, now);
      }
    }
  }

  lemma {:induction false} SameKeySizes(small: Store, large: Store)
    requires small.entries.Keys <= large.entries.Keys
    ensures |small.entries| <= |large.entries|
  {
    SubsetSize(small.entries.Keys, large.entries.Keys);
    assert |small.entries.Keys| == |small.entries| && |large.entries.Keys| == |large.entries|;
  }

  /** When the larger cache is full and drops its oldest entry, the smaller one is full too and
      either lacks that entry or drops the very same one. */
  lemma {:induction false} RoomKeepsSame(small: Store, large: Store, key: Key, clock: real)
    requires Valid(small, clock) && Valid(large, clock) && Included(small, large)
    ensures SameWhereSmall(RoomFor(small, key), RoomFor(large, key))
  {
    if MustEvict(large, key) && large.access != map[] {
      var oldest := OldestKey(large.access);
      if oldest in small.entries {
        EvictsTogether(small, large, key, clock);
        assert IsOldest(small.access, oldest);
        OldestIsUnique(small.access, oldest, OldestKey(small.access));
      }
    }
  }

  lemma {:induction false} EvictsTogether(small: Store, large: Store, key: Key, clock: real)
    requires Valid(small, clock) && Valid(large, clock) && Included(small, large)
    requires MustEvict(large, key) && small.entries != map[]
    ensures MustEvict(small, key)
  {
    SameKeySizes(small, large);
    assert |small.entries| > 0;
  }

  lemma {:induction false} InsertKeepsAhead(
      small: Store, large: Store, key: Key, value: PyValue, ttl: Option<real>, now: real, stamp: real, clock: real)
    requires Valid(small, clock) && Valid(large, clock) && Included(small, large)
    ensures Ahead(Insert(small, key, value, ttl, now, stamp), Insert(large, key, value, ttl, now, stamp))
  {
    SameKeySizes(small, large);
    InsertGrows(small, key, value, ttl, now, stamp);
    InsertGrows(large, key, value, ttl, now, stamp);
  }

  lemma {:induction false} InsertKeepsSame(
      small: Store, large: Store, key: Key, value: PyValue, ttl: Option<real>, now: real, stamp: real)
    requires SameWhereSmall(RoomFor(small, key), RoomFor(large, key))
    ensures SameWhereSmall(Insert(small, key, value, ttl, now, stamp), Insert(large, key, value, ttl, now, stamp))
  {
  }

  lemma {:induction false} InsertKeepsIncluded(
      small: Store, large: Store, key: Key, value: PyValue, ttl: Option<real>, now: real, stamp: real, clock: real)
    requires Valid(small, clock) && Valid(large, clock) && Included(small, large)
    ensures Included(Insert(small, key, value, ttl, now, stamp), Insert(large, key, value, ttl, now, stamp))
  {
    InsertKeepsAhead(small, large, key, value, ttl, now, stamp, clock);
    RoomKeepsSame(small, large, key, clock);
    InsertKeepsSame(small, large, key, value, ttl, now, stamp);
  }

  lemma {:induction false} StepKeepsIncluded(small: Store, large: Store, op: Op, clock: real)
    requires Valid(small, clock) && Valid(large, clock) && Included(small, large)
    ensures Included(Perform(small, op), Perform(large, op))
  {
    match op
    case GetOp(key, now) => ReadKeepsIncluded(small, large, key, now, clock);
    case SetOp(key, value, ttl, now, stamp) => InsertKeepsIncluded(small, large, key, value, ttl, now, stamp, clock);
    case DeleteOp(key) => DeleteKeepsIncluded(small, large, key, clock);
    case ClearOp =>
  }

  /** On the same trace the smaller cache stays inside the larger one, with the same values, expiries
      and access times. */
  lemma {:induction false} Inclusion(small: Store, large: Store, ops: seq<Op>, clock: real)
    requires Valid(small, clock) && Valid(large, clock) && Included(small, large) && AllTick(ops, clock)
    ensures Included(After(small, ops), After(large, ops))
    decreases |ops|
  {
    if ops != [] {
      StepKeepsIncluded(small, large, ops[0], clock);
      StepKeepsValid(small, ops[0], clock);
      StepKeepsValid(large, ops[0], clock);
      Inclusion(Perform(small, ops[0]), Perform(large, ops[0]), ops[1..], Clock(ops[0], clock));
    }
  }

  /** So each hit in a small cache is the same hit in any larger one. */
  lemma {:induction false} SmallHitsAreLargeHits(
      n: Option<int>, m: Option<int>, ops: seq<Op>, clock: real, key: Key, now: real)
    requires NoLarger(n, m) && AllTick(ops, clock)
    ensures var hit := Read(After(EmptyStore(n), ops), key, now).1;
      hit.Some? ==> Read(After(EmptyStore(m), ops), key, now).1 == hit
  {
    Inclusion(EmptyStore(n), EmptyStore(m), ops, clock);
    RunKeepsValid(EmptyStore(n), ops, clock);
    RunKeepsValid(EmptyStore(m), ops, clock);
    ReadKeepsIncluded(After(EmptyStore(n), ops), After(EmptyStore(m), ops), key, now, ClockAfter(ops, clock));
  }

  // ---------------------------------------------------------------- against the history

  /** A value, how long it was to live, and when it was set. */
  datatype Written = Written(value: PyValue, ttl: Option<real>, at: real)

  /** What was last set under a key and not deleted since, read off the history alone. */
  function LastSet(ops: seq<Op>, key: Key): Option<Written> {
    if ops == [] then None else
      var before := LastSet(ops[..|ops| - 1], key);
      match ops[|ops| - 1]
      case SetOp(k, value, ttl, now, _) => if k == key then Some(Written(value, ttl, now)) else before
      case DeleteOp(k) => if k == key then None else before
      case ClearOp => None
      case GetOp(_, _) => before
  }

  /** It has not lived longer than it was to. */
  predicate Young(w: Written, now: real) {
    w.ttl.Some? ==> now <= w.at + w.ttl.value
  }

  lemma {:induction false} AfterLast(s: Store, ops: seq<Op>, op: Op)
    ensures After(s, ops + [op]) == Perform(After(s, ops), op)
    decreases |ops|
  {
    if ops == [] {
      assert [op][1..] == [];
    } else {
      assert (ops + [op])[1..] == ops[1..] + [op];
      AfterLast(Perform(s, ops[0]), ops[1..], op);
    }
  }

  lemma {:induction false} TickLast(ops: seq<Op>, op: Op, clock: real)
    ensures AllTick(ops + [op], clock) <==> AllTick(ops, clock) && Ticks(op, ClockAfter(ops, clock))
    ensures ClockAfter(ops + [op], clock) == Clock(op, ClockAfter(ops, clock))
    decreases |ops|
  {
    if ops == [] {
      assert [op][1..] == [];
    } else {
      assert (ops + [op])[1..] == ops[1..] + [op];
      TickLast(ops[1..], op, Clock(ops[0], clock));
    }
  }

  /** With no limit, the cache holds exactly what was last set, but for what it has found expired. */
  predicate Records(s: Store, last: Option<Written>, key: Key, clock: real) {
    && (key in s.entries ==>
          last.Some? && s.entries[key].value == last.value.value &&
          s.entries[key].expiry == (if last.value.ttl.Some? then Some(last.value.at + last.value.ttl.value) else None))
    && (key !in s.entries && last.Some? ==> !Young(last.value, clock))
  }

  lemma {:induction false} StepRecords(s: Store, ops: seq<Op>, op: Op, key: Key, clock: real)
    requires s.maxSize == None && Records(s, LastSet(ops, key), key, clock) && Ticks(op, clock)
    ensures Records(Perform(s, op), LastSet(ops + [op], key), key, Clock(op, clock))
  {
    var last, all := LastSet(ops, key), ops + [op];
    assert all[..|ops|] == ops && all[|ops|] == op;
    match op
    case SetOp(k, value, ttl, now, stamp) =>
      assert LastSet(all, key) == if k == key then Some(Written(value, ttl, now)) else last;
      SetRecords(s, last, k, value, ttl, now, stamp, key, clock);
    case GetOp(k, now) =>
      assert LastSet(all, key) == last;
      GetRecords(s, last, k, now, key, clock);
    case DeleteOp(k) => assert LastSet(all, key) == if k == key then None else last;
    case ClearOp => assert LastSet(all, key) == None;
  }

  lemma {:induction false} SetRecords(s: Store, last: Option<Written>, k: Key, value: PyValue, ttl: Option<real>,
                                      now: real, stamp: real, key: Key, clock: real)
    requires s.maxSize == None && Records(s, last, key, clock) && clock < now <= stamp
    ensures Records(Insert(s, k, value, ttl, now, stamp),
              if k == key then Some(Written(value, ttl, now)) else last, key, stamp)
  {
  }

  lemma {:induction false} GetRecords(s: Store, last: Option<Written>, k: Key, now: real, key: Key, clock: real)
    requires Records(s, last, key, clock) && clock < now
    ensures Records(Read(s, k, now).0, last, key, now)
  {
  }

  lemma {:induction false} UnlimitedRecords(ops: seq<Op>, key: Key, clock: real)
    requires AllTick(ops, clock)
    ensures Records(After(EmptyStore(None), ops), LastSet(ops, key), key, ClockAfter(ops, clock))
    ensures After(EmptyStore(None), ops).maxSize == None
    decreases |ops|
  {
    if ops != [] {
      var before, last := ops[..|ops| - 1], ops[|ops| - 1];
      assert before + [last] == ops;
      TickLast(before, last, clock);
      AfterLast(EmptyStore(None), before, last);
      UnlimitedRecords(before, key, clock);
      RunKeepsValid(EmptyStore(None), before, clock);
      StepRecords(After(EmptyStore(None), before), before, last, key, ClockAfter(before, clock));
    }
  }

  /** Whether a key is live at a moment, by the history. */
  function LiveValue(ops: seq<Op>, key: Key, now: real): Option<PyValue> {
    var last := LastSet(ops, key);
    if last.Some? && Young(last.value, now) then Some(last.value.value) else None
  }

  /** The unlimited cache is the timed map: it hits exactly on live keys, with the value last set. */
  lemma {:induction false} UnlimitedIsTimedMap(ops: seq<Op>, clock: real, key: Key, now: real)
    requires AllTick(ops, clock) && ClockAfter(ops, clock) < now
    ensures Read(After(EmptyStore(None), ops), key, now).1 == LiveValue(ops, key, now)
  {
    UnlimitedRecords(ops, key, clock);
  }

  /** Whatever its size, a hit returns the value last set, and that value has not expired. */
  lemma {:induction false} HitIsLastSet(n: Option<int>, ops: seq<Op>, clock: real, key: Key, now: real)
    requires AllTick(ops, clock) && ClockAfter(ops, clock) < now
    ensures var hit := Read(After(EmptyStore(n), ops), key, now).1;
      hit.Some? ==> hit == LiveValue(ops, key, now)
  {
    SmallHitsAreLargeHits(n, None, ops, clock, key, now);
    UnlimitedIsTimedMap(ops, clock, key, now);
  }

  // ---------------------------------------------------------------- survival

  /** The key an operation uses: the one it sets or hits. */
  ghost function Used(s: Store, op: Op): set<Key> {
    match op
    case SetOp(key, _, _, _, _) => {key}
    case GetOp(key, now) => if Read(s, key, now).1.Some? then {key} else {}
    case _ => {}
  }

  ghost function UsedIn(s: Store, ops: seq<Op>): set<Key>
    decreases |ops|
  {
    if ops == [] then {} else Used(s, ops[0]) + UsedIn(Perform(s, ops[0]), ops[1..])
  }

  predicate Concerns(op: Op, key: Key) {
    match op
    case GetOp(k, _) => k == key
    case SetOp(k, _, _, _, _) => k == key
    case DeleteOp(k) => k == key
    case ClearOp => true
  }

  /** Everything used after `key` is in `recent`. */
  predicate UsedSince(s: Store, key: Key, recent: set<Key>) {
    && key in s.entries && key in s.access
    && forall k | k in s.access && s.access[k] > s.access[key] :: k in recent
  }

  /** If `key` is dropped to make room for another, all the rest was used since. */
  lemma {:induction false} EvictedAfterMany(s: Store, key: Key, other: Key, recent: set<Key>, clock: real)
    requires Valid(s, clock) && UsedSince(s, key, recent) && other != key
    requires MustEvict(s, other) && OldestKey(s.access) == key
    ensures |recent + {other}| >= Capacity(s.maxSize).value
  {
    forall k | k in s.access && k != key ensures k in recent {
      assert s.access[key] <= s.access[k];
    }
    var rest := s.access.Keys - {key};
    assert |rest| == |s.access.Keys| - 1 && |s.entries.Keys| == |s.entries|;
    assert other !in rest;
    SubsetSize(rest + {other}, recent + {other});
  }

  lemma {:induction false} StepSurvives(s: Store, op: Op, key: Key, recent: set<Key>, clock: real)
    requires Valid(s, clock) && Ticks(op, clock) && UsedSince(s, key, recent) && !Concerns(op, key)
    requires Capacity(s.maxSize).Some? ==> |recent + Used(s, op)| < Capacity(s.maxSize).value
    ensures UsedSince(Perform(s, op), key, recent + Used(s, op))
    ensures Perform(s, op).entries[key] == s.entries[key]
  {
    match op
    case SetOp(other, value, ttl, now, stamp) =>
      InsertSurvives(s, key, other, recent, clock);
      FillSurvives(RoomFor(s, other), key, other, Cached(value, Expiry(ttl, now)), stamp, recent);
    case GetOp(other, now) => ReadSurvives(s, key, other, now, recent);
    case DeleteOp(other) => assert UsedSince(Without(s, other), key, recent);
    case ClearOp =>
  }

  lemma {:induction false} FillSurvives(s: Store, key: Key, other: Key, c: Cached, stamp: real, recent: set<Key>)
    requires UsedSince(s, key, recent) && other != key
    ensures UsedSince(Fill(s, other, c, stamp), key, recent + {other})
    ensures Fill(s, other, c, stamp).entries[key] == s.entries[key]
  {
  }

  lemma {:induction false} ReadSurvives(s: Store, key: Key, other: Key, now: real, recent: set<Key>)
    requires UsedSince(s, key, recent) && other != key
    ensures UsedSince(Read(s, other, now).0, key, recent + Used(s, GetOp(other, now)))
    ensures Read(s, other, now).0.entries[key] == s.entries[key]
  {
  }

  lemma {:induction false} InsertSurvives(s: Store, key: Key, other: Key, recent: set<Key>, clock: real)
    requires Valid(s, clock) && UsedSince(s, key, recent) && other != key
    requires Capacity(s.maxSize).Some? ==> |recent + {other}| < Capacity(s.maxSize).value
    ensures UsedSince(RoomFor(s, other), key, recent)
    ensures RoomFor(s, other).entries[key] == s.entries[key] && RoomFor(s, other).access[key] == s.access[key]
  {
    if MustEvict(s, other) && OldestKey(s.access) == key {
      EvictedAfterMany(s, key, other, recent, clock);
    }
  }

  /** An entry that is neither deleted nor looked at again stays, unchanged, as long as fewer
      distinct other keys are set or hit than the cache has room for. */
  lemma {:induction false} Survives(s: Store, ops: seq<Op>, key: Key, recent: set<Key>, clock: real)
    requires Valid(s, clock) && AllTick(ops, clock) && UsedSince(s, key, recent)
    requires forall i | 0 <= i < |ops| :: !Concerns(ops[i], key)
    requires Capacity(s.maxSize).Some? ==> |recent + UsedIn(s, ops)| < Capacity(s.maxSize).value
    ensures key in After(s, ops).entries && After(s, ops).entries[key] == s.entries[key]
    decreases |ops|
  {
    if ops != [] {
      var used, rest := Used(s, ops[0]), UsedIn(Perform(s, ops[0]), ops[1..]);
      assert recent + (used + rest) == (recent + used) + rest;
      SubsetSize(recent + used, recent + used + rest);
      StepSurvives(s, ops[0], key, recent, clock);
      StepKeepsValid(s, ops[0], clock);
      Survives(Perform(s, ops[0]), ops[1..], key, recent + used, Clock(ops[0], clock));
    }
  }

  /** After a `set`, and while fewer than `max_size` distinct other keys have been used, the key is
      a hit with the value set until it expires. */
  lemma {:induction false} SetThenHit(
      s: Store, clock: real, key: Key, value: PyValue, ttl: Option<real>, now: real, stamp: real,
      ops: seq<Op>, later: real)
    requires Valid(s, clock) && clock < now <= stamp && AllTick(ops, stamp)
    requires forall i | 0 <= i < |ops| :: !Concerns(ops[i], key)
    requires var s' := Insert(s, key, value, ttl, now, stamp);
      Capacity(s.maxSize).Some? ==> |UsedIn(s', ops)| < Capacity(s.maxSize).value
    requires ttl.Some? ==> later <= now + ttl.value
    ensures Read(After(Insert(s, key, value, ttl, now, stamp), ops), key, later).1 == Some(value)
  {
    var s' := Insert(s, key, value, ttl, now, stamp);
    StepKeepsValid(s, SetOp(key, value, ttl, now, stamp), clock);
    assert {} + UsedIn(s', ops) == UsedIn(s', ops);
    Survives(s', ops, key, {}, stamp);
  }

  /** A hit counts as a use: while fewer than `max_size` distinct other keys have been used after it, the key
      goes on hitting, with the same value, until it expires. */
  lemma {:induction false} HitThenHit(s: Store, clock: real, key: Key, now: real, ops: seq<Op>, later: real)
    requires Valid(s, clock) && clock < now && AllTick(ops, now) && Read(s, key, now).1.Some?
    requires forall i | 0 <= i < |ops| :: !Concerns(ops[i], key)
    requires var s' := Read(s, key, now).0;
      Capacity(s.maxSize).Some? ==> |UsedIn(s', ops)| < Capacity(s.maxSize).value
    requires s.entries[key].expiry.Some? ==> later <= s.entries[key].expiry.value
    ensures Read(After(Read(s, key, now).0, ops), key, later).1 == Read(s, key, now).1
  {
    var s' := Read(s, key, now).0;
    StepKeepsValid(s, GetOp(key, now), clock);
    assert {} + UsedIn(s', ops) == UsedIn(s', ops);
    Survives(s', ops, key, {}, now);
  }
}
