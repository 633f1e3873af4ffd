/**
  The cancellable priority queue of `queue.py`.

  A cancelled entry is not taken out of the heap: its id goes to a set of cancelled ids and the
  entry is skipped when it comes up. The first half of this module says what each operation does
  to the queue's state as functions; the class at the end runs them in place.
*/
module Queue {
  import opened Common

  /** What the heap holds under a task id. Ids are unique, as `put` asks for. */
  datatype Entry = Entry(priority: int, call: Call, timeout: Option<real>)

  type Heap = map<TaskId, Entry>

  datatype Item = Item(id: TaskId, entry: Entry)

  /** The order of the tuples in the heap: by priority, then by task id. */
  predicate Before(heap: Heap, a: TaskId, b: TaskId)
    requires a in heap && b in heap
  {
    heap[a].priority < heap[b].priority || (heap[a].priority == heap[b].priority && TextBefore(a, b))
  }

  const WAIT_TIME_WINDOW := 100

  datatype Stats = Stats(
    queueSize: int,
    enqueuedTotal: nat,
    dequeuedTotal: nat,
    avgWaitTime: real,
    peakQueueSize: int,
    waitTimes: seq<real>)

  /** `heap` and `unfinished` are `asyncio.PriorityQueue`'s; the rest is `TaskQueue`'s own. */
  datatype QueueState = QueueState(
    heap: Heap,
    unfinished: int,
    entryTimes: map<TaskId, real>,
    queued: set<TaskId>,
    cancelled: set<TaskId>,
    stats: Stats)

  const EmptyStats := Stats(0, 0, 0, 0.0, 0, [])
  const EmptyQueue := QueueState(map[], 0, map[], {}, {}, EmptyStats)

  // ---------------------------------------------------------------- extract-min

  /** `m` is the first of `ids` in heap order. */
  predicate IsMin(heap: Heap, ids: set<TaskId>, m: TaskId)
    requires ids <= heap.Keys
  {
    m in ids && forall id | id in ids :: !Before(heap, id, m)
  }

  lemma {:induction false} BeforeIsTransitive(heap: Heap, a: TaskId, b: TaskId, c: TaskId)
    requires a in heap && b in heap && c in heap
    requires Before(heap, a, b) && Before(heap, b, c)
    ensures Before(heap, a, c)
  {
    if heap[a].priority == heap[b].priority == heap[c].priority {
      TextBeforeIsTransitive(a, b, c);
    }
  }

  lemma {:induction false} BeforeIsTotal(heap: Heap, a: TaskId, b: TaskId)
    requires a in heap && b in heap
    ensures a == b || Before(heap, a, b) || Before(heap, b, a)
    ensures !(Before(heap, a, b) && Before(heap, b, a))
  {
    TextBeforeIsTotal(a, b);
    if Before(heap, a, b) && Before(heap, b, a) {
      TextBeforeIsTransitive(a, b, a);
      TextBeforeIsIrreflexive(a);
    }
  }

  lemma {:induction false} MinExists(heap: Heap, ids: set<TaskId>)
    requires ids != {} && ids <= heap.Keys
    ensures exists m :: IsMin(heap, ids, m)
    decreases |ids|
  {
    var id :| id in ids;
    BeforeIsTotal(heap, id, id);
    var rest := ids - {id};
    if rest == {} {
      assert ids == {id};
      assert IsMin(heap, ids, id);
    } else {
      MinExists(heap, rest);
      var m :| IsMin(heap, rest, m);
      if Before(heap, id, m) {
        forall other | other in ids ensures !Before(heap, other, id) {
          if other != id && Before(heap, other, id) {
            BeforeIsTransitive(heap, other, id, m);
          }
        }
        assert IsMin(heap, ids, id);
      } else {
        assert IsMin(heap, ids, m);
      }
    }
  }

  lemma {:induction false} MinIsUnique(heap: Heap, ids: set<TaskId>, a: TaskId, b: TaskId)
    requires ids <= heap.Keys && IsMin(heap, ids, a) && IsMin(heap, ids, b)
    ensures a == b
  {
    BeforeIsTotal(heap, a, b);
  }

  ghost function MinId(heap: Heap): (m: TaskId)
    requires heap != map[]
    ensures IsMin(heap, heap.Keys, m)
  {
    MinExists(heap, heap.Keys);
    var m :| IsMin(heap, heap.Keys, m);
    m
  }

  // ---------------------------------------------------------------- statistics

  function UpdateEnqueue(s: Stats): Stats {
    var size := s.queueSize + 1;
    s.(enqueuedTotal := s.enqueuedTotal + 1,
       queueSize := size,
       peakQueueSize := if size > s.peakQueueSize then size else s.peakQueueSize)
  }

  function UpdateDequeue(s: Stats, wait: Option<real>): Stats {
    var counted := s.(dequeuedTotal := s.dequeuedTotal + 1, queueSize := s.queueSize - 1);
    if wait.None? then counted else
      var window := Window(s.waitTimes, wait.value);
      counted.(waitTimes := window, avgWaitTime := Mean(window, s.avgWaitTime))
  }

  /** One more wait; beyond a hundred the oldest is dropped. */
  function Window(waits: seq<real>, wait: real): seq<real> {
    var more := waits + [wait];
    if |more| > WAIT_TIME_WINDOW then more[1..] else more
  }

  function Mean(waits: seq<real>, otherwise: real): real {
    if waits == [] then otherwise else Sum(waits) / |waits| as real
  }

  function Sum(xs: seq<real>): real {
    if xs == [] then 0.0 else Sum(xs[..|xs| - 1]) + xs[|xs| - 1]
  }

  // ---------------------------------------------------------------- the operations

  function Put(q: QueueState, it: Item, now: real): QueueState {
    q.(entryTimes := q.entryTimes[it.id := now],
       queued := q.queued + {it.id},
       heap := q.heap[it.id := it.entry],
       unfinished := q.unfinished + 1,
       stats := UpdateEnqueue(q.stats))
  }

  /** One pass of `_get_valid_task`: cancelled entries are dropped until a valid one comes up.
      `None` is the wait for a later `put`. */
  ghost function Get(q: QueueState, now: real): (QueueState, Option<Item>)
    decreases |q.heap|
  {
    if q.heap == map[] then (q, None) else
      var id := MinId(q.heap);
      if id in q.cancelled then Get(Skip(q, id), now) else (Take(q, id, now), Some(Item(id, q.heap[id])))
  }

  function Skip(q: QueueState, id: TaskId): (q': QueueState)
    ensures id in q.heap ==> |q'.heap| < |q.heap|
  {
    assert id in q.heap ==> |q.heap - {id}| < |q.heap| by {
      if id in q.heap { Shrinks(q.heap, id); }
    }
    q.(heap := q.heap - {id}, cancelled := q.cancelled - {id}, unfinished := q.unfinished - 1)
  }

  lemma {:induction false} Shrinks<V>(m: map<TaskId, V>, id: TaskId)
    requires id in m
    ensures |m - {id}| == |m| - 1
  {
    assert (m - {id}).Keys == m.Keys - {id};
    assert |m.Keys - {id}| == |m.Keys| - 1;
  }

  function Take(q: QueueState, id: TaskId, now: real): QueueState {
    var wait := if id in q.entryTimes then Some(now - q.entryTimes[id]) else None;
    q.(heap := q.heap - {id},
       entryTimes := q.entryTimes - {id},
       queued := q.queued - {id},
       stats := UpdateDequeue(q.stats, wait))
  }

  function Remove(q: QueueState, id: TaskId): (QueueState, bool) {
    if id !in q.queued then (q, false)
    else (q.(cancelled := q.cancelled + {id},
             queued := q.queued - {id},
             entryTimes := q.entryTimes - {id},
             stats := q.stats.(queueSize := q.stats.queueSize - 1)), true)
  }

  function TaskDone(q: QueueState): QueueState {
    q.(unfinished := q.unfinished - 1)
  }

  function Clean(q: QueueState, ids: set<TaskId>): QueueState {
    q.(cancelled := q.cancelled - ids, queued := q.queued - ids, entryTimes := q.entryTimes - ids)
  }

  function ClearTracking(q: QueueState): QueueState {
    q.(entryTimes := map[], queued := {}, cancelled := {})
  }

  // ---------------------------------------------------------------- true removal

  /** The ids that would still be queued if cancelling took entries out of the heap. */
  function Live(q: QueueState): set<TaskId> {
    q.heap.Keys - q.cancelled
  }

  /** The tracking collections, the counters and the heap tell one story. */
  predicate Consistent(q: QueueState) {
    && q.cancelled <= q.heap.Keys
    && q.queued == Live(q)
    && q.entryTimes.Keys == q.queued
    && q.stats.queueSize == |q.queued|
  }

  lemma {:induction false} PutInserts(q: QueueState, it: Item, now: real)
    requires Consistent(q) && it.id !in q.heap
    ensures var q' := Put(q, it, now);
      && Consistent(q')
      && Live(q') == Live(q) + {it.id}
      && q'.heap[it.id] == it.entry
      && (forall id | id in Live(q) :: q'.heap[id] == q.heap[id])
  {
    var q' := Put(q, it, now);
    assert q'.stats.queueSize == |q'.queued| by {
      OneMoreId(q.queued, it.id);
    }
    PutTracks(q.heap, q.entryTimes, q.queued, q.cancelled, it, now);
  }

  /** The heap and the collections that track it take up the new id together. */
  lemma {:induction false} PutTracks(
      heap: Heap, entryTimes: map<TaskId, real>, queued: set<TaskId>, cancelled: set<TaskId>, it: Item, now: real)
    requires cancelled <= heap.Keys && queued == heap.Keys - cancelled && entryTimes.Keys == queued && it.id !in heap
    ensures var heap' := heap[it.id := it.entry];
      && cancelled <= heap'.Keys
      && heap'.Keys - cancelled == queued + {it.id} == entryTimes[it.id := now].Keys
  {
  }

  lemma {:induction false} OneMoreId(ids: set<TaskId>, id: TaskId)
    ensures |ids + {id}| == if id in ids then |ids| else |ids| + 1
  {
    if id in ids {
      assert ids + {id} == ids;
    }
  }

  /** Removing deletes the live entry with that id and reports whether there was one. */
  lemma {:induction false} RemoveDeletes(q: QueueState, id: TaskId)
    requires Consistent(q)
    ensures var (q', removed) := Remove(q, id);
      && Consistent(q')
      && removed == (id in Live(q))
      && Live(q') == Live(q) - {id}
      && q'.heap == q.heap
  {
  }

  /** The entries `Get` drops: cancelled, and before the one it returns. */
  function Purged(q: QueueState, r: Option<Item>): set<TaskId>
    requires r.Some? ==> r.value.id in q.heap
  {
    set id | id in q.heap && id in q.cancelled && (r.Some? ==> Before(q.heap, id, r.value.id))
  }

  function ReturnedIds(r: Option<Item>): set<TaskId> {
    if r.Some? then {r.value.id} else {}
  }

  /** What `Get` leaves behind when it drops `gone` and returns `r`. */
  ghost predicate Leaves(q: QueueState, now: real, r: Option<Item>, gone: set<TaskId>, q': QueueState) {
    && q'.heap == q.heap - gone - ReturnedIds(r)
    && q'.cancelled == q.cancelled - gone
    && q'.unfinished == q.unfinished - |gone|
    && q'.queued == q.queued - ReturnedIds(r)
    && q'.entryTimes == q.entryTimes - ReturnedIds(r)
    && q'.stats == (if r.Some? then Take(q, r.value.id, now).stats else q.stats)
  }

  /** The least live entry is returned, exactly the cancelled entries before it are dropped, and
      there is a wait only when no live entry is left. */
  ghost predicate TakesLeast(q: QueueState, now: real, q': QueueState, r: Option<Item>) {
    && (r.None? <==> Live(q) == {})
    && (r.Some? ==> IsMin(q.heap, Live(q), r.value.id) && r.value.entry == q.heap[r.value.id])
    && Leaves(q, now, r, Purged(q, r), q')
  }

  /** Dropping a cancelled minimum first changes neither what is live nor its least entry. */
  lemma {:induction false} SkipKeepsMin(q: QueueState, id: TaskId, m: TaskId)
    requires IsMin(q.heap, q.heap.Keys, id) && id in q.cancelled
    requires IsMin(Skip(q, id).heap, Live(Skip(q, id)), m)
    ensures m in q.heap && IsMin(q.heap, Live(q), m) && Before(q.heap, id, m)
  {
    var s := Skip(q, id);
    forall other | other in Live(q) ensures !Before(q.heap, other, m) {
      assert !Before(s.heap, other, m);
    }
    BeforeIsTotal(q.heap, id, m);
  }

  /** Such a minimum only adds itself to what is dropped. */
  lemma {:induction false} SkipPurges(q: QueueState, id: TaskId, r: Option<Item>)
    requires id in q.heap && id in q.cancelled
    requires r.Some? ==> r.value.id in Skip(q, id).heap && Before(q.heap, id, r.value.id)
    ensures Purged(q, r) == Purged(Skip(q, id), r) + {id}
  {
    var s := Skip(q, id);
    forall other | other in q.heap ensures other in Purged(q, r) <==> other in Purged(s, r) + {id} {
      if other != id && r.Some? {
        assert Before(s.heap, other, r.value.id) == Before(q.heap, other, r.value.id);
      }
    }
  }

  lemma {:induction false} SkipLeaves(
      q: QueueState, id: TaskId, now: real, r: Option<Item>, gone: set<TaskId>, q': QueueState)
    requires id in q.heap && id !in gone && Leaves(Skip(q, id), now, r, gone, q')
    ensures Leaves(q, now, r, gone + {id}, q')
  {
    assert q.heap - (gone + {id}) == (q.heap - {id}) - gone;
    assert q.cancelled - (gone + {id}) == (q.cancelled - {id}) - gone;
  }

  lemma {:induction false} SkipKeepsLive(q: QueueState, id: TaskId)
    requires id in q.cancelled
    ensures Live(Skip(q, id)) == Live(q)
  {
  }

  lemma {:induction false} SkipTakesLeast(q: QueueState, id: TaskId, now: real, q': QueueState, r: Option<Item>)
    requires IsMin(q.heap, q.heap.Keys, id) && id in q.cancelled
    requires TakesLeast(Skip(q, id), now, q', r)
    ensures TakesLeast(q, now, q', r)
  {
    SkipKeepsLive(q, id);
    if r.Some? {
      SkipKeepsMin(q, id, r.value.id);
    }
    SkipPurges(q, id, r);
    SkipLeaves(q, id, now, r, Purged(Skip(q, id), r), q');
  }

  lemma {:induction false} MinTakesLeast(q: QueueState, id: TaskId, now: real)
    requires IsMin(q.heap, q.heap.Keys, id) && id !in q.cancelled
    ensures TakesLeast(q, now, Take(q, id, now), Some(Item(id, q.heap[id])))
  {
    var r := Some(Item(id, q.heap[id]));
    assert IsMin(q.heap, Live(q), id);
    assert Purged(q, r) == {};
    assert q.heap - {} - {id} == q.heap - {id};
  }

  lemma {:induction false} GetReturnsMin(q: QueueState, now: real)
    ensures TakesLeast(q, now, Get(q, now).0, Get(q, now).1)
    decreases |q.heap|
  {
    if q.heap == map[] {
      assert Purged(q, None) == {};
      assert q.heap - {} - {} == q.heap;
    } else {
      var id := MinId(q.heap);
      if id in q.cancelled {
        GetReturnsMin(Skip(q, id), now);
        SkipTakesLeast(q, id, now, Get(q, now).0, Get(q, now).1);
      } else {
        MinTakesLeast(q, id, now);
      }
    }
  }

  /** In numbers and characters: no live entry has a smaller priority number than the one returned, and
      of those with the same number its id comes first. */
  lemma {:induction false} GetTakesFirst(q: QueueState, now: real)
    ensures var r := Get(q, now).1;
      r.Some? ==>
        && r.value.id in q.heap && r.value.id !in q.cancelled && r.value.entry == q.heap[r.value.id]
        && (forall id | id in q.heap && id !in q.cancelled :: r.value.entry.priority <= q.heap[id].priority)
        && forall id | id in q.heap && id !in q.cancelled && id != r.value.id ::
             q.heap[id].priority == r.value.entry.priority ==>
             r.value.id < id ||
             exists k | 0 <= k < |r.value.id| && k < |id| :: r.value.id[..k] == id[..k] && r.value.id[k] < id[k]
  {
    GetReturnsMin(q, now);
    var r := Get(q, now).1;
    if r.Some? {
      var first := r.value.id;
      forall id | id in q.heap && id !in q.cancelled && id != first
        ensures q.heap[first].priority <= q.heap[id].priority
        ensures q.heap[id].priority == q.heap[first].priority ==>
          first < id || exists k | 0 <= k < |first| && k < |id| :: first[..k] == id[..k] && first[k] < id[k]
      {
        assert id in Live(q);
        FirstOfTwo(q.heap, first, id);
      }
    }
  }

  lemma {:induction false} FirstOfTwo(heap: Heap, a: TaskId, b: TaskId)
    requires a in heap && b in heap && a != b && !Before(heap, b, a)
    ensures heap[a].priority <= heap[b].priority
    ensures heap[a].priority == heap[b].priority ==>
      a < b || exists k | 0 <= k < |a| && k < |b| :: a[..k] == b[..k] && a[k] < b[k]
  {
    BeforeIsTotal(heap, a, b);
    TextBeforeExactly(a, b);
  }

  /** Until something is put, tasks come out by priority. */
  lemma {:induction false} GetsAreOrdered(q: QueueState, now: real, later: real)
    ensures var (q', r) := Get(q, now);
      var r' := Get(q', later).1;
      r.Some? && r'.Some? ==> r.value.entry.priority <= r'.value.entry.priority
  {
    var q' := Get(q, now).0;
    GetReturnsMin(q, now);
    GetTakesFirst(q, now);
    GetReturnsMin(q', later);
  }

  /** The statistics move by the one entry returned, which was live. */
  lemma {:induction false} GetCounts(q: QueueState, now: real)
    ensures var (q', r) := Get(q, now);
      && q'.stats == (if r.Some? then Take(q, r.value.id, now).stats else q.stats)
      && q'.entryTimes == q.entryTimes - ReturnedIds(r)
      && (r.Some? ==> r.value.id in Live(q))
  {
    GetReturnsMin(q, now);
  }

  /** The collections stay in step when cancelled entries and the one returned leave the heap. */
  lemma {:induction false} LeavesTracks(
      heap: Heap, entryTimes: map<TaskId, real>, queued: set<TaskId>, cancelled: set<TaskId>, gone: set<TaskId>,
      taken: set<TaskId>)
    requires cancelled <= heap.Keys && queued == heap.Keys - cancelled && entryTimes.Keys == queued
    requires gone <= cancelled && taken <= queued
    ensures var heap' := heap - gone - taken;
      && cancelled - gone <= heap'.Keys
      && heap'.Keys - (cancelled - gone) == queued - taken == (entryTimes - taken).Keys
  {
  }

  lemma {:induction false} OneLessId(ids: set<TaskId>, id: TaskId)
    ensures |ids - {id}| == if id in ids then |ids| - 1 else |ids|
  {
    if id !in ids {
      assert ids - {id} == ids;
    }
  }

  /** Seen through the live entries, `Get` is removal of the minimum. */
  lemma {:induction false} GetRemovesMin(q: QueueState, now: real)
    requires Consistent(q)
    ensures var (q', r) := Get(q, now);
      && Consistent(q')
      && Live(q') == Live(q) - ReturnedIds(r)
  {
    GetReturnsMin(q, now);
    var (q', r) := Get(q, now);
    assert q'.stats.queueSize == |q'.queued| by {
      if r.Some? {
        OneLessId(q.queued, r.value.id);
      } else {
        assert q'.queued == q.queued;
      }
    }
    LeavesTracks(q.heap, q.entryTimes, q.queued, q.cancelled, Purged(q, r), ReturnedIds(r));
  }

  lemma {:induction false} OnlyEntryIsTaken(q: QueueState, it: Item, now: real)
    requires q.heap == map[it.id := it.entry] && q.cancelled == {}
    ensures Get(q, now) == (Take(q, it.id, now), Some(it))
  {
    assert it.id in q.heap;
    assert MinId(q.heap) == it.id;
  }

  /** Forgetting ids is harmless exactly when none of them still has an entry in the heap. */
  lemma {:induction false} CleanExactly(q: QueueState, ids: set<TaskId>)
    requires Consistent(q)
    ensures Consistent(Clean(q, ids)) <==> ids !! q.heap.Keys
    ensures ids !! q.heap.Keys ==> Live(Clean(q, ids)) == Live(q)
  {
    if ids !! q.heap.Keys {
      CleanOffHeap(q, ids);
    } else {
      var id :| id in ids && id in q.heap.Keys;
      CleanOnHeap(q, ids, id);
    }
  }

  lemma {:induction false} CleanOffHeap(q: QueueState, ids: set<TaskId>)
    requires q.queued !! ids && q.cancelled !! ids && q.entryTimes.Keys !! ids
    ensures Clean(q, ids) == q
  {
    assert q.queued - ids == q.queued && q.cancelled - ids == q.cancelled && q.entryTimes - ids == q.entryTimes;
  }

  lemma {:induction false} CleanOnHeap(q: QueueState, ids: set<TaskId>, id: TaskId)
    requires id in ids && id in q.heap
    ensures Live(Clean(q, ids)) != Clean(q, ids).queued
  {
    assert id in Live(Clean(q, ids)) && id !in Clean(q, ids).queued;
  }

  /** Whatever is in the heap, the given ids are in no tracking collection afterwards, and nothing else has
      changed. */
  lemma {:induction false} CleanForgets(q: QueueState, ids: set<TaskId>, id: TaskId)
    ensures var q' := Clean(q, ids);
      && (id in ids ==> id !in q'.queued && id !in q'.cancelled && id !in q'.entryTimes)
      && (id !in ids ==>
            && (id in q'.queued <==> id in q.queued) && (id in q'.cancelled <==> id in q.cancelled)
            && (id in q'.entryTimes <==> id in q.entryTimes)
            && (id in q.entryTimes ==> q'.entryTimes[id] == q.entryTimes[id]))
      && q'.heap == q.heap && q'.unfinished == q.unfinished && q'.stats == q.stats
  {
  }

  /** Clearing the tracking leaves nothing of it, and the heap, the counter and the statistics as they were. */
  lemma {:induction false} ClearForgetsAll(q: QueueState)
    ensures var q' := ClearTracking(q);
      && q'.queued == {} && q'.cancelled == {} && q'.entryTimes == map[]
      && q'.heap == q.heap && q'.unfinished == q.unfinished && q'.stats == q.stats
  {
  }

  /** Clearing the tracking keeps it in step with the heap exactly when the heap is empty. */
  lemma {:induction false} ClearTrackingExactly(q: QueueState)
    requires Consistent(q)
    ensures Consistent(ClearTracking(q)) <==> q.heap == map[]
  {
    if q.heap != map[] {
      var id :| id in q.heap;
      assert id in Live(ClearTracking(q));
    }
  }

  /** The length `qsize` reports counts the cancelled entries that are still in the heap. */
  lemma {:induction false} QsizeCountsCancelled(q: QueueState)
    requires Consistent(q)
    ensures |q.heap| == q.stats.queueSize + |q.cancelled|
    ensures q.stats.queueSize == |Live(q)|
  {
    assert q.heap.Keys == q.queued + q.cancelled && q.queued !! q.cancelled;
  }

  // ---------------------------------------------------------------- in place

  class QueueStats {
    var queueSize: int
    var enqueuedTotal: nat
    var dequeuedTotal: nat
    var avgWaitTime: real
    var peakQueueSize: int
    var waitTimes: seq<real>

    function View(): Stats
      reads this
    {
      Stats(queueSize, enqueuedTotal, dequeuedTotal, avgWaitTime, peakQueueSize, waitTimes)
    }

    constructor ()
      ensures View() == EmptyStats
    {
      queueSize, enqueuedTotal, dequeuedTotal := 0, 0, 0;
      avgWaitTime, peakQueueSize, waitTimes := 0.0, 0, [];
    }

    method RecordEnqueue()
      modifies this
      ensures View() == UpdateEnqueue(old(View()))
    {
      enqueuedTotal := enqueuedTotal + 1;
      queueSize := queueSize + 1;
      if queueSize > peakQueueSize {
        peakQueueSize := queueSize;
      }
    }

    method RecordDequeue(wait: Option<real>)
      modifies this
      ensures View() == UpdateDequeue(old(View()), wait)
    {
      dequeuedTotal := dequeuedTotal + 1;
      queueSize := queueSize - 1;
      if wait.Some? {
        RecordWait(wait.value);
      }
    }

    method RecordWait(wait: real)
      modifies this`waitTimes, this`avgWaitTime
      ensures waitTimes == Window(old(waitTimes), wait)
      ensures avgWaitTime == Mean(waitTimes, old(avgWaitTime))
    {
      waitTimes := waitTimes + [wait];
      if |waitTimes| > WAIT_TIME_WINDOW {
        waitTimes := waitTimes[1..];
      }
      if waitTimes != [] {
        var total := Total(waitTimes);
        avgWaitTime := total / |waitTimes| as real;
      }
    }
  }

  method Total(xs: seq<real>) returns (total: real)
    ensures total == Sum(xs)
  {
    total := 0.0;
    for i := 0 to |xs|
      invariant total == Sum(xs[..i])
    {
      assert xs[..i + 1][..i] == xs[..i];
      total := total + xs[i];
    }
    assert xs[..|xs|] == xs;
  }

  class TaskQueue {
    var heap: Heap
    var unfinished: int
    var entryTimes: map<TaskId, real>
    var queuedIds: set<TaskId>
    var cancelledIds: set<TaskId>
    const stats: QueueStats

    function View(): QueueState
      reads this, stats
    {
      QueueState(heap, unfinished, entryTimes, queuedIds, cancelledIds, stats.View())
    }

    constructor ()
      ensures View() == EmptyQueue && fresh(stats)
    {
      heap, unfinished := map[], 0;
      entryTimes, queuedIds, cancelledIds := map[], {}, {};
      stats := new QueueStats();
    }

    method PutTask(id: TaskId, entry: Entry, now: real)
      requires id !in heap
      modifies this, stats
      ensures View() == Put(old(View()), Item(id, entry), now)
    {
      entryTimes := entryTimes[id := now];
      queuedIds := queuedIds + {id};
      heap, unfinished := heap[id := entry], unfinished + 1;
      stats.RecordEnqueue();
    }

    /** The skip loop: it ends because every round takes an entry out of the heap. */
    method GetValidTask(now: real) returns (r: Option<Item>)
      modifies this, stats
      ensures (View(), r) == Get(old(View()), now)
    {
      while heap != map[]
        invariant Get(View(), now) == Get(old(View()), now)
        decreases |heap|
      {
        MinExists(heap, heap.Keys);
        var id :| id in heap && IsMin(heap, heap.Keys, id);
        MinIsUnique(heap, heap.Keys, id, MinId(heap));
        Shrinks(heap, id);
        if id in cancelledIds {
          SkipEntry(id);
        } else {
          var item := TakeEntry(id, now);
          return Some(item);
        }
      }
      return None;
    }

    method SkipEntry(id: TaskId)
      modifies this
      ensures View() == Skip(old(View()), id)
    {
      heap := heap - {id};
      cancelledIds := cancelledIds - {id};
      unfinished := unfinished - 1;
    }

    method TakeEntry(id: TaskId, now: real) returns (item: Item)
      requires id in heap
      modifies this, stats
      ensures View() == Take(old(View()), id, now) && item == Item(id, old(heap)[id])
    {
      item := Item(id, heap[id]);
      var wait: Option<real> := None;
      if id in entryTimes {
        wait := Some(now - entryTimes[id]);
      }
      Untrack(id);
      RecordTaken(wait);
    }

    method Untrack(id: TaskId)
      modifies this
      ensures View() == old(View()).(heap := old(heap) - {id}, entryTimes := old(entryTimes) - {id},
                                     queued := old(queuedIds) - {id})
    {
      heap := heap - {id};
      entryTimes := entryTimes - {id};
      queuedIds := queuedIds - {id};
    }

    method RecordTaken(wait: Option<real>)
      modifies stats
      ensures View() == old(View()).(stats := UpdateDequeue(old(stats.View()), wait))
    {
      stats.RecordDequeue(wait);
    }

    method RemoveTask(id: TaskId) returns (removed: bool)
      modifies this, stats
      ensures (View(), removed) == Remove(old(View()), id)
    {
      if id !in queuedIds {
        return false;
      }
      cancelledIds := cancelledIds + {id};
      queuedIds := queuedIds - {id};
      entryTimes := entryTimes - {id};
      stats.queueSize := stats.queueSize - 1;
      return true;
    }

    /** False stands for the `ValueError` of a call for which no entry is unfinished. */
    method MarkTaskDone() returns (matched: bool)
      modifies this
      ensures matched == (old(unfinished) > 0)
      ensures View() == if matched then TaskDone(old(View())) else old(View())
    {
      if unfinished <= 0 {
        return false;
      }
      unfinished := unfinished - 1;
      return true;
    }

    method CleanCancelledTasks(ids: seq<TaskId>)
      modifies this
      ensures View() == Clean(old(View()), set id | id in ids)
    {
      for i := 0 to |ids|
        invariant heap == old(heap) && unfinished == old(unfinished)
        invariant cancelledIds == old(cancelledIds) - (set id | id in ids[..i])
        invariant queuedIds == old(queuedIds) - (set id | id in ids[..i])
        invariant entryTimes == old(entryTimes) - (set id | id in ids[..i])
      {
        assert ids[..i + 1] == ids[..i] + [ids[i]];
        cancelledIds := cancelledIds - {ids[i]};
        queuedIds := queuedIds - {ids[i]};
        entryTimes := entryTimes - {ids[i]};
      }
      assert ids[..|ids|] == ids;
    }

    method ClearAllTracking()
      modifies this
      ensures View() == ClearTracking(old(View()))
    {
      entryTimes, queuedIds, cancelledIds := map[], {}, {};
    }
  }
}
