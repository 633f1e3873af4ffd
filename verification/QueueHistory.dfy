/**
  What the queue's counters say about its whole history: a history is the list of operations
  performed so far, and every figure is recomputed here from that list alone.
*/
module QueueHistory {
  import opened Common
  import opened Queue

  datatype Op =
    | PutOp(item: Item, now: real)
    | GetOp(now: real)
    | RemoveOp(id: TaskId)
    | CleanOp(ids: set<TaskId>)

  ghost function Perform(q: QueueState, op: Op): QueueState {
    match op
    case PutOp(item, now) => Put(q, item, now)
    case GetOp(now) => Get(q, now).0
    case RemoveOp(id) => Remove(q, id).0
    case CleanOp(ids) => Clean(q, ids)
  }

  /** The queue after a history, from empty. */
  ghost function After(ops: seq<Op>): QueueState {
    if ops == [] then EmptyQueue else Perform(After(ops[..|ops| - 1]), ops[|ops| - 1])
  }

  /** The caller's side: an id is put only while it has no entry, and forgotten only then. */
  ghost predicate Allowed(q: QueueState, op: Op) {
    match op
    case PutOp(item, _) => item.id !in q.heap
    case CleanOp(ids) => ids !! q.heap.Keys
    case _ => true
  }

  ghost predicate Legal(ops: seq<Op>) {
    ops != [] ==> Legal(ops[..|ops| - 1]) && Allowed(After(ops[..|ops| - 1]), ops[|ops| - 1])
  }

  lemma {:induction false} StepIsConsistent(q: QueueState, op: Op)
    requires Consistent(q) && Allowed(q, op)
    ensures Consistent(Perform(q, op))
  {
    match op
    case PutOp(item, now) => assert Consistent(Put(q, item, now)) by { PutInserts(q, item, now); }
    case GetOp(now) => assert Consistent(Get(q, now).0) by { GetRemovesMin(q, now); }
    case RemoveOp(id) => assert Consistent(Remove(q, id).0) by { RemoveDeletes(q, id); }
    case CleanOp(ids) => assert Consistent(Clean(q, ids)) by { CleanExactly(q, ids); }
  }

  lemma {:induction false} HistoryIsConsistent(ops: seq<Op>)
    requires Legal(ops)
    ensures Consistent(After(ops))
  {
    if ops != [] {
      HistoryIsConsistent(ops[..|ops| - 1]);
      StepIsConsistent(After(ops[..|ops| - 1]), ops[|ops| - 1]);
    }
  }

  // ---------------------------------------------------------------- one step

  /** What an operation handed out. */
  ghost function HandedBy(q: QueueState, op: Op): Option<Item> {
    match op
    case GetOp(now) => Get(q, now).1
    case _ => None
  }

  predicate Removes(q: QueueState, op: Op) {
    op.RemoveOp? && op.id in q.queued
  }

  /** The counters move by the operation's own effect and no other. */
  lemma {:induction false} StepCounts(q: QueueState, op: Op)
    ensures var s, s' := q.stats, Perform(q, op).stats;
      && s'.enqueuedTotal == s.enqueuedTotal + (if op.PutOp? then 1 else 0)
      && s'.dequeuedTotal == s.dequeuedTotal + (if HandedBy(q, op).Some? then 1 else 0)
      && s'.queueSize == s.queueSize + (if op.PutOp? then 1 else 0) - (if HandedBy(q, op).Some? then 1 else 0)
         - (if Removes(q, op) then 1 else 0)
      && s'.peakQueueSize == (if s'.queueSize > s.peakQueueSize && op.PutOp? then s'.queueSize else s.peakQueueSize)
  {
    if op.GetOp? {
      GetCounts(q, op.now);
    }
  }

  /** The wait an operation ends, if it hands out a task whose entry time is known. */
  ghost function WaitOf(q: QueueState, op: Op): seq<real> {
    var r := HandedBy(q, op);
    if r.Some? && r.value.id in q.entryTimes then [op.now - q.entryTimes[r.value.id]] else []
  }

  /** Only such a wait touches what is recorded of waits. */
  lemma {:induction false} StepWaits(q: QueueState, op: Op)
    ensures var s, s', wait := q.stats, Perform(q, op).stats, WaitOf(q, op);
      if wait == [] then s'.waitTimes == s.waitTimes && s'.avgWaitTime == s.avgWaitTime
      else s' == UpdateDequeue(s, Some(wait[0]))
  {
    if op.GetOp? {
      GetCounts(q, op.now);
    }
  }

  lemma {:induction false} HandedIsTimed(q: QueueState, op: Op)
    requires Consistent(q)
    ensures HandedBy(q, op).Some? ==> op.GetOp? && HandedBy(q, op).value.id in q.entryTimes
  {
    if op.GetOp? {
      GetCounts(q, op.now);
    }
  }

  // ---------------------------------------------------------------- figures read off the history

  function Puts(ops: seq<Op>): nat {
    if ops == [] then 0 else Puts(ops[..|ops| - 1]) + if ops[|ops| - 1].PutOp? then 1 else 0
  }

  ghost function Gets(ops: seq<Op>): nat {
    if ops == [] then 0 else
      var before := ops[..|ops| - 1];
      Gets(before) + if HandedBy(After(before), ops[|ops| - 1]).Some? then 1 else 0
  }

  ghost function Removals(ops: seq<Op>): nat {
    if ops == [] then 0 else
      var before := ops[..|ops| - 1];
      Removals(before) + if Removes(After(before), ops[|ops| - 1]) then 1 else 0
  }

  /** The largest number of live entries after any operation so far. */
  ghost function Peak(ops: seq<Op>): nat {
    if ops == [] then 0 else
      var before := Peak(ops[..|ops| - 1]);
      var size := |Live(After(ops))|;
      if size > before then size else before
  }

  /** When an id was last put, by the history. */
  function PutTime(ops: seq<Op>, id: TaskId): Option<real> {
    if ops == [] then None else
      match ops[|ops| - 1]
      case PutOp(item, now) => if item.id == id then Some(now) else PutTime(ops[..|ops| - 1], id)
      case _ => PutTime(ops[..|ops| - 1], id)
  }

  /** How long the task handed out, if any, had waited since it was put. */
  function WaitSincePut(before: seq<Op>, op: Op, handed: Option<Item>): seq<real> {
    if handed.None? || !op.GetOp? then [] else
      var put := PutTime(before, handed.value.id);
      if put.Some? then [op.now - put.value] else []
  }

  /** These waits, in order. */
  ghost function Waits(ops: seq<Op>): seq<real> {
    if ops == [] then [] else
      var before, op := ops[..|ops| - 1], ops[|ops| - 1];
      Waits(before) + WaitSincePut(before, op, HandedBy(After(before), op))
  }

  function Last(xs: seq<real>, n: nat): seq<real> {
    if |xs| <= n then xs else xs[|xs| - n..]
  }

  // ---------------------------------------------------------------- the counters agree with it

  /** Nothing is lost or counted twice. */
  lemma {:induction false} Conservation(ops: seq<Op>)
    requires Legal(ops)
    ensures var s := After(ops).stats;
      && s.enqueuedTotal == Puts(ops)
      && s.dequeuedTotal == Gets(ops)
      && Puts(ops) == Gets(ops) + Removals(ops) + s.queueSize
      && s.queueSize == |Live(After(ops))|
      && |After(ops).heap| == s.queueSize + |After(ops).cancelled|
  {
    HistoryIsConsistent(ops);
    QsizeCountsCancelled(After(ops));
    if ops != [] {
      Conservation(ops[..|ops| - 1]);
      StepCounts(After(ops[..|ops| - 1]), ops[|ops| - 1]);
    }
  }

  lemma {:induction false} PeakIsHistoricalMaximum(ops: seq<Op>)
    requires Legal(ops)
    ensures After(ops).stats.peakQueueSize == Peak(ops)
  {
    if ops != [] {
      var before := ops[..|ops| - 1];
      PeakIsHistoricalMaximum(before);
      Conservation(ops);
      Conservation(before);
      PeakCoversLast(before);
      StepCounts(After(before), ops[|ops| - 1]);
    }
  }

  lemma {:induction false} PeakCoversLast(ops: seq<Op>)
    ensures |Live(After(ops))| <= Peak(ops)
  {
  }

  /** Every queued id carries the time it was put. */
  lemma {:induction false} EntryTimesArePutTimes(ops: seq<Op>)
    requires Legal(ops)
    ensures forall id | id in After(ops).entryTimes :: PutTime(ops, id) == Some(After(ops).entryTimes[id])
  {
    if ops != [] {
      var before := ops[..|ops| - 1];
      EntryTimesArePutTimes(before);
      if ops[|ops| - 1].GetOp? {
        GetReturnsMin(After(before), ops[|ops| - 1].now);
      }
    }
  }

  /** The recorded waits are the last hundred of `waits`, and the average is theirs. */
  predicate Windowed(s: Stats, waits: seq<real>) {
    && s.waitTimes == Last(waits, 100)
    && s.avgWaitTime == Mean(s.waitTimes, 0.0)
  }

  lemma {:induction false} DequeueSlidesWindow(s: Stats, waits: seq<real>, x: real)
    requires Windowed(s, waits)
    ensures Windowed(UpdateDequeue(s, Some(x)), waits + [x])
  {
    SlidingWindow(waits, x);
  }

  lemma {:induction false} StepWindow(q: QueueState, op: Op, waits: seq<real>)
    requires Windowed(q.stats, waits)
    ensures Windowed(Perform(q, op).stats, waits + WaitOf(q, op))
  {
    StepWaits(q, op);
    var wait := WaitOf(q, op);
    if wait == [] {
      assert waits + wait == waits;
    } else {
      assert wait == [wait[0]];
      DequeueSlidesWindow(q.stats, waits, wait[0]);
    }
  }

  lemma {:induction false} WaitsAgree(before: seq<Op>, op: Op, q: QueueState, handed: Option<Item>)
    requires handed == HandedBy(q, op)
    requires handed.Some? ==>
      && op.GetOp? && handed.value.id in q.entryTimes
      && PutTime(before, handed.value.id) == Some(q.entryTimes[handed.value.id])
    ensures WaitSincePut(before, op, handed) == WaitOf(q, op)
    ensures |WaitOf(q, op)| == if handed.Some? then 1 else 0
  {
  }

  /** By the history, too, each task handed out adds the wait it ends. */
  lemma {:induction false} WaitsGrow(ops: seq<Op>)
    requires Legal(ops) && ops != []
    ensures var before, op := ops[..|ops| - 1], ops[|ops| - 1];
      && Waits(ops) == Waits(before) + WaitOf(After(before), op)
      && |WaitOf(After(before), op)| == if HandedBy(After(before), op).Some? then 1 else 0
  {
    var before, op := ops[..|ops| - 1], ops[|ops| - 1];
    var q := After(before);
    var handed := HandedBy(q, op);
    HandedInHistory(before, op);
    if handed.Some? {
      EntryTimeIsPutTime(before, handed.value.id);
    }
    WaitsAgree(before, op, q, handed);
  }

  lemma {:induction false} HandedInHistory(ops: seq<Op>, op: Op)
    requires Legal(ops)
    ensures var handed := HandedBy(After(ops), op);
      handed.Some? ==> op.GetOp? && handed.value.id in After(ops).entryTimes
  {
    HistoryIsConsistent(ops);
    HandedIsTimed(After(ops), op);
  }

  lemma {:induction false} EntryTimeIsPutTime(ops: seq<Op>, id: TaskId)
    requires Legal(ops) && id in After(ops).entryTimes
    ensures PutTime(ops, id) == Some(After(ops).entryTimes[id])
  {
    EntryTimesArePutTimes(ops);
  }

  lemma {:induction false} WaitTimesAreTheLastHundred(ops: seq<Op>)
    requires Legal(ops)
    ensures |Waits(ops)| == Gets(ops)
    ensures Windowed(After(ops).stats, Waits(ops))
  {
    if ops != [] {
      var before, op := ops[..|ops| - 1], ops[|ops| - 1];
      WaitTimesAreTheLastHundred(before);
      WaitsGrow(ops);
      StepWindow(After(before), op, Waits(before));
    }
  }

  lemma {:induction false} SlidingWindow(xs: seq<real>, x: real)
    ensures var w := Last(xs, 100) + [x];
      Last(xs + [x], 100) == if |w| > 100 then w[1..] else w
  {
  }

  /** The average times the number of waits is their sum, and the sum adds up, however the waits are split:
      so the average is none other than theirs. */
  lemma {:induction false} AverageIsTheirs(s: Stats, waits: seq<real>)
    requires Windowed(s, waits)
    ensures s.avgWaitTime * |s.waitTimes| as real == Sum(s.waitTimes)
    ensures waits == [] ==> s.avgWaitTime == 0.0
  {
  }

  lemma {:induction false} SumSplits(xs: seq<real>, ys: seq<real>, x: real)
    ensures Sum([]) == 0.0 && Sum([x]) == x && Sum(xs + ys) == Sum(xs) + Sum(ys)
    decreases |ys|
  {
    assert [x][..0] == [];
    if ys == [] {
      assert xs + ys == xs;
    } else {
      SumSplits(xs, ys[..|ys| - 1], x);
      assert (xs + ys)[..|xs + ys| - 1] == xs + ys[..|ys| - 1];
    }
  }
}
