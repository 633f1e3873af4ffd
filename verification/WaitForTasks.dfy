/**
  `wait_for_tasks` of `core.py`: it reads off what is complete, obtains a future for each of the
  rest, waits, and returns the results in the order asked for.
*/
module WaitForTasks {
  import opened Common
  import opened Status
  import opened Futures
  import opened Protocol
  import opened ProtocolInvariant
  import opened Lifecycle
  import opened Worker

  datatype WaitError = UnknownTask(id: TaskId) | TaskRaised(message: string) | WaitCancelled

  predicate IsCompleted(s: State, id: TaskId) {
    id in s.tasks && s.tasks[id].status == Completed
  }

  /** The positions whose task is not complete yet. */
  function OpenSlots(s: State, ids: seq<TaskId>): (slots: seq<nat>)
    ensures forall k | 0 <= k < |slots| :: slots[k] < |ids|
    ensures forall i | 0 <= i < |ids| :: i in slots <==> !IsCompleted(s, ids[i])
  {
    if ids == [] then [] else
      var last := |ids| - 1;
      OpenSlots(s, ids[..last]) + if IsCompleted(s, ids[last]) then [] else [last]
  }

  /** Obtain a future for each id in turn, up to one that is unknown. */
  function ObtainEach(s: State, ids: seq<TaskId>): State
    decreases |ids|
  {
    if ids == [] || ids[0] !in s.tasks then s else ObtainEach(ObtainFuture(s, ids[0]), ids[1..])
  }

  // ---------------------------------------------------------------- the three loops

  function Scanned(s: State, id: TaskId): Option<PyValue> {
    if IsCompleted(s, id) then s.tasks[id].result else None
  }

  method ScanCompleted(worker: AsyncTaskWorker, ids: seq<TaskId>)
    returns (results: seq<Option<PyValue>>, slots: seq<nat>)
    ensures |results| == |ids| && slots == OpenSlots(worker.View(), ids)
    ensures forall i | 0 <= i < |ids| :: results[i] == Scanned(worker.View(), ids[i])
  {
    ghost var s := worker.View();
    results, slots := [], [];
    for i := 0 to |ids|
      invariant |results| == i && slots == OpenSlots(s, ids[..i])
      invariant forall j | 0 <= j < i :: results[j] == Scanned(s, ids[j])
    {
      assert ids[..i + 1][..i] == ids[..i];
      var done, result := ReadCompleted(worker, ids[i], s);
      results := results + [result];
      if !done {
        slots := slots + [i];
      }
    }
    assert ids[..|ids|] == ids;
  }

  method ReadCompleted(worker: AsyncTaskWorker, id: TaskId, ghost s: State)
    returns (done: bool, result: Option<PyValue>)
    requires s == worker.View()
    ensures done == IsCompleted(s, id) && result == Scanned(s, id)
  {
    if id in worker.tasks && worker.tasks[id].status == Completed {
      return true, worker.tasks[id].result;
    }
    return false, None;
  }

  method ObtainFutures(worker: AsyncTaskWorker, ids: seq<TaskId>, ghost s: State) returns (r: Result<(), WaitError>)
    requires s == worker.View()
    modifies worker`taskFutures, worker.futureManager
    ensures worker.View() == ObtainEach(s, ids)
    ensures r.Ok? <==> AllKnown(s, ids)
    ensures r.Err? ==> exists k :: FirstUnknown(s, ids, k, r.error)
  {
    ghost var keys := worker.tasks.Keys;
    assert keys == s.tasks.Keys;
    var i := 0;
    assert ids[0..] == ids;
    while i < |ids|
      invariant 0 <= i <= |ids| && worker.tasks.Keys == keys && AllKnown(s, ids[..i])
      invariant ObtainEach(worker.View(), ids[i..]) == ObtainEach(s, ids)
    {
      ObtainEachSplits(worker.View(), ids, i);
      KnownGrows(s, ids, i);
      var known := worker.GetTaskFuture(ids[i]);
      if !known {
        return Err(UnknownTask(ids[i]));
      }
      i := i + 1;
    }
    assert ids[i..] == [] && ids[..i] == ids;
    return Ok(());
  }

  lemma {:induction false} KnownGrows(s: State, ids: seq<TaskId>, i: nat)
    requires i < |ids| && AllKnown(s, ids[..i])
    ensures AllKnown(s, ids[..i + 1]) <==> ids[i] in s.tasks
    ensures ids[i] !in s.tasks ==> !AllKnown(s, ids) && FirstUnknown(s, ids, i, UnknownTask(ids[i]))
  {
    assert ids[..i + 1] == ids[..i] + [ids[i]];
    assert ids[..i + 1][i] == ids[i];
  }

  lemma {:induction false} ObtainEachSplits(s: State, ids: seq<TaskId>, i: nat)
    requires i < |ids|
    ensures ObtainEach(s, ids[i..]) ==
      if ids[i] !in s.tasks then s else ObtainEach(ObtainFuture(s, ids[i]), ids[i + 1..])
  {
    assert ids[i..][1..] == ids[i + 1..];
  }

  predicate HoldsNoResult(f: FutureState) {
    f.Excepted? || f.Dropped?
  }

  function ErrorOf(f: FutureState): WaitError
    requires HoldsNoResult(f)
  {
    match f
    case Excepted(message) => TaskRaised(message)
    case Dropped => WaitCancelled
  }

  predicate AllResolved(futures: map<TaskId, FutureState>, open: seq<TaskId>) {
    forall k | 0 <= k < |open| :: open[k] in futures && futures[open[k]].Resolved?
  }

  /** The first of the awaited futures without a result, and its error. */
  predicate FirstWithout(futures: map<TaskId, FutureState>, open: seq<TaskId>, k: nat, e: WaitError) {
    && k < |open| && AllResolved(futures, open[..k])
    && open[k] in futures
    && match futures[open[k]]
       case Excepted(message) => e == TaskRaised(message)
       case Dropped => e == WaitCancelled
       case _ => false
  }

  /** The wait has ended: the futures are resolved, all of them or up to one that holds no result. */
  ghost predicate WaitIsOver(futures: map<TaskId, FutureState>, open: seq<TaskId>) {
    AllResolved(futures, open) || exists k, e :: FirstWithout(futures, open, k, e)
  }

  function IdsAt(ids: seq<TaskId>, slots: seq<nat>): seq<TaskId>
    requires forall k | 0 <= k < |slots| :: slots[k] < |ids|
  {
    seq(|slots|, k requires 0 <= k < |slots| => ids[slots[k]])
  }

  /** One value per position: from the scan, or from the future waited for. */
  predicate Collected(futures: map<TaskId, FutureState>, ids: seq<TaskId>, scanned: seq<Option<PyValue>>,
                      slots: seq<nat>, values: seq<Option<PyValue>>)
  {
    |values| == |ids| == |scanned| && forall i | 0 <= i < |ids| ::
      if i in slots then
        ids[i] in futures && futures[ids[i]].Resolved? && values[i] == Some(futures[ids[i]].value)
      else values[i] == scanned[i]
  }

  /** The futures are read in the order of the ids; the first that holds no result decides. */
  method CollectResults(futures: map<TaskId, FutureState>, ids: seq<TaskId>, scanned: seq<Option<PyValue>>,
                        slots: seq<nat>)
    returns (r: Result<seq<Option<PyValue>>, WaitError>)
    requires |scanned| == |ids| && forall k | 0 <= k < |slots| :: slots[k] < |ids|
    requires WaitIsOver(futures, IdsAt(ids, slots))
    ensures r.Ok? <==> AllResolved(futures, IdsAt(ids, slots))
    ensures r.Ok? ==> Collected(futures, ids, scanned, slots, r.value)
    ensures r.Err? ==> exists k :: FirstWithout(futures, IdsAt(ids, slots), k, r.error)
  {
    ghost var open := IdsAt(ids, slots);
    var results := scanned;
    for k := 0 to |slots|
      invariant |results| == |ids| && AllResolved(futures, open[..k])
      invariant Collected(futures, ids, scanned, slots[..k], results)
    {
      assert open[k] == ids[slots[k]] && open[..k + 1] == open[..k] + [open[k]];
      OverAt(futures, open, k);
      var f := futures[ids[slots[k]]];
      if !f.Resolved? {
        assert FirstWithout(futures, open, k, ErrorOf(f));
        return Err(ErrorOf(f));
      }
      assert slots[..k + 1] == slots[..k] + [slots[k]];
      results := results[slots[k] := Some(f.value)];
    }
    assert slots[..|slots|] == slots && open[..|slots|] == open;
    return Ok(results);
  }

  /** When the wait is over, the future behind resolved ones has settled. */
  lemma {:induction false} OverAt(futures: map<TaskId, FutureState>, open: seq<TaskId>, k: nat)
    requires WaitIsOver(futures, open) && k < |open| && AllResolved(futures, open[..k])
    ensures open[k] in futures && (futures[open[k]].Resolved? || HoldsNoResult(futures[open[k]]))
    ensures !futures[open[k]].Resolved? ==> !AllResolved(futures, open)
  {
    assert forall j | 0 <= j < k :: open[..k][j] == open[j] && futures[open[j]].Resolved?;
    if !AllResolved(futures, open) {
      var j: nat, e :| FirstWithout(futures, open, j, e);
      if k < j {
        assert open[..j][k] == open[k];
      }
    }
  }

  // ---------------------------------------------------------------- what comes back

  lemma {:induction false} ObtainEachRuns(s: State, ids: seq<TaskId>) returns (ls: seq<Label>)
    ensures Run(s, ls, ObtainEach(s, ids)) && ObtainEach(s, ids).tasks == s.tasks
    decreases |ids|
  {
    if ids == [] || ids[0] !in s.tasks {
      ls := [];
    } else {
      var rest := ObtainEachRuns(ObtainFuture(s, ids[0]), ids[1..]);
      ls := [GetTaskFuture(ids[0])] + rest;
      assert ls[1..] == rest && Apply(s, ls[0]) == ObtainFuture(s, ids[0]);
    }
  }

  /** The ids to be waited for. */
  function OpenIds(s: State, ids: seq<TaskId>): seq<TaskId> {
    IdsAt(ids, OpenSlots(s, ids))
  }

  /** The values `wait_for_tasks` puts together from a scan at `s` and futures read at `s'`. */
  function Waited(s: State, s': State, id: TaskId): Option<PyValue> {
    if IsCompleted(s, id) then s.tasks[id].result
    else if id in s'.table.futures && s'.table.futures[id].Resolved? then Some(s'.table.futures[id].value)
    else None
  }

  /** However long the wait and whatever runs meanwhile, each value returned is the result of the
      task asked for at that position, unless retention has dropped the record by then. */
  lemma {:induction false} WaitReturnsResults(s: State, ids: seq<TaskId>, ls: seq<Label>, s': State, i: nat)
    requires Inv(s) && i < |ids|
    requires Run(ObtainEach(s, OpenIds(s, ids)), ls, s')
    requires Waited(s, s', ids[i]).Some? && ids[i] in s'.tasks
    ensures s'.tasks[ids[i]].status == Completed && s'.tasks[ids[i]].result == Waited(s, s', ids[i])
  {
    var open := OpenIds(s, ids);
    var first := ObtainEachRuns(s, open);
    RunsCompose(s, first, ObtainEach(s, open), ls, s');
    RunKeeps(s, first + ls, s');
    assert Good(ViewOf(s, ids[i])) && Good(ViewOf(s', ids[i]));
    if IsCompleted(s, ids[i]) {
      WaitedResultStands(s, first + ls, s', ids[i], s.tasks[ids[i]].result.value);
    }
  }

  /** In whatever state a run has left the futures like this, after they were obtained at `s`, each value
      is the result of the task at its position, if its record is still kept. */
  ghost predicate AreResults(s: State, ids: seq<TaskId>, futures: map<TaskId, FutureState>,
                             values: seq<Option<PyValue>>)
  {
    |values| == |ids| && forall ls, later, i
      | Run(ObtainEach(s, OpenIds(s, ids)), ls, later) && later.table.futures == futures &&
        0 <= i < |ids| && ids[i] in later.tasks ::
      later.tasks[ids[i]].status == Completed && later.tasks[ids[i]].result == values[i]
  }

  lemma {:induction false} CollectedAreResults(
      s: State, ids: seq<TaskId>, futures: map<TaskId, FutureState>, scanned: seq<Option<PyValue>>,
      values: seq<Option<PyValue>>)
    requires Inv(s) && |scanned| == |ids| && (forall i | 0 <= i < |ids| :: scanned[i] == Scanned(s, ids[i]))
    requires Collected(futures, ids, scanned, OpenSlots(s, ids), values)
    ensures AreResults(s, ids, futures, values)
  {
    forall ls, later, i
      | Run(ObtainEach(s, OpenIds(s, ids)), ls, later) && later.table.futures == futures &&
        0 <= i < |ids| && ids[i] in later.tasks
      ensures later.tasks[ids[i]].status == Completed && later.tasks[ids[i]].result == values[i]
    {
      assert Good(ViewOf(s, ids[i]));
      WaitReturnsResults(s, ids, ls, later, i);
    }
  }

  predicate AllKnown(s: State, ids: seq<TaskId>) {
    forall i | 0 <= i < |ids| :: ids[i] in s.tasks
  }

  /** The first id without a record. */
  predicate FirstUnknown(s: State, ids: seq<TaskId>, k: nat, e: WaitError) {
    k < |ids| && AllKnown(s, ids[..k]) && ids[k] !in s.tasks && e == UnknownTask(ids[k])
  }

  /** The call up to its wait: what was complete, and the positions it waits for. */
  method BeginWait(worker: AsyncTaskWorker, ids: seq<TaskId>, ghost s: State)
    returns (r: Result<(seq<Option<PyValue>>, seq<nat>), WaitError>)
    requires s == worker.View()
    modifies worker`taskFutures, worker.futureManager
    ensures worker.View() == ObtainEach(s, OpenIds(s, ids))
    ensures r.Ok? <==> AllKnown(s, OpenIds(s, ids))
    ensures r.Err? ==> exists k :: FirstUnknown(s, OpenIds(s, ids), k, r.error)
    ensures r.Ok? ==> |r.value.0| == |ids| && r.value.1 == OpenSlots(s, ids) &&
                      forall i | 0 <= i < |ids| :: r.value.0[i] == Scanned(s, ids[i])
  {
    var scanned, slots := ScanCompleted(worker, ids);
    var obtained := ObtainFutures(worker, IdsAt(ids, slots), s);
    if obtained.Err? {
      return Err(obtained.error);
    }
    return Ok((scanned, slots));
  }

  /** The call after its wait. */
  method EndWait(worker: AsyncTaskWorker, ids: seq<TaskId>, scanned: seq<Option<PyValue>>, slots: seq<nat>,
                 futures: map<TaskId, FutureState>, ghost s: State)
    returns (r: Result<seq<Option<PyValue>>, WaitError>)
    requires Inv(s) && slots == OpenSlots(s, ids) && WaitIsOver(futures, OpenIds(s, ids))
    requires |scanned| == |ids| && forall i | 0 <= i < |ids| :: scanned[i] == Scanned(s, ids[i])
    ensures worker.View() == old(worker.View())
    ensures r.Ok? <==> AllResolved(futures, OpenIds(s, ids))
    ensures r.Ok? ==> AreResults(s, ids, futures, r.value)
    ensures r.Err? ==> exists k :: FirstWithout(futures, OpenIds(s, ids), k, r.error)
  {
    r := CollectResults(futures, ids, scanned, slots);
    if r.Ok? {
      CollectedAreResults(s, ids, futures, scanned, r.value);
    }
  }

  /** The whole call, with the futures as they are when the wait is over. */
  method WaitForTasks(worker: AsyncTaskWorker, ids: seq<TaskId>, futures: map<TaskId, FutureState>, ghost s: State)
    returns (r: Result<seq<Option<PyValue>>, WaitError>)
    requires s == worker.View() && Inv(s)
    requires AllKnown(s, OpenIds(s, ids)) ==> WaitIsOver(futures, OpenIds(s, ids))
    modifies worker`taskFutures, worker.futureManager
    ensures worker.View() == ObtainEach(s, OpenIds(s, ids))
    ensures r.Ok? <==> AllKnown(s, OpenIds(s, ids)) && AllResolved(futures, OpenIds(s, ids))
    ensures r.Ok? ==> AreResults(s, ids, futures, r.value)
    ensures r.Err? ==> exists k ::
              if AllKnown(s, OpenIds(s, ids)) then FirstWithout(futures, OpenIds(s, ids), k, r.error)
              else FirstUnknown(s, OpenIds(s, ids), k, r.error)
  {
    var begun := BeginWait(worker, ids, s);
    if begun.Err? {
      return Err(begun.error);
    }
    r := EndWait(worker, ids, begun.value.0, begun.value.1, futures, s);
  }
}
