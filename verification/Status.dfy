/**
  The record kept for each task (`status.py`): its state, its outcome and its throttled
  progress display.
*/
module Status {
  import opened Common

  datatype TaskStatus = Pending | Running | Completed | Failed | Cancelled

  /** `shown` is the field readers see; `current` is the latest value reported. The first two
      fields are the throttle's memory of its last update. */
  datatype Progress = Progress(lastUpdateTime: real, lastValue: real, shown: real, current: real)

  datatype TaskRecord = TaskRecord(
    status: TaskStatus,
    completedAt: Option<real>,
    result: Option<PyValue>,
    error: Option<string>,
    fromCache: bool,
    progress: Progress)

  const NoProgress := Progress(0.0, 0.0, 0.0, 0.0)
  const NewTask := TaskRecord(Pending, None, None, None, false, NoProgress)

  predicate IsTerminal(s: TaskStatus) {
    s == Completed || s == Failed || s == Cancelled
  }

  // ---------------------------------------------------------------- transitions

  function MarkStarted(t: TaskRecord): TaskRecord {
    t.(status := Running)
  }

  /** The only transition that respects a terminal state. */
  function MarkCompleted(t: TaskRecord, result: PyValue, now: real): TaskRecord {
    if IsTerminal(t.status) then t
    else t.(status := Completed, completedAt := Some(now), result := Some(result),
            progress := t.progress.(shown := 1.0, current := 1.0))
  }

  function MarkFailed(t: TaskRecord, error: string, now: real): TaskRecord {
    t.(status := Failed, completedAt := Some(now), error := Some(error))
  }

  function MarkCancelled(t: TaskRecord, reason: string, now: real): TaskRecord {
    t.(status := Cancelled, completedAt := Some(now), error := Some(reason))
  }

  // ---------------------------------------------------------------- progress

  /** The two thresholds of the update strategy. */
  datatype Throttle = Throttle(minUpdateInterval: real, minProgressChange: real)

  const DefaultThrottle := Throttle(0.1, 0.02)

  function Clamp(x: real): real {
    if x < 0.0 then 0.0 else if x > 1.0 then 1.0 else x
  }

  function Distance(x: real, y: real): real {
    if x < y then y - x else x - y
  }

  predicate ShouldUpdate(th: Throttle, p: Progress, value: real, now: real) {
    || p.lastUpdateTime == 0.0
    || (value == 1.0 && p.lastValue != 1.0)
    || now - p.lastUpdateTime >= th.minUpdateInterval
    || Distance(value, p.lastValue) >= th.minProgressChange
  }

  function UpdateProgress(th: Throttle, p: Progress, reported: real, now: real): Progress {
    var value := Clamp(reported);
    if ShouldUpdate(th, p, value, now) then Progress(now, value, value, value) else p.(current := value)
  }

  function CurrentProgress(p: Progress): real {
    if p.shown > p.current then p.shown else p.current
  }

  datatype Report = Report(value: real, now: real)

  /** The display after a series of reports. */
  function Continued(th: Throttle, p: Progress, reports: seq<Report>): Progress {
    if reports == [] then p else
      var last := reports[|reports| - 1];
      UpdateProgress(th, Continued(th, p, reports[..|reports| - 1]), last.value, last.now)
  }

  /** The same from a new task. */
  function Reported(th: Throttle, reports: seq<Report>): Progress {
    Continued(th, NoProgress, reports)
  }

  /** Before completion the display stays in range, lags the latest report by less than the
      smallest change worth showing, never hides a finished task, and all of it whatever the
      clock does. */
  lemma {:induction false} DisplayLagsLittle(th: Throttle, reports: seq<Report>)
    requires th.minProgressChange > 0.0
    ensures var p := Reported(th, reports);
      && 0.0 <= p.shown <= 1.0
      && p.shown == p.lastValue
      && p.current == (if reports == [] then 0.0 else Clamp(reports[|reports| - 1].value))
      && Distance(p.shown, p.current) < th.minProgressChange
      && (p.current == 1.0 ==> p.shown == 1.0)
      && p.current <= CurrentProgress(p) < p.current + th.minProgressChange
      && p.shown <= CurrentProgress(p) && (CurrentProgress(p) == p.shown || CurrentProgress(p) == p.current)
  {
    if reports != [] {
      DisplayLagsLittle(th, reports[..|reports| - 1]);
    }
  }

  /** Clamping takes the nearest value from 0 to 1. */
  lemma {:induction false} ClampIsNearest(x: real, y: real)
    requires 0.0 <= y <= 1.0
    ensures 0.0 <= Clamp(x) <= 1.0
    ensures (Clamp(x) <= x ==> x - Clamp(x) <= x - y || x - Clamp(x) <= y - x)
    ensures (x <= Clamp(x) ==> Clamp(x) - x <= x - y || Clamp(x) - x <= y - x)
  {
  }

  /** A report after another shown one is due: that one was made at time 0, which counts as never, this one
      is the end, or it comes late enough, or says something different enough. */
  predicate Due(th: Throttle, earlier: Report, later: Report) {
    var a, b := Clamp(earlier.value), Clamp(later.value);
    || earlier.now == 0.0
    || (a < 1.0 && b == 1.0)
    || earlier.now + th.minUpdateInterval <= later.now
    || a + th.minProgressChange <= b || b + th.minProgressChange <= a
  }

  /** The last of the reports that were each due after the one before among them. */
  function LastDue(th: Throttle, reports: seq<Report>): (i: nat)
    requires reports != []
    ensures i < |reports|
  {
    var last := |reports| - 1;
    if last == 0 then 0 else
      var i := LastDue(th, reports[..last]);
      if Due(th, reports[i], reports[last]) then last else i
  }

  /** The display is that report's, and none of the later ones is due: each came too soon after it, with
      too small a change, and was not the end. */
  lemma {:induction false} ShownIsLastDue(th: Throttle, reports: seq<Report>)
    requires reports != []
    ensures var p, shown := Reported(th, reports), reports[LastDue(th, reports)];
      p.shown == p.lastValue == Clamp(shown.value) && p.lastUpdateTime == shown.now
    ensures forall j | LastDue(th, reports) < j < |reports| :: !Due(th, reports[LastDue(th, reports)], reports[j])
  {
    var before := reports[..|reports| - 1];
    if before == [] {
      assert Reported(th, before) == NoProgress;
    } else {
      ShownIsLastDue(th, before);
    }
  }

  /** By default a report is due a tenth of a second after the one shown, or with a change of a fiftieth. */
  lemma {:induction false} DueByDefault(a: Report, b: Report)
    requires a.now != 0.0 && 0.0 <= a.value <= b.value < 1.0
    ensures Due(DefaultThrottle, a, b) <==> b.now - a.now >= 0.1 || b.value - a.value >= 0.02
  {
  }

  /** With no smallest change the throttle lets every report through. */
  lemma {:induction false} ZeroThresholdShowsAll(th: Throttle, reports: seq<Report>)
    requires th.minProgressChange <= 0.0
    ensures Reported(th, reports).shown == Reported(th, reports).current
  {
    if reports != [] {
      ZeroThresholdShowsAll(th, reports[..|reports| - 1]);
    }
  }

  /** One of the reports passes the throttle as it was before all of them. */
  predicate LetsOneThrough(th: Throttle, p: Progress, reports: seq<Report>) {
    exists i | 0 <= i < |reports| :: ShouldUpdate(th, p, Clamp(reports[i].value), reports[i].now)
  }

  /** Until a report passes, the display stands still; from then on it lags little. */
  lemma {:induction false} StillUntilShown(th: Throttle, p: Progress, reports: seq<Report>)
    requires th.minProgressChange > 0.0
    ensures var q := Continued(th, p, reports);
      if LetsOneThrough(th, p, reports) then
        q.shown == q.lastValue && Distance(q.shown, q.current) < th.minProgressChange
      else q == p.(current := if reports == [] then p.current else Clamp(reports[|reports| - 1].value))
  {
    if reports != [] {
      var before, last := reports[..|reports| - 1], reports[|reports| - 1];
      StillUntilShown(th, p, before);
      assert LetsOneThrough(th, p, reports) <==>
        LetsOneThrough(th, p, before) || ShouldUpdate(th, p, Clamp(last.value), last.now);
    }
  }

  /** Completing a task does not tell the throttle. After any reports that arrive later, the display is
      within the bound exactly when one of them passed the throttle or the last is nearly 1 itself. */
  lemma {:induction false} LateReports(th: Throttle, reports: seq<Report>, late: seq<Report>, now: real)
    requires th.minProgressChange > 0.0
    ensures var done := MarkCompleted(NewTask.(progress := Reported(th, reports)), PNone, now).progress;
      var p := Continued(th, done, late);
      Distance(p.shown, p.current) < th.minProgressChange <==>
      (late == [] || LetsOneThrough(th, Reported(th, reports), late) ||
       1.0 - Clamp(late[|late| - 1].value) < th.minProgressChange)
  {
    var done := MarkCompleted(NewTask.(progress := Reported(th, reports)), PNone, now).progress;
    StillUntilShown(th, done, late);
    assert LetsOneThrough(th, done, late) == LetsOneThrough(th, Reported(th, reports), late) by {
      assert forall v, t :: ShouldUpdate(th, done, v, t) == ShouldUpdate(th, Reported(th, reports), v, t);
    }
  }

  /** Such a report can be lost: the task was at half, completes, and reports 0.51 at once. */
  lemma {:induction false} LateReportCanBeHidden()
    ensures var before := Reported(DefaultThrottle, [Report(0.5, 100.0)]);
      var done := MarkCompleted(NewTask.(progress := before), PNone, 100.05).progress;
      var late := UpdateProgress(DefaultThrottle, done, 0.51, 100.05);
      late.shown == 1.0 && late.current == 0.51
  {
    assert Continued(DefaultThrottle, NoProgress, []) == NoProgress;
    assert [Report(0.5, 100.0)][..0] == [];
  }

  // ---------------------------------------------------------------- in place

  class ProgressUpdateStrategy {
    const minUpdateInterval: real
    const minProgressChange: real
    var lastUpdateTime: real
    var lastProgressValue: real

    constructor (th: Throttle)
      ensures minUpdateInterval == th.minUpdateInterval && minProgressChange == th.minProgressChange
      ensures lastUpdateTime == 0.0 && lastProgressValue == 0.0
    {
      minUpdateInterval, minProgressChange := th.minUpdateInterval, th.minProgressChange;
      lastUpdateTime, lastProgressValue := 0.0, 0.0;
    }

    /** Whether to show `value`, remembering it if so. */
    method Decide(value: real, now: real) returns (update: bool)
      modifies this
      ensures update == ShouldUpdate(Throttle(minUpdateInterval, minProgressChange),
                                     Progress(old(lastUpdateTime), old(lastProgressValue), 0.0, 0.0), value, now)
      ensures lastUpdateTime == (if update then now else old(lastUpdateTime))
      ensures lastProgressValue == (if update then value else old(lastProgressValue))
    {
      var elapsed := now - lastUpdateTime;
      var change := Distance(value, lastProgressValue);
      if lastUpdateTime == 0.0 {
        lastUpdateTime, lastProgressValue := now, value;
        return true;
      }
      if value == 1.0 && lastProgressValue != 1.0 {
        lastUpdateTime, lastProgressValue := now, value;
        return true;
      }
      if elapsed >= minUpdateInterval || change >= minProgressChange {
        lastUpdateTime, lastProgressValue := now, value;
        return true;
      }
      return false;
    }
  }

  class TaskInfo {
    var status: TaskStatus
    var completedAt: Option<real>
    var result: Option<PyValue>
    var error: Option<string>
    var fromCache: bool
    var progress: real
    var currentProgress: real
    const strategy: ProgressUpdateStrategy

    function View(): TaskRecord
      reads this, strategy
    {
      TaskRecord(status, completedAt, result, error, fromCache,
                 Progress(strategy.lastUpdateTime, strategy.lastProgressValue, progress, currentProgress))
    }

    constructor (th: Throttle)
      ensures View() == NewTask && fresh(strategy)
    {
      status, completedAt, result, error, fromCache := Pending, None, None, None, false;
      progress, currentProgress := 0.0, 0.0;
      strategy := new ProgressUpdateStrategy(th);
    }

    method Snapshot() returns (record: TaskRecord)
      ensures record == View()
    {
      record := TaskRecord(status, completedAt, result, error, fromCache,
                           Progress(strategy.lastUpdateTime, strategy.lastProgressValue, progress, currentProgress));
    }

    method Start()
      modifies this
      ensures View() == MarkStarted(old(View()))
    {
      status := Running;
    }

    method Complete(value: PyValue, now: real)
      modifies this
      ensures View() == MarkCompleted(old(View()), value, now)
    {
      if IsTerminal(status) {
        return;
      }
      status := Completed;
      completedAt := Some(now);
      result := Some(value);
      currentProgress := 1.0;
      progress := 1.0;
    }

    method Fail(message: string, now: real)
      modifies this
      ensures View() == MarkFailed(old(View()), message, now)
    {
      status := Failed;
      completedAt := Some(now);
      error := Some(message);
    }

    method Cancel(reason: string, now: real)
      modifies this
      ensures View() == MarkCancelled(old(View()), reason, now)
    {
      status := Cancelled;
      completedAt := Some(now);
      error := Some(reason);
    }

    method ReportProgress(value: real, now: real)
      modifies this, strategy
      ensures View() == old(View()).(progress := UpdateProgress(
                Throttle(strategy.minUpdateInterval, strategy.minProgressChange), old(View()).progress, value, now))
    {
      var clamped := Clamp(value);
      currentProgress := clamped;
      var show := strategy.Decide(clamped, now);
      if show {
        progress := clamped;
      }
    }
  }
}
