/**
 The arithmetic and enablement logic of the widget (`StudyTimerGUI`): the total-time
 label, the minutes/seconds countdown, which menu actions are enabled, and the
 long-break hint of the context menu. Python's `//`, `%` and `divmod` round toward
 negative infinity; for the positive divisors used here Dafny's `/` and `%` agree.
 */
module Display {
  import opened Logger
  import opened Config
  import opened CycleEngine
  import opened CycleProofs

  /** Whole hours are whole minutes counted in sixties. */
  lemma HoursOfMinutes(n: int)
    ensures n / 3600 == (n / 60) / 60
  {
    var q := n / 60;
    var h := q / 60;
    assert 3600 * h <= n < 3600 * h + 3600;
  }

  /** `update_total_time`: the hours and minutes of the "Total focus: {h}h {m}m" label. */
  function TotalFocus(totalSeconds: int): (hm: (int, int))
    ensures 0 <= hm.1 < 60
    ensures 3600 * hm.0 + 60 * hm.1 <= totalSeconds < 3600 * hm.0 + 60 * hm.1 + 60
  {
    HoursOfMinutes(totalSeconds);
    (totalSeconds / 3600, (totalSeconds / 60) % 60)
  }

  /** `divmod(remaining_ms // 1000, 60)`: whole minutes and seconds left on a timer. */
  function MinutesSeconds(remainingMs: int): (ms: (int, int))
    ensures 0 <= ms.1 < 60
    ensures 1000 * (60 * ms.0 + ms.1) <= remainingMs < 1000 * (60 * ms.0 + ms.1 + 1)
  {
    var secs := remainingMs / 1000;
    (secs / 60, secs % 60)
  }

  /**
   "Start / Resume" is disabled while a timer runs unpaused, when pressing it would do
   nothing. Once enabled it changes the engine, except in a timed phase whose timer is
   stopped: Qt refused a negative interval, or the quit-time `stop()` ran.
   */
  function StartEnabled(s: Settings, e: Engine): (enabled: bool)
    requires Inv(s, e)
    ensures !enabled ==>
              forall draw, now :: (StartDraws(s, e) ==> InRange(s, draw)) ==> StartOrResume(s, e, draw, now) == e
    ensures enabled ==>
              forall draw, now :: (StartDraws(s, e) ==> InRange(s, draw)) ==>
                StartOrResume(s, e, draw, now) != e || (Timed(e.phase) && !e.timer.active)
  {
    var isRunning, isPaused := e.timer.active, e.isPaused;
    !(isRunning && !isPaused)
  }

  /** "Pause" is disabled unless a timer runs unpaused: it is offered exactly when pausing changes the engine. */
  function PauseEnabled(s: Settings, e: Engine): (enabled: bool)
    requires Inv(s, e)
    ensures enabled <==> Pause(e) != e
  {
    var isRunning, isPaused := e.timer.active, e.isPaused;
    !(!isRunning || isPaused)
  }

  /** The long-break line of the context menu: absent, "Long Break in ~{m}m", or "Long Break Available". */
  datatype LongBreakHint = NoHint | MinutesToLongBreak(minutes: int) | LongBreakAvailable

  /** The whole seconds left on a running study timer, which the hint counts as already studied. */
  function RoundSecondsLeft(e: Engine): int {
    if e.phase == Studying && e.timer.active then e.timer.remainingMs / 1000 else 0
  }

  /**
   The hint computed from a given study-time figure, as `populate_context_menu` does:
   below the threshold it shows the whole minutes still to study, counting the running
   round as done.
   */
  function HintFrom(s: Settings, e: Engine, studied: int): (h: LongBreakHint)
    ensures e.phase == Stopped <==> h.NoHint?
    ensures e.phase != Stopped ==> (h.LongBreakAvailable? <==> studied >= s.longBreakThreshold)
    ensures h.MinutesToLongBreak? ==>
              60 * h.minutes <= s.longBreakThreshold - studied - RoundSecondsLeft(e) < 60 * h.minutes + 60
    ensures h.MinutesToLongBreak? && RoundSecondsLeft(e) == 0 ==> h.minutes >= 0
  {
    if e.phase == Stopped then NoHint
    else if studied < s.longBreakThreshold then
      MinutesToLongBreak((s.longBreakThreshold - studied - RoundSecondsLeft(e)) / 60)
    else LongBreakAvailable
  }

  /** The hint as written: it measures the all-time total against the threshold. */
  function LongBreakHintAsWritten(s: Settings, e: Engine): (h: LongBreakHint)
    ensures e.phase == Stopped <==> h.NoHint?
    ensures e.phase != Stopped ==> (h.LongBreakAvailable? <==> e.totalStudyTime >= s.longBreakThreshold)
  {
    HintFrom(s, e, e.totalStudyTime)
  }

  /** The hint as intended: it measures the study time of the current cycle, as the engine does. */
  function LongBreakHintCorrected(s: Settings, e: Engine): (h: LongBreakHint)
    ensures e.phase == Stopped <==> h.NoHint?
    ensures e.phase != Stopped ==> (h.LongBreakAvailable? <==> e.cycleStudyTime >= s.longBreakThreshold)
  {
    HintFrom(s, e, e.cycleStudyTime)
  }

  /** During a short break the corrected hint says "available" exactly when the long break comes next. */
  lemma CorrectedHintPredictsLongBreak(s: Settings, e: Engine, draw: int, now: Timestamp)
    requires e.phase == ShortBreaking
    requires e.timer.active && e.timer.remainingMs == 0 && (TimeoutDraws(s, e) ==> InRange(s, draw))
    ensures LongBreakHintCorrected(s, e).LongBreakAvailable? <==> Fire(s, e, draw, now).phase == LongBreaking
  {
  }
}
