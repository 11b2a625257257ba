/**
 The cycle engine (`StudyTimerLogic` in study_timer_gui.py) as pure transitions
 over an immutable engine record. The single-shot `QTimer` becomes the abstract
 `Timer` value, audio cues and Qt signals become events appended to `trace`, the
 CSV log becomes the row sequence `log`, `random.randint` becomes a `draw`
 argument and `datetime.now()` a `now` argument.
 */
module CycleEngine {
  import opened Wrappers
  import opened Logger
  import opened Config
  import Decimal

  datatype Phase = Stopped | Studying | ShortBreaking | LongBreaking | LongBreakFinished

  /** The phases that run a phase timer. */
  predicate Timed(p: Phase) {
    p == Studying || p == ShortBreaking || p == LongBreaking
  }

  /**
   A single-shot `QTimer`: whether it is pending, the milliseconds left until it
   fires, and the integer stored in its `"duration"` property.
   */
  datatype Timer = Timer(active: bool, remainingMs: int, duration: int)

  /** A timer that was never started and whose `"duration"` property was never set. */
  const IdleTimer: Timer := Timer(false, 0, 0)

  /** `QTimer.start(ms)`: (re)arm the timer; Qt refuses a negative interval and leaves it stopped. */
  function StartTimer(t: Timer, ms: int): (r: Timer)
    ensures r.duration == t.duration
    ensures r.active <==> ms >= 0
    ensures r.active ==> r.remainingMs == ms
  {
    if ms >= 0 then t.(active := true, remainingMs := ms) else t.(active := false)
  }

  /** `QTimer.stop()`: cancel the pending timeout, keeping the `"duration"` property. */
  function StopTimer(t: Timer): (r: Timer)
    ensures !r.active && r.duration == t.duration
  {
    t.(active := false)
  }

  /** The audio cues, by their key in the `sound_files` table. */
  datatype Cue = StartStudy | StartShortBreak | StartLongBreak | EndLongBreak

  function CueKey(c: Cue): (key: string)
    ensures key in DefaultSoundFiles
  {
    match c
    case StartStudy => "start_study"
    case StartShortBreak => "start_short_break"
    case StartLongBreak => "start_long_break"
    case EndLongBreak => "end_long_break"
  }

  /** The status texts carried by `state_changed`. */
  datatype Status =
    | IdleStatus
    | StudyingStatus(round: nat)
    | ShortBreakStatus
    | LongBreakStatus
    | PausedStatus
    | LongBreakEndedStatus
    | UnknownStatus

  const StudyingPrefix: string := "📚 Studying...\n(Round "

  /** The texts of the statuses that carry no round; none starts like a studying text. */
  function FixedText(st: Status): (t: string)
    requires !st.StudyingStatus?
    ensures |t| > 0 && t[0] != StudyingPrefix[0]
  {
    match st
    case IdleStatus => "EZLockIn\nRight-click to Start"
    case ShortBreakStatus => "☕ Short Break..."
    case LongBreakStatus => "🧘 Long Break..."
    case PausedStatus => "⏸️ Paused"
    case LongBreakEndedStatus => "🎉 Long Break Ended\n" + "Right-click to start a new cycle"
    case UnknownStatus => "Unknown"
  }

  /** The text a status is shown as; a studying text names its round in decimal. */
  function StatusText(st: Status): (t: string)
    ensures st.StudyingStatus? <==> StudyingPrefix <= t
    ensures st.StudyingStatus? ==>
              && |t| > |StudyingPrefix| + 1 && t[|t| - 1] == ')'
              && Decimal.DecimalValue(t[|StudyingPrefix|..|t| - 1]) == st.round
  {
    if st.StudyingStatus? then
      var digits := Decimal.DecimalDigits(st.round);
      Decimal.DecimalRoundTrip(st.round);
      var t := StudyingPrefix + digits + ")";
      assert t[|StudyingPrefix|..|t| - 1] == digits;
      t
    else
      FixedText(st)
  }

  /** Different statuses are shown as different texts: the text identifies the status and the round. */
  lemma StatusTextInjective(a: Status, b: Status)
    ensures StatusText(a) == StatusText(b) ==> a == b
  {
    if StatusText(a) == StatusText(b) && a.StudyingStatus? && b.StudyingStatus? {
      var t := StatusText(a);
      assert a.round == Decimal.DecimalValue(t[|StudyingPrefix|..|t| - 1]) == b.round;
    }
  }

  /** What the engine emits: the three Qt signals and the cue playback requests. */
  datatype Event =
    | StateChanged(status: Status, phase: Phase)
    | TimeUpdated(total: int)
    | NotificationRequested(title: string, message: string)
    | PlayCue(cue: Cue)

  /** The attributes of one `StudyTimerLogic` instance, plus its log store and emitted events. */
  datatype Engine = Engine(
    phase: Phase,
    isPaused: bool,
    remainingOnPause: int,       // ms snapshot taken by the last pause
    cycleCount: nat,             // study rounds started since the last cycle reset
    totalStudyTime: int,         // seconds, carried across runs through the config
    cycleStudyTime: int,         // seconds studied since the last long break
    sessionStart: Option<Timestamp>,
    sessionDuration: int,        // planned seconds of the study interval in progress
    timer: Timer,
    log: seq<Row>,
    trace: seq<Event>)

  /** The state every reset leaves behind: stopped, no timer, nothing in progress. */
  predicate Cleared(e: Engine) {
    && e.phase == Stopped
    && !e.timer.active
    && !e.isPaused
    && e.cycleCount == 0
    && e.sessionStart == None
    && e.sessionDuration == 0
    && e.cycleStudyTime == 0
  }

  /** `reset_cycle`: stop the timer, drop the cycle and any interval in progress, keep the total. */
  function ResetCycle(e: Engine): (r: Engine)
    ensures Cleared(r)
    ensures r.totalStudyTime == e.totalStudyTime && r.log == e.log
    ensures r.timer.duration == e.timer.duration && r.remainingOnPause == e.remainingOnPause
    ensures r.trace == e.trace + [StateChanged(IdleStatus, Stopped), TimeUpdated(e.totalStudyTime)]
  {
    e.(timer := StopTimer(e.timer), cycleCount := 0, phase := Stopped, isPaused := false,
       sessionStart := None, sessionDuration := 0, cycleStudyTime := 0,
       trace := e.trace + [StateChanged(IdleStatus, Stopped), TimeUpdated(e.totalStudyTime)])
  }

  /** `reset_all`: zero the total, reset the cycle, and report the zero total a second time. */
  function ResetAll(e: Engine): (r: Engine)
    ensures Cleared(r)
    ensures r.totalStudyTime == 0 && r.log == e.log
    ensures r.trace == e.trace + [StateChanged(IdleStatus, Stopped), TimeUpdated(0), TimeUpdated(0)]
  {
    var r := ResetCycle(e.(totalStudyTime := 0));
    r.(trace := r.trace + [TimeUpdated(0)])
  }

  /**
   The constructor: the logger prepares its store, the counters start from the stored
   total, the timer is fresh, then `reset_cycle` runs.
   */
  function Init(storedTotal: int, existing: Option<seq<Row>>): (r: Engine)
    ensures Cleared(r) && r.totalStudyTime == storedTotal
    ensures existing.Some? ==> r.log == existing.value
    ensures existing.None? ==> r.log == [HeaderRow]
    ensures r.timer == IdleTimer && r.remainingOnPause == 0
    ensures r.trace == [StateChanged(IdleStatus, Stopped), TimeUpdated(storedTotal)]
  {
    ResetCycle(Engine(Stopped, false, 0, 0, storedTotal, 0, None, 0, IdleTimer, InitializeStore(existing), []))
  }

  /**
   Building the engine from a loaded configuration: the timings it reads and the total
   it starts from. There is no engine when a timing or the stored total is not an integer.
   */
  function Launch(config: map<string, Value>, existing: Option<seq<Row>>): (r: Option<(Settings, Engine)>)
    ensures r.Some? <==> ReadSettings(config).Some? && StoredTotal(config).Some?
    ensures r.Some? ==>
              && r.value.0 == ReadSettings(config).value
              && Cleared(r.value.1) && r.value.1.log == InitializeStore(existing)
              && ("total_study_time" !in config ==> r.value.1.totalStudyTime == 0)
              && ("total_study_time" in config ==>
                    config["total_study_time"] == Num(r.value.1.totalStudyTime))
  {
    match (ReadSettings(config), StoredTotal(config))
    case (Some(s), Some(t)) => Some((s, Init(t, existing)))
    case _ => None
  }

  /** The default configuration and no log file give the default timings and a new engine with total 0. */
  lemma DefaultLaunch()
    ensures Launch(DefaultConfig, None) == Some((Settings(180, 300, 10, 5400, 1200), Init(0, None)))
  {
    DefaultSettings();
  }

  /** `load_persistent_time`: adopt a stored total and report it. */
  function LoadPersistentTime(e: Engine, total: int): (r: Engine)
    ensures r.totalStudyTime == total && r.trace == e.trace + [TimeUpdated(total)]
    ensures r.(totalStudyTime := e.totalStudyTime, trace := e.trace) == e
  {
    e.(totalStudyTime := total, trace := e.trace + [TimeUpdated(total)])
  }

  /** `stop`: cancel the phase timer when the application quits. */
  function Stop(e: Engine): (r: Engine)
    ensures !r.timer.active && r.(timer := e.timer) == e
  {
    e.(timer := StopTimer(e.timer))
  }

  /** A draw is a value `random.randint(study_time_min, study_time_max)` can return. */
  predicate InRange(s: Settings, draw: int) {
    s.studyMin <= draw <= s.studyMax
  }

  /** Whether a timeout in this state reaches `_run_study_cycle`, the only caller of `randint`. */
  predicate TimeoutDraws(s: Settings, e: Engine) {
    e.phase == ShortBreaking && e.cycleStudyTime < s.longBreakThreshold
  }

  /** Whether `start_or_resume` in this state reaches `_run_study_cycle`. */
  predicate StartDraws(s: Settings, e: Engine) {
    && !e.isPaused
    && (e.phase == Stopped || e.phase == LongBreakFinished)
    && (if e.phase == LongBreakFinished then 0 else e.cycleStudyTime) < s.longBreakThreshold
  }

  /** `_run_study_cycle`: start round `cycleCount + 1` with a drawn length in `[studyMin, studyMax]`. */
  function RunStudyCycle(s: Settings, e: Engine, draw: int, now: Timestamp): (r: Engine)
    requires InRange(s, draw)
    ensures r.phase == Studying && r.cycleCount == e.cycleCount + 1
    ensures s.studyMin <= r.sessionDuration <= s.studyMax
    ensures r.timer.duration == r.sessionDuration && r.sessionStart == Some(now)
    ensures r.timer.active <==> r.sessionDuration >= 0
    ensures r.timer.active ==> r.timer.remainingMs == 1000 * r.sessionDuration
    ensures r.totalStudyTime == e.totalStudyTime && r.cycleStudyTime == e.cycleStudyTime
    ensures r.isPaused == e.isPaused && r.log == e.log
    ensures r.trace == e.trace + [StateChanged(StudyingStatus(r.cycleCount), Studying), PlayCue(StartStudy)]
  {
    var round := e.cycleCount + 1;
    e.(cycleCount := round, phase := Studying, sessionStart := Some(now), sessionDuration := draw,
       timer := StartTimer(e.timer.(duration := draw), draw * 1000),
       trace := e.trace + [StateChanged(StudyingStatus(round), Studying), PlayCue(StartStudy)])
  }

  /** `_run_short_break_cycle`: a break that credits nothing and leaves the cycle's study time alone. */
  function RunShortBreakCycle(s: Settings, e: Engine): (r: Engine)
    ensures r.phase == ShortBreaking && r.timer.duration == 0
    ensures r.timer.active <==> s.shortBreak >= 0
    ensures r.timer.active ==> r.timer.remainingMs == 1000 * s.shortBreak
    ensures r.(phase := e.phase, timer := e.timer, trace := e.trace) == e
    ensures r.trace == e.trace + [StateChanged(ShortBreakStatus, ShortBreaking),
                                  TimeUpdated(e.totalStudyTime), PlayCue(StartShortBreak)]
  {
    e.(phase := ShortBreaking,
       timer := StartTimer(e.timer.(duration := 0), s.shortBreak * 1000),
       trace := e.trace + [StateChanged(ShortBreakStatus, ShortBreaking),
                           TimeUpdated(e.totalStudyTime), PlayCue(StartShortBreak)])
  }

  /** `_run_long_break_cycle`: a break that starts the cycle's study time afresh. */
  function RunLongBreakCycle(s: Settings, e: Engine): (r: Engine)
    ensures r.phase == LongBreaking && r.timer.duration == 0 && r.cycleStudyTime == 0
    ensures r.timer.active <==> s.longBreakDuration >= 0
    ensures r.timer.active ==> r.timer.remainingMs == 1000 * s.longBreakDuration
    ensures r.(phase := e.phase, timer := e.timer, cycleStudyTime := e.cycleStudyTime, trace := e.trace) == e
    ensures r.trace == e.trace + [StateChanged(LongBreakStatus, LongBreaking),
                                  TimeUpdated(e.totalStudyTime), PlayCue(StartLongBreak)]
  {
    e.(phase := LongBreaking, cycleStudyTime := 0,
       timer := StartTimer(e.timer.(duration := 0), s.longBreakDuration * 1000),
       trace := e.trace + [StateChanged(LongBreakStatus, LongBreaking),
                           TimeUpdated(e.totalStudyTime), PlayCue(StartLongBreak)])
  }

  /** The row store after a study interval ends at `now`: logged only when one was in progress. */
  function LogCompleted(e: Engine, now: Timestamp): (log: seq<Row>)
    ensures !(e.sessionStart.Some? && e.sessionDuration > 0) ==> log == e.log
    ensures e.sessionStart.Some? && e.sessionDuration > 0 ==>
              && |log| == |e.log| + 1 && e.log <= log
              && RecordsInterval(log[|e.log|], e.sessionStart.value, now, e.sessionDuration)
  {
    if e.sessionStart.Some? && e.sessionDuration > 0 then
      LogSession(e.log, e.sessionStart, Some(now), e.sessionDuration)
    else
      e.log
  }

  /**
   `on_timer_timeout`: what the engine does when its phase timer fires. `draw` is the
   length the next study round would get, `now` the wall-clock time of the event.
   */
  function OnTimerTimeout(s: Settings, e: Engine, draw: int, now: Timestamp): (r: Engine)
    requires TimeoutDraws(s, e) ==> InRange(s, draw)
    ensures e.phase == Studying ==>
              && r.phase == ShortBreaking
              && r.totalStudyTime == e.totalStudyTime + e.timer.duration
              && r.cycleStudyTime == e.cycleStudyTime + e.timer.duration
              && r.sessionStart == None
    ensures e.phase == ShortBreaking ==>
              && r.totalStudyTime == e.totalStudyTime
              && (r.phase == LongBreaking <==> e.cycleStudyTime >= s.longBreakThreshold)
              && (r.phase == Studying <==> e.cycleStudyTime < s.longBreakThreshold)
    ensures e.phase == LongBreaking ==>
              && r.phase == LongBreakFinished
              && r.(phase := e.phase, trace := e.trace) == e
    ensures !Timed(e.phase) ==> r == e
    ensures e.phase != Studying ==> r.log == e.log
  {
    match e.phase
    case Studying =>
      var credited := e.timer.duration;
      var e1 := e.(log := LogCompleted(e, now), sessionStart := None, sessionDuration := 0,
                   totalStudyTime := e.totalStudyTime + credited,
                   cycleStudyTime := e.cycleStudyTime + credited);
      RunShortBreakCycle(s, e1)
    case ShortBreaking =>
      if e.cycleStudyTime >= s.longBreakThreshold then RunLongBreakCycle(s, e)
      else RunStudyCycle(s, e, draw, now)
    case LongBreaking =>
      e.(phase := LongBreakFinished,
         trace := e.trace + [PlayCue(EndLongBreak), StateChanged(LongBreakEndedStatus, LongBreakFinished),
                             NotificationRequested("Break Finished", "Ready to start the next session?")])
    case _ => e
  }

  /** Let `ms` milliseconds pass; a pending timeout cannot be overtaken, it has to fire first. */
  function Elapse(e: Engine, ms: int): (r: Engine)
    requires ms >= 0
    requires e.timer.active ==> ms <= e.timer.remainingMs
    ensures r.timer.active == e.timer.active && r.timer.duration == e.timer.duration
    ensures e.timer.active ==> r.timer.remainingMs == e.timer.remainingMs - ms
    ensures r.(timer := e.timer) == e
  {
    if e.timer.active then e.(timer := e.timer.(remainingMs := e.timer.remainingMs - ms)) else e
  }

  /** The single-shot timer fires: Qt marks it inactive, then runs `on_timer_timeout`. */
  function Fire(s: Settings, e: Engine, draw: int, now: Timestamp): (r: Engine)
    requires e.timer.active && e.timer.remainingMs == 0
    requires TimeoutDraws(s, e) ==> InRange(s, draw)
    ensures e.phase == LongBreaking ==> !r.timer.active
  {
    OnTimerTimeout(s, e.(timer := StopTimer(e.timer)), draw, now)
  }

  /** `pause`: only a pending timer can be paused; the phase stays, the time left is kept. */
  function Pause(e: Engine): (r: Engine)
    ensures !e.timer.active ==> r == e
    ensures e.timer.active ==>
              && r.isPaused && !r.timer.active
              && r.remainingOnPause == e.timer.remainingMs
              && r.timer.duration == e.timer.duration
              && r.trace == e.trace + [StateChanged(PausedStatus, e.phase)]
              && r.(isPaused := e.isPaused, remainingOnPause := e.remainingOnPause,
                    timer := e.timer, trace := e.trace) == e
  {
    if e.timer.active then
      e.(remainingOnPause := e.timer.remainingMs, timer := StopTimer(e.timer), isPaused := true,
         trace := e.trace + [StateChanged(PausedStatus, e.phase)])
    else
      e
  }

  /** The status `_resume` re-emits for the phase it resumes. */
  function ResumedStatus(e: Engine): (st: Status)
    ensures st == UnknownStatus <==> !Timed(e.phase)
    ensures st.StudyingStatus? <==> e.phase == Studying
  {
    match e.phase
    case Studying => StudyingStatus(e.cycleCount)
    case ShortBreaking => ShortBreakStatus
    case LongBreaking => LongBreakStatus
    case _ => UnknownStatus
  }

  /**
   `_resume`: restart the timer with exactly the paused snapshot. Whatever the phase,
   the cue played is the study cue.
   */
  function Resume(e: Engine): (r: Engine)
    ensures !e.isPaused ==> r == e
    ensures e.isPaused ==>
              && !r.isPaused
              && r.timer == StartTimer(e.timer, e.remainingOnPause)
              && r.trace == e.trace + [PlayCue(StartStudy), StateChanged(ResumedStatus(e), e.phase)]
              && r.(isPaused := e.isPaused, timer := e.timer, trace := e.trace) == e
  {
    if e.isPaused then
      e.(timer := StartTimer(e.timer, e.remainingOnPause), isPaused := false,
         trace := e.trace + [PlayCue(StartStudy), StateChanged(ResumedStatus(e), e.phase)])
    else
      e
  }

  /**
   `start_or_resume`: resume a paused phase, start a cycle from `stopped` or after a
   finished long break, and otherwise do nothing.
   */
  function StartOrResume(s: Settings, e: Engine, draw: int, now: Timestamp): (r: Engine)
    requires StartDraws(s, e) ==> InRange(s, draw)
    ensures e.isPaused ==> r == Resume(e)
    ensures !e.isPaused && Timed(e.phase) ==> r == e
    ensures !e.isPaused && !Timed(e.phase) ==> r.phase == Studying || r.phase == LongBreaking
    ensures r.log == e.log
  {
    if e.isPaused then
      Resume(e)
    else if e.phase == Stopped || e.phase == LongBreakFinished then
      var e1 := e.(isPaused := false);
      var e2 := if e.phase == LongBreakFinished then ResetCycle(e1) else e1;
      if e2.cycleStudyTime >= s.longBreakThreshold then RunLongBreakCycle(s, e2)
      else RunStudyCycle(s, e2, draw, now)
    else
      e
  }
}
