/**
 Properties of the cycle engine over every sequence of commands and timer events:
 the invariant every reachable state keeps, and what each step may change.
 */
module CycleProofs {
  import opened Wrappers
  import opened Logger
  import opened Config
  import opened CycleEngine

  /** What drives the engine: the UI commands, the passage of time, and the timer firing. */
  datatype Action =
    | StartCmd(draw: int, now: Timestamp)
    | PauseCmd
    | ResetCycleCmd
    | ResetAllCmd
    | Tick(ms: int)
    | Expire(draw: int, now: Timestamp)
    | LoadTotalCmd(total: int)
    | StopCmd

  /**
   When an action can happen: a draw that is used comes from `[studyMin, studyMax]`,
   and time cannot pass a pending deadline.
   */
  predicate Enabled(s: Settings, e: Engine, a: Action) {
    match a
    case StartCmd(draw, _) => StartDraws(s, e) ==> InRange(s, draw)
    case Tick(ms) => ms >= 0 && (e.timer.active ==> ms <= e.timer.remainingMs)
    case Expire(draw, _) => e.timer.active && e.timer.remainingMs == 0 && (TimeoutDraws(s, e) ==> InRange(s, draw))
    case _ => true
  }

  function Step(s: Settings, e: Engine, a: Action): Engine
    requires Enabled(s, e, a)
  {
    match a
    case StartCmd(draw, now) => StartOrResume(s, e, draw, now)
    case PauseCmd => Pause(e)
    case ResetCycleCmd => ResetCycle(e)
    case ResetAllCmd => ResetAll(e)
    case Tick(ms) => Elapse(e, ms)
    case Expire(draw, now) => Fire(s, e, draw, now)
    case LoadTotalCmd(t) => LoadPersistentTime(e, t)
    case StopCmd => Stop(e)
  }

  /** The state after a run of actions, or `None` when some action in it is not enabled. */
  function Execute(s: Settings, e: Engine, acts: seq<Action>): Option<Engine>
    decreases |acts|
  {
    if |acts| == 0 then Some(e)
    else if Enabled(s, e, acts[0]) then Execute(s, Step(s, e, acts[0]), acts[1..])
    else None
  }

  /** The facts that hold in every state the engine can reach. */
  predicate Inv(s: Settings, e: Engine) {
    // a pause suspends a timed phase; its timer is stopped and its snapshot is a real time left
    && (e.isPaused ==> Timed(e.phase) && !e.timer.active && e.remainingOnPause >= 0)
    // only timed phases have a pending timer, and it never runs past its deadline
    && (e.timer.active ==> Timed(e.phase) && e.timer.remainingMs >= 0)
    // an interval is in progress exactly while studying
    && (e.sessionStart.Some? <==> e.phase == Studying)
    && (e.phase != Studying ==> e.sessionDuration == 0)
    // the timer's "duration" property holds the drawn length of the interval in progress
    && (e.phase == Studying ==>
          s.studyMin <= e.sessionDuration <= s.studyMax
          && e.timer.duration == e.sessionDuration
          && e.cycleCount >= 1)
    // a round whose timer was armed (or paused) has a non-negative length
    && (e.phase == Studying && (e.timer.active || e.isPaused) ==> e.sessionDuration >= 0)
    && (e.phase == ShortBreaking || e.phase == LongBreaking ==> e.timer.duration == 0)
    // the cycle's study time is zero from the start of a long break until the next round is credited
    && (e.phase == Stopped || e.phase == LongBreaking || e.phase == LongBreakFinished ==> e.cycleStudyTime == 0)
    && (e.phase == Stopped ==> e.cycleCount == 0)
  }

  lemma InitInv(s: Settings, storedTotal: int, existing: Option<seq<Row>>)
    ensures Inv(s, Init(storedTotal, existing))
  {
  }

  lemma StepInv(s: Settings, e: Engine, a: Action)
    requires Inv(s, e) && Enabled(s, e, a)
    ensures Inv(s, Step(s, e, a))
  {
  }

  /** Every state reached from a consistent one is consistent. */
  lemma {:induction false} ExecuteInv(s: Settings, e: Engine, acts: seq<Action>)
    requires Inv(s, e)
    requires Execute(s, e, acts).Some?
    ensures Inv(s, Execute(s, e, acts).value)
    decreases |acts|
  {
    if |acts| > 0 {
      StepInv(s, e, acts[0]);
      ExecuteInv(s, Step(s, e, acts[0]), acts[1..]);
    }
  }

  ghost predicate Reachable(s: Settings, e: Engine) {
    exists storedTotal, existing, acts :: Execute(s, Init(storedTotal, existing), acts) == Some(e)
  }

  lemma ReachableInv(s: Settings, e: Engine)
    requires Reachable(s, e)
    ensures Inv(s, e)
  {
    var storedTotal, existing, acts :| Execute(s, Init(storedTotal, existing), acts) == Some(e);
    InitInv(s, storedTotal, existing);
    ExecuteInv(s, Init(storedTotal, existing), acts);
  }

  // ---------------------------------------------------------------------------
  // Timeouts

  /**
   A studying timeout credits exactly the drawn length of the round to both totals,
   logs the interval when it has a positive length, and starts a short break.
   */
  lemma StudyTimeoutCredits(s: Settings, e: Engine, draw: int, now: Timestamp)
    requires Inv(s, e) && e.phase == Studying
    requires e.timer.active && e.timer.remainingMs == 0
    ensures var r := Fire(s, e, draw, now);
      && r.phase == ShortBreaking
      && r.totalStudyTime == e.totalStudyTime + e.sessionDuration
      && r.cycleStudyTime == e.cycleStudyTime + e.sessionDuration
      && s.studyMin <= r.totalStudyTime - e.totalStudyTime <= s.studyMax
      && r.sessionStart == None
      && r.log == LogSession(e.log, e.sessionStart, Some(now), e.sessionDuration)
  {
  }

  /** Break timeouts credit nothing and log nothing. */
  lemma BreakTimeoutCreditsNothing(s: Settings, e: Engine, draw: int, now: Timestamp)
    requires e.phase == ShortBreaking || e.phase == LongBreaking
    requires e.timer.active && e.timer.remainingMs == 0 && (TimeoutDraws(s, e) ==> InRange(s, draw))
    ensures var r := Fire(s, e, draw, now);
      r.totalStudyTime == e.totalStudyTime && r.log == e.log
  {
  }

  /**
   A short-break timeout starts the long break exactly when the cycle's study time has
   reached the threshold, and zeroes that time only then; otherwise a new round starts.
   */
  lemma ShortBreakTimeoutBranches(s: Settings, e: Engine, draw: int, now: Timestamp)
    requires e.phase == ShortBreaking
    requires e.timer.active && e.timer.remainingMs == 0 && (TimeoutDraws(s, e) ==> InRange(s, draw))
    ensures var r := Fire(s, e, draw, now);
      && (r.phase == LongBreaking <==> e.cycleStudyTime >= s.longBreakThreshold)
      && (r.phase == Studying <==> e.cycleStudyTime < s.longBreakThreshold)
      && (r.phase == LongBreaking ==> r.cycleStudyTime == 0 && r.cycleCount == e.cycleCount)
      && (r.phase == Studying ==>
            r.cycleStudyTime == e.cycleStudyTime && r.cycleCount == e.cycleCount + 1
            && r.sessionDuration == draw && r.timer.duration == draw)
  {
  }

  /** A long-break timeout ends the cycle with the end cue, the status and the notification. */
  lemma LongBreakTimeoutFinishes(s: Settings, e: Engine, draw: int, now: Timestamp)
    requires e.phase == LongBreaking
    requires e.timer.active && e.timer.remainingMs == 0
    ensures var r := Fire(s, e, draw, now);
      && r.phase == LongBreakFinished && !r.timer.active
      && r.trace == e.trace + [PlayCue(EndLongBreak), StateChanged(LongBreakEndedStatus, LongBreakFinished),
                               NotificationRequested("Break Finished", "Ready to start the next session?")]
  {
  }

  // ---------------------------------------------------------------------------
  // What a single step may change

  /** Entering a long break always follows a cycle that reached the threshold, and zeroes it. */
  lemma EnteringLongBreakNeedsThreshold(s: Settings, e: Engine, a: Action)
    requires Inv(s, e) && Enabled(s, e, a)
    requires e.phase != LongBreaking && Step(s, e, a).phase == LongBreaking
    ensures e.cycleStudyTime >= s.longBreakThreshold
    ensures Step(s, e, a).cycleStudyTime == 0
  {
  }

  /** Entering a study round or a short break never zeroes the cycle's study time. */
  lemma EnteringStudyKeepsCycleTime(s: Settings, e: Engine, a: Action)
    requires Inv(s, e) && Enabled(s, e, a)
    ensures var r := Step(s, e, a);
      && (r.phase == Studying && e.phase != Studying ==> r.cycleStudyTime == e.cycleStudyTime)
      && (r.phase == ShortBreaking && e.phase == Studying ==>
            r.cycleStudyTime == e.cycleStudyTime + e.sessionDuration)
  {
  }

  /**
   `cycleCount` counts rounds started since the last cycle reset: it grows by one exactly
   when a round starts, and only resets (including the one a new cycle begins with) clear it.
   */
  lemma CycleCountStep(s: Settings, e: Engine, a: Action)
    requires Inv(s, e) && Enabled(s, e, a)
    ensures var r := Step(s, e, a);
      && (r.phase == Studying && e.phase != Studying ==>
            r.cycleCount == (if e.phase == LongBreakFinished then 0 else e.cycleCount) + 1)
      && (a.ResetCycleCmd? || a.ResetAllCmd? ==> r.cycleCount == 0)
      && (a.StartCmd? && e.phase == LongBreakFinished ==>
            r.cycleCount == if r.phase == Studying then 1 else 0)
      && (!(r.phase == Studying && e.phase != Studying) && !a.ResetCycleCmd? && !a.ResetAllCmd?
          && !(a.StartCmd? && e.phase == LongBreakFinished) ==>
            r.cycleCount == e.cycleCount)
  {
  }

  /** The total changes only by a studying timeout's credit, a reset of everything, or a load. */
  lemma TotalStep(s: Settings, e: Engine, a: Action)
    requires Inv(s, e) && Enabled(s, e, a)
    ensures var r := Step(s, e, a);
      r.totalStudyTime ==
        if a.Expire? && e.phase == Studying then e.totalStudyTime + e.sessionDuration
        else if a.ResetAllCmd? then 0
        else if a.LoadTotalCmd? then a.total
        else e.totalStudyTime
  {
  }

  /** Only a studying timeout writes to the log, and it writes at most one row. */
  lemma LogStep(s: Settings, e: Engine, a: Action)
    requires Inv(s, e) && Enabled(s, e, a)
    ensures var r := Step(s, e, a);
      && (!(a.Expire? && e.phase == Studying) ==> r.log == e.log)
      && (a.Expire? && e.phase == Studying ==>
            if e.sessionDuration > 0 then
              && |r.log| == |e.log| + 1 && r.log[..|e.log|] == e.log
              && RecordsInterval(r.log[|e.log|], e.sessionStart.value, a.now, e.sessionDuration)
            else r.log == e.log)
  {
  }

  // ---------------------------------------------------------------------------
  // Commands

  /** Resuming right after a pause restores the very timer that was paused. */
  lemma PauseResumeRoundTrip(s: Settings, e: Engine)
    requires Inv(s, e) && e.timer.active
    ensures var r := Resume(Pause(e));
      && r.timer == e.timer
      && r == e.(remainingOnPause := e.timer.remainingMs, trace := r.trace)
      && r.trace == e.trace + [StateChanged(PausedStatus, e.phase), PlayCue(StartStudy),
                               StateChanged(ResumedStatus(e), e.phase)]
  {
  }

  /**
   `_resume` re-emits exactly the status each timed phase announced when it was
   entered, and a pause does not change which status that is.
   */
  lemma ResumeRepeatsEntryStatus(s: Settings, e: Engine, draw: int, now: Timestamp)
    requires InRange(s, draw)
    ensures var r := RunStudyCycle(s, e, draw, now);
      r.trace[|e.trace|] == StateChanged(ResumedStatus(r), r.phase)
    ensures var r := RunShortBreakCycle(s, e);
      r.trace[|e.trace|] == StateChanged(ResumedStatus(r), r.phase)
    ensures var r := RunLongBreakCycle(s, e);
      r.trace[|e.trace|] == StateChanged(ResumedStatus(r), r.phase)
    ensures ResumedStatus(Pause(e)) == ResumedStatus(e)
  {
  }

  /** Pausing and then resuming never alters what the running round will credit. */
  lemma PauseKeepsCredit(s: Settings, e: Engine, draw: int, now: Timestamp)
    requires Inv(s, e) && e.phase == Studying
    ensures var r := StartOrResume(s, Pause(e), draw, now);
      && Inv(s, Pause(e)) && Inv(s, r)
      && r.phase == Studying && r.sessionDuration == e.sessionDuration
      && r.timer.duration == e.sessionDuration
  {
  }

  /**
   From `stopped` or a finished long break, `start_or_resume` starts a long break
   rather than a round exactly when the threshold is not positive.
   */
  lemma StartLongBranchNeedsNonPositiveThreshold(s: Settings, e: Engine, draw: int, now: Timestamp)
    requires Inv(s, e) && !e.isPaused && (e.phase == Stopped || e.phase == LongBreakFinished)
    requires StartDraws(s, e) ==> InRange(s, draw)
    ensures StartOrResume(s, e, draw, now).phase == LongBreaking <==> s.longBreakThreshold <= 0
    ensures StartOrResume(s, e, draw, now).phase == Studying <==> s.longBreakThreshold > 0
  {
  }

  /** A round cut short by a reset leaves no row and no credit behind. */
  lemma ResetDiscardsInterval(s: Settings, e: Engine)
    requires Inv(s, e) && e.phase == Studying
    ensures var r := ResetCycle(e);
      r.log == e.log && r.totalStudyTime == e.totalStudyTime && r.sessionStart == None && Inv(s, r)
    ensures var r := ResetAll(e);
      r.log == e.log && r.totalStudyTime == 0 && r.sessionStart == None && Inv(s, r)
  {
  }

  /** Resetting everything is resetting the cycle of the same engine with its total zeroed. */
  lemma ResetAllIsResetCycleOfZeroTotal(e: Engine)
    ensures ResetAll(e) == ResetCycle(e.(totalStudyTime := 0)).(trace := ResetAll(e).trace)
    ensures ResetCycle(ResetCycle(e)) == ResetCycle(e).(trace := ResetCycle(ResetCycle(e)).trace)
  {
  }

  // ---------------------------------------------------------------------------
  // Whole runs

  /** The log is append-only: every run keeps the rows it started with. */
  lemma {:induction false} ExecuteLogAppendOnly(s: Settings, e: Engine, acts: seq<Action>)
    requires Inv(s, e) && Execute(s, e, acts).Some?
    ensures e.log <= Execute(s, e, acts).value.log
    decreases |acts|
  {
    if |acts| > 0 {
      var e1 := Step(s, e, acts[0]);
      LogStep(s, e, acts[0]);
      StepInv(s, e, acts[0]);
      ExecuteLogAppendOnly(s, e1, acts[1..]);
    }
  }

  /** A run in which the timer never fires logs nothing: aborted rounds are never recorded. */
  lemma {:induction false} NoExpiryNoLog(s: Settings, e: Engine, acts: seq<Action>)
    requires Inv(s, e) && Execute(s, e, acts).Some?
    requires forall i :: 0 <= i < |acts| ==> !acts[i].Expire?
    ensures Execute(s, e, acts).value.log == e.log
    ensures Execute(s, e, acts).value.totalStudyTime == e.totalStudyTime ||
            exists i :: 0 <= i < |acts| && (acts[i].ResetAllCmd? || acts[i].LoadTotalCmd?)
    decreases |acts|
  {
    if |acts| > 0 {
      LogStep(s, e, acts[0]);
      TotalStep(s, e, acts[0]);
      StepInv(s, e, acts[0]);
      NoExpiryNoLog(s, Step(s, e, acts[0]), acts[1..]);
      var r := Execute(s, e, acts).value;
      if r.totalStudyTime != e.totalStudyTime && !(acts[0].ResetAllCmd? || acts[0].LoadTotalCmd?) {
        var i :| 0 <= i < |acts[1..]| && (acts[1..][i].ResetAllCmd? || acts[1..][i].LoadTotalCmd?);
        assert acts[i + 1] == acts[1..][i];
      }
    }
  }

  /** The total never decreases unless it is reset or reloaded. */
  lemma {:induction false} ExecuteTotalMonotone(s: Settings, e: Engine, acts: seq<Action>)
    requires Inv(s, e) && Execute(s, e, acts).Some?
    requires forall i :: 0 <= i < |acts| ==> !acts[i].ResetAllCmd? && !acts[i].LoadTotalCmd?
    ensures Execute(s, e, acts).value.totalStudyTime >= e.totalStudyTime
    decreases |acts|
  {
    if |acts| > 0 {
      TotalStep(s, e, acts[0]);
      StepInv(s, e, acts[0]);
      ExecuteTotalMonotone(s, Step(s, e, acts[0]), acts[1..]);
    }
  }
}
