/**
 Concrete runs of the cycle engine with small timings. Each run is put together
 from segments (a round, a break), proved once for any engine in the right state.
 */
module CycleScenarios {
  import opened Wrappers
  import opened Logger
  import opened Config
  import opened CycleEngine
  import opened CycleProofs
  import opened Display

  /** Running two segments one after the other is running their concatenation. */
  lemma {:induction false} ExecuteAppend(s: Settings, e: Engine, a: seq<Action>, b: seq<Action>)
    ensures Execute(s, e, a + b) ==
              if Execute(s, e, a).Some? then Execute(s, Execute(s, e, a).value, b) else None
    decreases |a|
  {
    if |a| > 0 {
      assert (a + b)[0] == a[0] && (a + b)[1..] == a[1..] + b;
      if Enabled(s, e, a[0]) {
        ExecuteAppend(s, Step(s, e, a[0]), a[1..], b);
      }
    } else {
      assert a + b == b;
    }
  }

  /** A two-action run takes both actions when each is enabled in turn. */
  lemma ExecuteTwo(s: Settings, e: Engine, a: Action, b: Action)
    requires Enabled(s, e, a) && Enabled(s, Step(s, e, a), b)
    ensures Execute(s, e, [a, b]) == Some(Step(s, Step(s, e, a), b))
  {
    var e1 := Step(s, e, a);
    var e2 := Step(s, e1, b);
    assert [a, b][0] == a && [a, b][1..] == [b] && [b][0] == b && [b][1..] == [];
    assert Execute(s, e2, []) == Some(e2);
    assert Execute(s, e1, [b]) == Execute(s, e2, []);
    assert Execute(s, e, [a, b]) == Execute(s, e1, [b]);
  }

  /** Rounds of exactly 5 s, 2 s short breaks, a long break of 3 s once 8 s were studied. */
  const Demo: Settings := Settings(5, 5, 2, 8, 3)

  const T0: Timestamp := Timestamp("2024-05-06", "09:00:00", Monday)
  const T1: Timestamp := Timestamp("2024-05-06", "09:00:05", Monday)
  const T2: Timestamp := Timestamp("2024-05-06", "09:00:12", Monday)
  const T3: Timestamp := Timestamp("2024-05-06", "09:00:17", Monday)
  const T4: Timestamp := Timestamp("2024-05-06", "09:00:19", Monday)
  const T5: Timestamp := Timestamp("2024-05-06", "09:00:22", Monday)

  /** A running 5 s round with `ms` left completes: one row, 5 s credited, and a 2 s short break begins. */
  lemma RoundCompletes(e: Engine, ms: int, now: Timestamp)
    requires e.phase == Studying && !e.isPaused && e.timer == Timer(true, ms, 5) && ms >= 0
    requires e.sessionStart.Some? && e.sessionDuration == 5
    ensures var r := Execute(Demo, e, [Tick(ms), Expire(5, now)]);
      && r.Some? && r.value.phase == ShortBreaking && !r.value.isPaused
      && r.value.timer == Timer(true, 2000, 0)
      && r.value.totalStudyTime == e.totalStudyTime + 5
      && r.value.cycleStudyTime == e.cycleStudyTime + 5
      && r.value.cycleCount == e.cycleCount
      && r.value.log == e.log + [SessionRow(e.sessionStart.value, now, 5)]
  {
    ExecuteTwo(Demo, e, Tick(ms), Expire(5, now));
  }

  /** A short break taken below the threshold is followed by a new 5 s round. */
  lemma ShortBreakThenRound(e: Engine, now: Timestamp)
    requires e.phase == ShortBreaking && !e.isPaused && e.timer == Timer(true, 2000, 0)
    requires e.cycleStudyTime < 8
    ensures var r := Execute(Demo, e, [Tick(2000), Expire(5, now)]);
      && r.Some? && r.value.phase == Studying && !r.value.isPaused
      && r.value.timer == Timer(true, 5000, 5)
      && r.value.sessionStart == Some(now) && r.value.sessionDuration == 5
      && r.value.cycleCount == e.cycleCount + 1
      && r.value.totalStudyTime == e.totalStudyTime
      && r.value.cycleStudyTime == e.cycleStudyTime
      && r.value.log == e.log
  {
    ExecuteTwo(Demo, e, Tick(2000), Expire(5, now));
  }

  /** A short break taken at the threshold is followed by the 3 s long break. */
  lemma ShortBreakThenLongBreak(e: Engine, now: Timestamp)
    requires e.phase == ShortBreaking && !e.isPaused && e.timer == Timer(true, 2000, 0)
    requires e.cycleStudyTime >= 8
    ensures var r := Execute(Demo, e, [Tick(2000), Expire(5, now)]);
      && r.Some? && r.value.phase == LongBreaking && !r.value.isPaused
      && r.value.timer == Timer(true, 3000, 0)
      && r.value.cycleStudyTime == 0
      && r.value.totalStudyTime == e.totalStudyTime
      && r.value.log == e.log
  {
    ExecuteTwo(Demo, e, Tick(2000), Expire(5, now));
  }

  /** The long break runs out and the cycle is finished. */
  lemma LongBreakEnds(e: Engine, now: Timestamp)
    requires e.phase == LongBreaking && !e.isPaused && e.timer == Timer(true, 3000, 0)
    ensures var r := Execute(Demo, e, [Tick(3000), Expire(5, now)]);
      && r.Some? && r.value.phase == LongBreakFinished && !r.value.timer.active
      && r.value.totalStudyTime == e.totalStudyTime
      && r.value.cycleStudyTime == e.cycleStudyTime
      && r.value.log == e.log
  {
    ExecuteTwo(Demo, e, Tick(3000), Expire(5, now));
  }

  /** The first round and its short break lead into the second round. */
  lemma FirstRoundScenario(storedTotal: int, existing: Option<seq<Row>>)
    ensures var r := Execute(Demo, Init(storedTotal, existing),
                             [StartCmd(5, T0)] + [Tick(5000), Expire(5, T1)] + [Tick(2000), Expire(5, T2)]);
      && r.Some? && r.value.phase == Studying && !r.value.isPaused
      && r.value.timer == Timer(true, 5000, 5)
      && r.value.sessionStart == Some(T2) && r.value.sessionDuration == 5
      && r.value.totalStudyTime == storedTotal + 5
      && r.value.cycleStudyTime == 5
      && r.value.log == InitializeStore(existing) + [SessionRow(T0, T1, 5)]
  {
    var e0 := Init(storedTotal, existing);
    var a0, a1, a2 := [StartCmd(5, T0)], [Tick(5000), Expire(5, T1)], [Tick(2000), Expire(5, T2)];
    var e1 := Step(Demo, e0, StartCmd(5, T0));
    assert Execute(Demo, e0, a0) == Some(e1);
    RoundCompletes(e1, 5000, T1);
    var e2 := Execute(Demo, e1, a1).value;
    ShortBreakThenRound(e2, T2);
    ExecuteAppend(Demo, e0, a0, a1);
    ExecuteAppend(Demo, e0, a0 + a1, a2);
  }

  /**
   Two rounds, each followed by a short break; the second brings the cycle to 10 s,
   so its break leads into the long break, which then finishes. Two rows are logged
   and 10 s are credited.
   */
  lemma FullCycleScenario(storedTotal: int, existing: Option<seq<Row>>)
    ensures var r := Execute(Demo, Init(storedTotal, existing),
                             [StartCmd(5, T0)] + [Tick(5000), Expire(5, T1)] + [Tick(2000), Expire(5, T2)]
                             + [Tick(5000), Expire(5, T3)] + [Tick(2000), Expire(5, T4)]
                             + [Tick(3000), Expire(5, T5)]);
      && r.Some?
      && r.value.phase == LongBreakFinished
      && r.value.totalStudyTime == storedTotal + 10
      && r.value.cycleStudyTime == 0
      && r.value.log == InitializeStore(existing) + [SessionRow(T0, T1, 5), SessionRow(T2, T3, 5)]
  {
    var e0 := Init(storedTotal, existing);
    var first := [StartCmd(5, T0)] + [Tick(5000), Expire(5, T1)] + [Tick(2000), Expire(5, T2)];
    var a3, a4, a5 := [Tick(5000), Expire(5, T3)], [Tick(2000), Expire(5, T4)], [Tick(3000), Expire(5, T5)];
    FirstRoundScenario(storedTotal, existing);
    var e3 := Execute(Demo, e0, first).value;
    RoundCompletes(e3, 5000, T3);
    var e4 := Execute(Demo, e3, a3).value;
    ShortBreakThenLongBreak(e4, T4);
    var e5 := Execute(Demo, e4, a4).value;
    LongBreakEnds(e5, T5);
    ExecuteAppend(Demo, e0, first, a3);
    ExecuteAppend(Demo, e0, first + a3, a4);
    ExecuteAppend(Demo, e0, first + a3 + a4, a5);
  }

  /** Each 5 s round is logged as 0.08 minutes, with its date and weekday. */
  lemma DemoRowText()
    ensures SessionRow(T0, T1, 5) == Row([Text("2024-05-06 09:00:00"), Text("2024-05-06 09:00:05"),
                                          CentiMinutes(8), Text("2024-05-06"), Text("Monday")])
  {
    assert Format(T0) == "2024-05-06 09:00:00" && Format(T1) == "2024-05-06 09:00:05";
    assert RoundedCentiMinutes(5) == 8;
  }

  /** Paused 2 s into a 5 s round, the engine resumes with 3 s left and logs only when those pass. */
  lemma PauseScenario()
    ensures var e0 := Init(0, None);
      var p := Execute(Demo, e0, [StartCmd(5, T0), Tick(2000), PauseCmd]);
      var q := Execute(Demo, e0, [StartCmd(5, T0), Tick(2000), PauseCmd] + [StartCmd(5, T1)]);
      var r := Execute(Demo, e0, [StartCmd(5, T0), Tick(2000), PauseCmd] + [StartCmd(5, T1)]
                                 + [Tick(3000), Expire(5, T2)]);
      && p.Some? && p.value.isPaused && p.value.remainingOnPause == 3000 && p.value.log == [HeaderRow]
      && q.Some? && q.value.timer == Timer(true, 3000, 5) && q.value.log == [HeaderRow]
      && r.Some? && r.value.phase == ShortBreaking && r.value.totalStudyTime == 5
      && r.value.log == [HeaderRow, SessionRow(T0, T2, 5)]
  {
    var e0 := Init(0, None);
    var a0, a1, a2 := [StartCmd(5, T0), Tick(2000), PauseCmd], [StartCmd(5, T1)], [Tick(3000), Expire(5, T2)];
    var e1 := Step(Demo, e0, a0[0]);
    var e2 := Step(Demo, e1, a0[1]);
    var e3 := Step(Demo, e2, a0[2]);
    assert e3.isPaused && e3.remainingOnPause == 3000;
    assert Execute(Demo, e2, a0[2..]) == Some(e3);
    assert Execute(Demo, e1, a0[1..]) == Some(e3);
    assert Execute(Demo, e0, a0) == Some(e3);
    var e4 := Step(Demo, e3, a1[0]);
    assert Execute(Demo, e3, a1) == Some(e4);
    assert e4.timer == Timer(true, 3000, 5) && e4.sessionDuration == 5 && e4.sessionStart == Some(T0);
    RoundCompletes(e4, 3000, T2);
    ExecuteAppend(Demo, e0, a0, a1);
    ExecuteAppend(Demo, e0, a0 + a1, a2);
  }

  /** A zero-length interval is not logged: the store keeps only its header. */
  lemma ZeroDurationNotLogged()
    ensures LogSession([HeaderRow], Some(T0), Some(T1), 0) == [HeaderRow]
  {
  }

  const T6: Timestamp := Timestamp("2024-05-06", "09:01:00", Monday)
  const T7: Timestamp := Timestamp("2024-05-06", "09:01:05", Monday)

  /**
   From a finished cycle with at least 10 s in total, one more round ends in a short
   break in which the written hint announces a long break while the corrected one
   shows minutes to go; when the break ends the engine starts a round.
   */
  lemma HintAsWrittenMisleads(e: Engine)
    requires Inv(Demo, e) && e.phase == LongBreakFinished && !e.isPaused && e.totalStudyTime >= 10
    ensures var r := Execute(Demo, e, [StartCmd(5, T6)] + [Tick(5000), Expire(5, T7)]);
      && r.Some? && r.value.phase == ShortBreaking && r.value.timer == Timer(true, 2000, 0)
      && LongBreakHintAsWritten(Demo, r.value) == LongBreakAvailable
      && LongBreakHintCorrected(Demo, r.value) == MinutesToLongBreak(0)
      && Fire(Demo, Elapse(r.value, 2000), 5, T7).phase == Studying
  {
    var e1 := Step(Demo, e, StartCmd(5, T6));
    assert Execute(Demo, e, [StartCmd(5, T6)]) == Some(e1);
    RoundCompletes(e1, 5000, T7);
    ExecuteAppend(Demo, e, [StartCmd(5, T6)], [Tick(5000), Expire(5, T7)]);
    var r := Execute(Demo, e1, [Tick(5000), Expire(5, T7)]).value;
    HintsInShortBreak(r);
  }

  lemma HintsInShortBreak(e: Engine)
    requires e.phase == ShortBreaking && e.timer == Timer(true, 2000, 0)
    requires e.cycleStudyTime == 5 && e.totalStudyTime >= 15
    ensures LongBreakHintAsWritten(Demo, e) == LongBreakAvailable
    ensures LongBreakHintCorrected(Demo, e) == MinutesToLongBreak(0)
    ensures Fire(Demo, Elapse(e, 2000), 5, T7).phase == Studying
  {
  }

  /** A new engine reaches a state in which the written hint misleads: the full cycle, then one round. */
  lemma MisleadingHintReachable()
    ensures exists e :: (&& Reachable(Demo, e)
                         && e.phase == ShortBreaking && e.timer == Timer(true, 2000, 0)
                         && LongBreakHintAsWritten(Demo, e) == LongBreakAvailable
                         && LongBreakHintCorrected(Demo, e) == MinutesToLongBreak(0)
                         && Fire(Demo, Elapse(e, 2000), 5, T7).phase == Studying)
  {
    var e0 := Init(0, None);
    var first := [StartCmd(5, T0)] + [Tick(5000), Expire(5, T1)] + [Tick(2000), Expire(5, T2)]
                 + [Tick(5000), Expire(5, T3)] + [Tick(2000), Expire(5, T4)] + [Tick(3000), Expire(5, T5)];
    var second := [StartCmd(5, T6)] + [Tick(5000), Expire(5, T7)];
    FullCycleScenario(0, None);
    InitInv(Demo, 0, None);
    ExecuteInv(Demo, e0, first);
    var e1 := Execute(Demo, e0, first).value;
    HintAsWrittenMisleads(e1);
    ExecuteAppend(Demo, e0, first, second);
    var r := Execute(Demo, e1, second).value;
    assert Execute(Demo, Init(0, None), first + second) == Some(r);
    assert Reachable(Demo, r);
  }
}
