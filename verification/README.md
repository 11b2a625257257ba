# EZLockIn study timer — a Dafny model of its cycle engine

EZLockIn is a desktop focus timer. It alternates study rounds of random length with
short breaks, and it takes a long break once enough study time has built up in the
current cycle. It plays an audio cue at each transition, keeps a running total of
focused time, and appends every completed round to a CSV log. All of this lives in
`study_timer_gui.py`. This project models the parts of that file that hold logic:

- `StudyTimerLogic`, the cycle engine (`CycleEngine`, engine.dfy). Its state is an immutable
  `Engine` record: phase, pause flag, counters, the interval in progress, an abstract
  single-shot timer, the log rows and the emitted events. Every command and every
  timer event is a pure function. `random.randint` becomes a `draw` argument in
  `[study_time_min, study_time_max]`. `datetime.now()` becomes a `now` argument. Audio
  cues and Qt signals become events appended to `trace`. Time passes only through
  `Elapse`. The timer fires (`Fire`) only when it is active with 0 ms left.
- Runs of commands and timer events (`CycleProofs`, engine_proofs.dfy). This holds the
  invariant every reachable state keeps, and lemmas about what each step may change.
- `StudyLogger` (`Logger`, logger.dfy). The CSV file is a `seq<Row>` that starts with the
  header. `round(s / 60, 2)` is kept exactly as hundredths of a minute, `(5s + 1) / 3`.
- The configuration (`Config`, config.dfy). This covers `DEFAULT_CONFIG`, the key
  back-fill of `load_or_create_config`, and the typed timings the engine reads.
- The widget's arithmetic (`Display`, display.dfy). This covers the total-time label,
  the minutes/seconds countdown, and which menu actions are enabled. It also holds the
  long-break hint of the context menu (see Findings).
- Concrete runs with 5 s rounds (`CycleScenarios`, scenarios.dfy), including the run on
  which the long-break hint misleads. Decimal rendering of the round number is in
  `Decimal` (decimal.dfy).

Behaviour the model keeps as the code has it:

- `_resume` always plays `start_study`, whatever phase it resumes.
- `reset_all` emits `time_updated(0)` twice.
- Breaks set the timer's `"duration"` property to 0. The break branches of the timeout handler never read it: only a studying timeout credits, and it reads the length `_run_study_cycle` stored there.
- `time_remaining_on_pause` is never cleared after a resume.
- From `stopped`, `start_or_resume` starts a long break only when the threshold is at
  most 0. This is because `current_cycle_study_time` is always 0 there.
- A study timeout leads to a short break even when the threshold has been reached. The
  long break starts when that short break ends.
- There is no epoch counter. A reset calls `timer.stop()`, so no stale timeout can fire
  in this single-threaded model.
- Qt refuses to start a timer with a negative interval. `StartTimer` models this by
  leaving the timer stopped.
- A round's length is drawn only when `_run_study_cycle` runs. The `draw` argument is
  constrained to `[study_time_min, study_time_max]` only on the calls that reach it
  (`TimeoutDraws`, `StartDraws`), so other timeouts and commands work for any settings.

## Model

| member | source | states |
|---|---|---|
| Logger.Format | study_timer_gui.py:103-108 | the `%Y-%m-%d` date text is a prefix of the full `%Y-%m-%d %H:%M:%S` text |
| Logger.RoundedCentiMinutes | study_timer_gui.py:105 | the result is the unique integer nearest to 100·s/60 (so `round(s/60, 2)` in hundredths, with no tie to break) |
| Logger.InitializeStore | study_timer_gui.py:90-97 | an existing log is kept unchanged; a missing one is created holding only the header |
| Logger.LogSession | study_timer_gui.py:99-120 | no row is added when a timestamp is missing or the duration is ≤ 0; otherwise exactly one five-field row is appended, earlier rows are untouched, its date field is a prefix of the start text, its minutes are the rounded duration and its weekday is the start's |
| Config.DefaultKeysListDefaults | study_timer_gui.py:28-42 | the back-fill's key order lists every default key exactly once |
| Config.FillMissing | study_timer_gui.py:59-63 | the loop over a defaults table adds exactly the missing keys with their default values, keeps every user entry, and reports whether it added any |
| Config.BackFill | study_timer_gui.py:59-63 | after the loop every default key is present, user values and extra user keys are unchanged, the result equals the map union with user entries winning, and `updated` holds iff some default key was missing |
| Config.LoadOrCreate | study_timer_gui.py:45-68 | a missing file yields and writes the defaults; a malformed one yields the defaults and writes nothing; a document yields its back-filled version, which is written back iff a default key was missing |
| Config.ReadSettings | study_timer_gui.py:188-261 | the engine's five timing reads succeed exactly when every timing key holds an integer, and then give those integers (see Left out for other JSON numbers) |
| Config.StoredTotal | study_timer_gui.py:144 | `config.get("total_study_time", 0)`: 0 when the key is absent, exactly the stored integer when it is one, and no total when it is not |
| Config.DefaultSettings | study_timer_gui.py:28-42 | the defaults give 180-300 s rounds, 10 s short breaks, a 5400 s threshold and a 1200 s long break, with total 0 |
| Decimal.DecimalDigits | study_timer_gui.py:207 | the round number is rendered as a non-empty string of decimal digits without a leading zero |
| Decimal.DecimalRoundTrip | study_timer_gui.py:207 | reading the rendered round number back gives the number |
| CycleEngine.CueKey | study_timer_gui.py:35-40 | every cue the engine requests is a key of the default sound table |
| CycleEngine.FixedText | study_timer_gui.py:160-286 | the status texts without a round number (idle, short break, long break, paused, long break ended, unknown) never start like a studying text |
| CycleEngine.StatusText | study_timer_gui.py:207 | a text starts with the studying prefix iff its status is a studying status, and then the round number can be read back from the decimal digits before the closing parenthesis |
| CycleEngine.StatusTextInjective | study_timer_gui.py:155-286 | two statuses shown as the same text are the same status, with the same round |
| CycleEngine.StartTimer | study_timer_gui.py:210 | restarting the timer keeps its `"duration"` property and arms it with exactly the requested milliseconds; a negative interval leaves it stopped |
| CycleEngine.ResetCycle | study_timer_gui.py:155-164 | the result is stopped with the timer stopped, not paused, round count 0, no interval in progress and cycle study time 0; the total and the log are unchanged; the idle status and the total are emitted |
| CycleEngine.ResetAll | study_timer_gui.py:166-169 | the same cleared state with the total zeroed and the log unchanged; the zero total is emitted twice |
| CycleEngine.Init | study_timer_gui.py:130-149 | a new engine is in the cleared state and carries the stored total; its log is the existing file's rows, or only the header when there was no file; it has a never-started timer and has emitted the idle status and the total |
| CycleEngine.Launch | study_timer_gui.py:130-149 | for a configuration whose timings and stored total are integers, the engine runs on those timings, starts cleared with the prepared log, and starts from the stored total, or 0 when none is stored; for any other configuration the model builds no engine (see Left out) |
| CycleEngine.DefaultLaunch | study_timer_gui.py:28-42 | the default configuration with no log file gives the default timings and a new engine with total 0 |
| CycleEngine.LoadPersistentTime | study_timer_gui.py:212-214 | only the total changes, to the given value, and it is emitted |
| CycleEngine.Stop | study_timer_gui.py:288-290 | only the timer changes, and it is stopped |
| CycleEngine.RunStudyCycle | study_timer_gui.py:199-210 | a round starts with the count raised by one and a length in `[study_time_min, study_time_max]`, recorded both as the session length and as the timer's `"duration"`; the timer runs 1000× that length; the totals and the log are unchanged |
| CycleEngine.RunShortBreakCycle | study_timer_gui.py:250-257 | a short break starts with `"duration"` 0 and a timer of 1000× the break length; nothing else changes except the emitted status, total and cue |
| CycleEngine.RunLongBreakCycle | study_timer_gui.py:259-267 | a long break starts with `"duration"` 0 and the cycle study time zeroed; nothing else changes except the emitted status, total and cue |
| CycleEngine.LogCompleted | study_timer_gui.py:173-180 | a studying timeout writes one row recording the interval exactly when a session start exists and its length is positive, keeping the earlier rows; otherwise the log is unchanged |
| CycleEngine.OnTimerTimeout | study_timer_gui.py:171-197 | a studying timeout credits the timer's `"duration"` to both totals and ends the interval; a short-break timeout credits nothing and leads to a long break iff the cycle time reached the threshold, otherwise to a round; a long-break timeout only finishes the cycle; other phases are untouched; only a studying timeout touches the log |
| CycleEngine.Elapse | study_timer_gui.py:137-139 | time passing only lowers the remaining milliseconds of an active timer and changes nothing else |
| CycleEngine.Fire | study_timer_gui.py:138-139 | when the single-shot timer fires it is stopped before the timeout handler runs, so a finished long break has no timer |
| CycleEngine.Pause | study_timer_gui.py:269-274 | pausing acts only on an active timer; it keeps the phase and the `"duration"`, snapshots the remaining ms, stops the timer and sets the pause flag |
| CycleEngine.Resume | study_timer_gui.py:276-286 | resuming acts only when paused; it restarts the timer with exactly the snapshot, clears the flag, plays `start_study` and re-emits the phase's status |
| CycleEngine.ResumedStatus | study_timer_gui.py:281-285 | the re-emitted status is "Unknown" exactly outside the timed phases, and a studying status exactly while studying |
| CycleEngine.StartOrResume | study_timer_gui.py:238-248 | a paused engine resumes; a running, unpaused one is left exactly as it is; from stopped or a finished long break a round or a long break starts; the log is never touched |
| CycleProofs.InitInv | study_timer_gui.py:130-149 | a new engine satisfies the reachable-state invariant |
| CycleProofs.StepInv | study_timer_gui.py:151-286 | every command and timer event keeps the invariant: a session start exists iff studying, the timer's `"duration"` is the drawn length while studying, a pause implies a stopped timer in a timed phase, a round whose timer was armed has a non-negative length, and the cycle time is 0 in stopped and long-break phases |
| CycleProofs.ExecuteInv | study_timer_gui.py:151-286 | every run of actions from a consistent state ends in a consistent state |
| CycleProofs.ReachableInv | study_timer_gui.py:130-286 | every state reachable from a new engine satisfies the invariant |
| CycleProofs.StudyTimeoutCredits | study_timer_gui.py:172-185 | a studying timeout credits exactly the drawn length, a value in `[study_time_min, study_time_max]`, to both totals, logs the interval, clears the session and starts a short break |
| CycleProofs.BreakTimeoutCreditsNothing | study_timer_gui.py:187-197 | short- and long-break timeouts leave the total and the log unchanged |
| CycleProofs.ShortBreakTimeoutBranches | study_timer_gui.py:187-191 | after a short break the next phase is the long break iff the cycle time is at least the threshold, and a round otherwise; the long break zeroes the cycle time, the round keeps it and raises the count |
| CycleProofs.LongBreakTimeoutFinishes | study_timer_gui.py:193-197 | a long-break timeout finishes the cycle with no timer and emits the end cue, the status and the notification |
| CycleProofs.EnteringLongBreakNeedsThreshold | study_timer_gui.py:188-189 | any step that enters the long break starts from a cycle time at least the threshold and zeroes it |
| CycleProofs.EnteringStudyKeepsCycleTime | study_timer_gui.py:199-205 | entering a round keeps the cycle time, and entering a short break from a round adds exactly the round's length |
| CycleProofs.CycleCountStep | study_timer_gui.py:199-200 | the round count rises by exactly one when a round starts, is cleared by resets and by a new cycle, and is otherwise unchanged |
| CycleProofs.TotalStep | study_timer_gui.py:182-183 | the total changes only on a studying timeout (by the round's length), `reset_all` (to 0) and `load_persistent_time` |
| CycleProofs.LogStep | study_timer_gui.py:172-180 | only a studying timeout writes to the log, and it appends exactly one row recording that interval when its length is positive |
| CycleProofs.PauseResumeRoundTrip | study_timer_gui.py:269-286 | resuming right after pausing restores the very same timer, and nothing but the snapshot and the events differs |
| CycleProofs.ResumeRepeatsEntryStatus | study_timer_gui.py:276-286 | the status `_resume` re-emits is the very status the round, the short break or the long break emitted when it started, and a pause does not change it |
| CycleProofs.PauseKeepsCredit | study_timer_gui.py:276-279 | a paused and resumed round keeps its drawn length as the timer's `"duration"`, so it credits the same amount |
| CycleProofs.StartLongBranchNeedsNonPositiveThreshold | study_timer_gui.py:241-248 | from stopped or a finished long break, `start_or_resume` starts the long break iff the threshold is ≤ 0, and a round iff it is > 0 |
| CycleProofs.ResetDiscardsInterval | study_timer_gui.py:155-169 | a round cut short by either reset leaves no row and no credit behind |
| CycleProofs.ResetAllIsResetCycleOfZeroTotal | study_timer_gui.py:166-169 | `reset_all` is `reset_cycle` of the same engine with its total zeroed, and `reset_cycle` is idempotent apart from events |
| CycleProofs.ExecuteLogAppendOnly | study_timer_gui.py:115-118 | every run keeps the log rows it started with as a prefix |
| CycleProofs.NoExpiryNoLog | study_timer_gui.py:171-180 | a run in which the timer never fires adds no row, and leaves the total alone unless it is reset or reloaded |
| CycleProofs.ExecuteTotalMonotone | study_timer_gui.py:182-183 | for any settings the total never decreases unless it is reset or reloaded: a round with a negative length never arms its timer, so it never credits |
| CycleScenarios.RoundCompletes | study_timer_gui.py:171-185 | a running 5 s round completes with one row, 5 s credited and a 2 s short break |
| CycleScenarios.ShortBreakThenRound | study_timer_gui.py:187-191 | a short break below the threshold is followed by a new 5 s round |
| CycleScenarios.ShortBreakThenLongBreak | study_timer_gui.py:187-189 | a short break at the threshold is followed by the 3 s long break with the cycle time zeroed |
| CycleScenarios.LongBreakEnds | study_timer_gui.py:193-197 | the long break runs out and the cycle is finished |
| CycleScenarios.FirstRoundScenario | study_timer_gui.py:238-257 | with 5 s rounds, 2 s breaks and an 8 s threshold: the first round and its short break lead into round 2 with 5 s credited and one row logged |
| CycleScenarios.FullCycleScenario | study_timer_gui.py:238-267 | in the same settings, two rounds, two short breaks and a long break end the cycle with 10 s credited, the cycle time 0 and two rows logged |
| CycleScenarios.DemoRowText | study_timer_gui.py:103-113 | a 5 s round started Monday 2024-05-06 09:00:00 is logged as that text, its end text, 0.08 minutes, the date and "Monday" |
| CycleScenarios.PauseScenario | study_timer_gui.py:269-286 | paused 2 s into a 5 s round, the snapshot is 3000 ms, the resumed timer has 3000 ms left, and the row is written only when those pass |
| CycleScenarios.ZeroDurationNotLogged | study_timer_gui.py:100-101 | a zero-length interval leaves the log with only its header |
| Display.TotalFocus | study_timer_gui.py:553 | the label's hours and minutes are the whole hours and the leftover whole minutes (0-59) of the total seconds |
| Display.MinutesSeconds | study_timer_gui.py:407 | the countdown's minutes and seconds (0-59) are the whole seconds left on the timer |
| Display.StartEnabled | study_timer_gui.py:434-440 | in every reachable state a disabled "Start / Resume" would be a no-op, and an enabled one changes the engine unless a timed phase sits with its timer stopped (Qt refused a negative interval, or the quit-time `stop()` ran) |
| Display.PauseEnabled | study_timer_gui.py:434-445 | in every reachable state "Pause" is offered exactly when pausing changes the engine |
| Display.HintFrom | study_timer_gui.py:413-426 | no hint when stopped; otherwise "available" iff the study figure reached the threshold, and else the floor in minutes of what is left to study once the running round's remaining seconds count as done, never negative when no round is running |
| Display.LongBreakHintAsWritten | study_timer_gui.py:413-426 | no hint when stopped; otherwise "available" iff the all-time total reached the threshold |
| Display.LongBreakHintCorrected | study_timer_gui.py:413-426 | the hint is absent iff stopped, and says a long break is available iff the cycle time reached the threshold |
| Display.CorrectedHintPredictsLongBreak | study_timer_gui.py:413-426 | during a short break the corrected hint says "available" iff the long break comes next |
| CycleScenarios.HintAsWrittenMisleads | study_timer_gui.py:413-426 | from a finished cycle with at least 10 s in total, one more 5 s round ends in a short break in which the hint as written says "Long Break Available", the corrected hint shows 0 minutes to go, and the break is followed by a round |
| CycleScenarios.MisleadingHintReachable | study_timer_gui.py:413-426 | some state reachable from a new engine shows "Long Break Available" as written while the next phase is a round |

## Findings

| source | as written | input that shows it | evidently intended | confidence | as-written member | corrected member |
|---|---|---|---|---|---|---|
| study_timer_gui.py:415-417 | the context menu's long-break hint compares `total_study_time`, the all-time total, with `long_break_threshold` | 5 s rounds, 2 s breaks, 8 s threshold: after one full cycle and one more round the total is 15 s and the menu says "Long Break Available", but the cycle holds 5 s and the next phase is a round | compare `current_cycle_study_time`, the figure the engine tests at line 188 and zeroes at each long break | medium; not executed | Display.LongBreakHintAsWritten, CycleScenarios.HintAsWrittenMisleads | Display.LongBreakHintCorrected |

## Left out

- The widget, tray icon, menu construction, dragging, opacity, always-on-top, `QSettings` geometry and the stylesheets are UI glue. Only their arithmetic and enablement rules are modelled.
- Audio playback (`pygame.mixer`) and `_validate_and_get_sound_paths` are foreign calls and file probes. A cue is recorded as a `PlayCue` event. The startup failure for a missing folder or file is not modelled. Neither is `_play_sound` skipping a key missing from the sound table.
- File I/O is left out: JSON and CSV reading and writing, `resource_path`, `open_log_folder`, and I/O errors while reading the config. The config file is represented by what reading it yields. The log is a row sequence. The text form of the minutes column (a Python float) is not modelled.
- `datetime.now()` and `strftime` are replaced by `Timestamp` values that carry their formatted date, clock text and weekday.
- Wall-clock timing and the Qt event loop are not modelled. Time passes only by `Elapse`, and a timeout is delivered exactly when the remaining time reaches 0.
- `closeEvent` (clearing the session and saving the total on quit) and the second `reset_cycle` call in the widget's constructor belong to the GUI and are not modelled.
- With `study_time_min > study_time_max`, `random.randint` raises whenever a round is drawn. The model has no result for those calls: a command or timeout that would draw needs a `draw` in the range. Calls that do not draw, such as long breaks cycling under a threshold of at most 0, work as in the code. Timer intervals above 2³¹−1 ms are not modelled (PyQt raises on them).
- Config.ReadSettings: JSON numbers with a fraction, booleans and null have no `Value`, so a configuration holding one as a timing yields no settings. The code reads such values as they are. A float `long_break_threshold` (say 5400.0) works without error in the comparisons at lines 188 and 245 and in the hint arithmetic of lines 417-424, so the code runs whole cycles on it, while the model builds no engine.
- CycleEngine.Launch: the code builds the engine whatever the timing values are, and the model builds none unless every timing and the stored total are integers. In the code a string timing fails only when it is first used: the comparison at line 188 or 245, `randint` at line 202, or `timer.start` at line 210, 257 or 267. Until then rounds and short breaks run, log and credit as usual. A stored total that is not an integer is likewise given no engine.
- Config.LoadOrCreate: a JSON document that is not an object is treated as malformed (defaults returned, nothing written). The code does the same through its `TypeError` handler, except for a JSON array that already lists every default key, or a JSON string that contains every default key as a substring. The code returns either of those unchanged.
- The state names carried by `state_changed` ("stopped", "studying", …) are represented by the `Phase` constructors rather than by strings. The countdown line of the context menu is modelled only through its arithmetic (`Display.MinutesSeconds`).
- `_initialize_file` failing to create the log is not modelled. If that happens, a later append would create the file without a header.
