# zero-latency latency-test session in Dafny

This project models the measuring core of `run-tests.py` from the zero-latency project. The
program fires a weapon in a game by writing USB HID boot-protocol reports to a keyboard gadget
(8-byte reports) and a mouse gadget (6-byte reports). A photo-sensor then reports whether the
screen lit up, and the program classifies how long that took.

Modules, one per component of the script:

- `Wrappers` (`wrappers.dfy`): `Option` and `Result`.
- `Hid` (`hid.dfy`): report bytes, the keyboard usage IDs, and the trace of device writes.
  The `Actuator` class holds that trace; `send_keyboard_command`, `send_mouse_command`,
  `press_key`, `fire_weapon`, `select_weapon`, `reload_weapon` and `prep_cycle` are its methods.
  Each method is proved to append a trace given by a function. The trace functions are proved
  to be press/release pulses that leave every device released, and to be empty in mock mode.
- `Classifier` (`classifier.dfy`): the Valid / TooSlow / TooFast rule.
- `LogFile` (`logfile.dfy`): `get_unique_log_filename`. Whether the file exists and the
  formatted timestamp are parameters.
- `SessionModel` (`session_model.dfy`): the session as values. `Step` is one loop iteration.
  `Run` is the loop. `FinalReport` is the report decision. `Inv` is the loop invariant, and the
  lemmas about them are here too.
- `SessionRunner` (`session_runner.dfy`): `run_latency_tests` as imperative code. The `Session`
  class has the nine counters and the CSV rows as fields. `Attempt` is the loop body, `RunLoop`
  is the `while` loop, and `RunLatencyTests` is the whole function. Each is proved equal to the
  functions of `SessionModel`.

Hardware and clock readings become inputs. Each attempt's sensor result is an `Obs`:
`PreTriggered` (light already on), `Timeout` (nothing within 3 s), or `Triggered(latencyMs)`.
Latencies are `real`. The model says nothing about where the observations come from.
`RunLatencyTests` takes a sequence of at least `5 * tests` observations. `RunTerminates` proves
that this many always reaches the loop's own exit: at most four errors come before each success.

Behaviour of the loop that the model keeps as the code has it:

- A calibration fault `continue`s at line 138, so it skips the reload check at line 174.
- A timeout `continue`s at line 153. It has already used a shot (line 143) and it also skips
  the reload check at line 174. So the magazine is refilled only after a classified attempt,
  and `shots_available` can fall below 1 and even below 0 (`TimeoutsDrainShotsBelowZero`).
- The thresholds are not checked against each other. With `tooFast > tooSlow`, no latency is
  Valid, and the TooSlow test wins.
- `press_key` and `fire_weapon` read the global `args.mock`, not their `mock` parameter. Every
  caller passes `args.mock`, so the model has one flag, `Actuator.mock`.

## Model

| member | source | states |
|---|---|---|
| Hid.KeyUsage | run-tests.py:47-53 | only '1','2','3','r' have a non-zero usage ID; each agrees with the USB HID Usage Tables keyboard page (digits 0x1e.., letters 0x04..) |
| Hid.KeyReport | run-tests.py:47-53 | 8 bytes, the usage ID at index 2, zero elsewhere; a key outside the table gives the all-zero report |
| Hid.SlotKey | run-tests.py:71 | the character `str(slot)` for slot 1..3 has usage ID 0x1d + slot (0x1e, 0x1f, 0x20) |
| Hid.PressWrites | run-tests.py:46-57 | a key press writes nothing in mock mode, otherwise the key report followed by its release on the keyboard |
| Hid.ClickWrites | run-tests.py:60-67 | a click writes nothing in mock mode, otherwise `10 01 00 01 00 00` followed by six zero bytes on the mouse |
| Hid.Clicks | run-tests.py:101-103 | n clicks are 2n pulsed writes whose even entries are the left-button press (none in mock mode) |
| Hid.PrepWrites | run-tests.py:94-107 | the prep_cycle trace is a press/release trace of 10 writes, or empty in mock mode |
| Hid.PrepWritesOrder | run-tests.py:94-107 | prep_cycle writes select(weapon), three clicks, then reload, in that order, as pulses; nothing in mock mode |
| Hid.PulsesAppend | run-tests.py:31-38 | concatenating press/release traces gives a press/release trace |
| Hid.PulsesLeaveReleased | run-tests.py:31-38 | after a press/release trace, the last report each device received is its all-zero release |
| Hid.Actuator.SendKeyboardCommand | run-tests.py:31-38 | appends the report and the 8-byte release unless mock |
| Hid.Actuator.SendMouseCommand | run-tests.py:40-43 | appends one mouse report unless mock |
| Hid.Actuator.PressKey | run-tests.py:46-57 | appends exactly PressWrites(key, mock) |
| Hid.Actuator.FireWeapon | run-tests.py:60-67 | appends exactly ClickWrites(mock) |
| Hid.Actuator.SelectWeapon | run-tests.py:70-72 | appends the key press for the slot's digit |
| Hid.Actuator.ReloadWeapon | run-tests.py:74-76 | appends the key press for 'r' |
| Hid.Actuator.PrepCycle | run-tests.py:94-107 | appends exactly PrepWrites (select, three clicks in a loop, reload) |
| Classifier.Classify | run-tests.py:159-172 | Valid iff tooFast <= v <= tooSlow (both bounds inclusive); TooSlow iff v > tooSlow; TooFast iff v < tooFast and v <= tooSlow |
| LogFile.UniqueLogFilename | run-tests.py:85-91 | None or "" unchanged; otherwise the result is non-empty, ends in ".csv" and has the name as prefix; an existing name gets "_" + timestamp + ".csv"; a new name gets ".csv" only if it lacks it |
| LogFile.LogFilenameIdempotent | run-tests.py:85-91 | resolving a resolved name that does not exist returns it unchanged |
| SessionModel.LoopEntry | run-tests.py:115-126 | after the prep cycle: the consecutive-error and outcome counters 0, total latency 0, no CSV rows, shots = mag size, the prep trace written; the loop is entered iff tests > 0 |
| SessionModel.RecordEffect | run-tests.py:158-172 | recording a latency counts exactly one outcome, succeeds iff tooFast <= latency <= tooSlow, resets the error run on success and lengthens it otherwise, adds the latency to the total only on success, and leaves attempts, shots and writes alone |
| SessionModel.ReloadEffect | run-tests.py:174-177 | the reload check refills the magazine and appends the 'r' press iff one shot or fewer is left, and changes nothing else |
| SessionModel.Step | run-tests.py:130-177 | one attempt: total_tests_attempted +1; exactly the counter of its outcome (calibration, timeout, success, too fast, too slow) +1; consecutive errors reset on Valid and +1 otherwise; only Valid latencies accumulated and logged; no shot on calibration fault; a timeout uses a shot and never reloads; a classified attempt reloads (writes the 'r' press, shots := mag size) iff it leaves <= 1 shot |
| SessionModel.Run | run-tests.py:129-179 | the loop only adds attempts (at most one per observation) and successes, only extends the write trace and the log, and does nothing once its condition fails |
| SessionModel.LoopEntryInv | run-tests.py:115-126 | the invariant holds at loop entry (all counters 0, shots = mag size, prep trace written) |
| SessionModel.StepCounterInv | run-tests.py:129-172 | an iteration keeps: attempts = sum of the five outcome counters, consecutive errors <= 5, successes <= target (or no successes, which covers a target <= 0), attempts <= 5 * successes + consecutive errors |
| SessionModel.StepTotalInv | run-tests.py:159-164 | an iteration keeps total_latency between tooFast and tooSlow times successful_tests |
| SessionModel.StepLogInv | run-tests.py:78-82 | with a log file, the log has one row per success whose sum is total_latency, all within the thresholds; without one it stays empty |
| SessionModel.StepTraceInv | run-tests.py:140-177 | an iteration keeps the write trace a press/release trace and empty in mock mode |
| SessionModel.StepPreservesInv | run-tests.py:129-177 | a loop iteration preserves the whole invariant |
| SessionModel.RunPreservesInv | run-tests.py:129-179 | the loop preserves the invariant |
| SessionModel.RunTerminates | run-tests.py:129 | with `5 * tests` observations in all, the loop condition is false when Run stops |
| SessionModel.SessionEnds | run-tests.py:129-179 | at exit: the target is reached or there were exactly 5 consecutive errors; successes never exceed the target when tests >= 0; with tests >= 1, 1 <= attempts <= 5 * tests |
| SessionModel.AverageLatency | run-tests.py:182 | 0 when nothing succeeded, otherwise average * successful_tests = total_latency |
| SessionModel.AverageWithinThresholds | run-tests.py:162-182 | when something succeeded, the average lies in [tooFast, tooSlow] |
| SessionModel.PercentAsWritten | run-tests.py:188-191 | fails (ZeroDivisionError) iff there were no attempts; otherwise percentage * attempts = count * 100 |
| SessionModel.Percent | run-tests.py:188-191 | equals the source's percentage whenever there was an attempt, 0 otherwise |
| SessionModel.FinalReport | run-tests.py:182-195 | Completed iff successful_tests >= tests; Stopped iff not and consecutive_errors >= 5; the summary carries successful_tests, total_tests_attempted, the four error counts, their percentages of the attempts (0 with no attempts) and the average; agrees with the source's computation whenever an attempt was made |
| SessionModel.ReportAsWritten | run-tests.py:185-195 | the report as the source computes it: fails iff the summary is chosen with no attempts; otherwise Completed iff successful_tests >= tests, Stopped iff not and consecutive_errors >= 5 |
| SessionModel.ZeroTargetCrashes | run-tests.py:129-188 | with tests <= 0 the loop never runs and the source's report raises ZeroDivisionError |
| SessionModel.SessionReport | run-tests.py:185-195 | a finished session reports Completed or Stopped, never neither; Stopped means 5 consecutive errors; Completed means exactly `tests` successes when tests >= 0; with tests >= 1 the source's percentages are defined; the reported average is within the thresholds |
| SessionModel.ClassifiedAttemptLeavesShots | run-tests.py:174-177 | after a classified attempt, at least 2 shots remain or the magazine was just refilled |
| SessionModel.ScenarioMixedRun | run-tests.py:129-177 | latencies 50, 1500, 10, 50 against [20, 1000] with target 2 and magazine 10 end in exactly one state: 6 shots, 2 successes, 4 attempts, one discard each way, total 100 |
| SessionModel.ScenarioMixedOutcomes | run-tests.py:159-182 | latencies 50, 1500, 10, 50 against [20, 1000] with target 2: Completed after 4 attempts, 2 valid, 1 too slow, 1 too fast, average 50 |
| SessionModel.ScenarioFiveTimeouts | run-tests.py:145-153 | five timeouts with target 10: Stopped after exactly 5 attempts, 5 timeouts, 0 successes |
| SessionModel.ScenarioReloadAfterSecondShot | run-tests.py:143-177 | magazine 3 and valid shots: 2 shots left after the first, reload after the second, 2 left after the third |
| SessionModel.TimeoutsDrainShotsBelowZero | run-tests.py:143-153 | magazine 2 and three timeouts leave shots_available = -1 |
| SessionRunner.Session.constructor | run-tests.py:115-123 | the counters start at 0, total latency at 0, shots at the magazine size |
| SessionRunner.Session.LogResult | run-tests.py:78-82 | appends one row only when a log file name is set |
| SessionRunner.Session.RecordLatency | run-tests.py:158-172 | the in-place classification update equals Record |
| SessionRunner.Session.ReloadCheck | run-tests.py:174-177 | the in-place reload check equals ReloadIfLow |
| SessionRunner.Session.Attempt | run-tests.py:130-177 | the loop body, with its two early `continue`s, changes the session exactly as Step |
| SessionRunner.Session.RunLoop | run-tests.py:129-179 | the `while` loop changes the session exactly as Run and stops only when its condition fails |
| SessionRunner.RunLatencyTests | run-tests.py:112-195 | the write trace and CSV rows are those of Run from the loop-entry state, using the resolved log name; the report is the source's own (ReportAsWritten): ZeroDivisionError iff tests <= 0, otherwise the corrected FinalReport, Completed or Stopped; the trace is press/release pulses and empty in mock mode; nothing is logged without a log name |

## Findings

| source | as written | input that shows it | evidently intended | confidence | as-written member | corrected member |
|---|---|---|---|---|---|---|
| run-tests.py:185-191 | with `successful_tests >= args.tests` the summary divides each counter by `total_tests_attempted` | `--tests 0`: the loop never runs, `0 >= 0` selects the summary, and `light_calibration_errors / 0` raises ZeroDivisionError | a summary with defined percentages (the average at line 182 already guards its zero case), or a target of at least 1 | high (not executed) | SessionModel.ZeroTargetCrashes (over SessionModel.ReportAsWritten) | SessionModel.FinalReport (proved equal to the source's report whenever an attempt was made; SessionModel.SessionReport) |

## Left out

- Argument parsing (lines 10-20) is left out. The values are fields of `Config`. The eagerly
  computed timestamp default of `--log` (line 18) is not modelled: the log name is a `Config`
  field.
- `--reload-speed`, `--shot-delay` and every `time.sleep` are left out, because a verifier
  cannot observe wall-clock time. So the model does not capture that the two `continue`s also
  skip the shot delay.
- `time.time` and the busy-wait poll (lines 141-148, 156) are left out. Each attempt's result
  is given as an `Obs`, so the precision of the poll is not modelled. Nor is the corner case
  where the light arrives just before the deadline but the re-check at line 148 already
  reports a timeout.
- The gpiozero LED and sensor (lines 7, 27-28) are left out. The sensor reads are the `Obs`
  sequence. The LED is switched on after the calibration check and off again before any exit from
  the attempt, and affects no counter.
- Device files are left out beyond the bytes written: opening `/dev/hidg0` and `/dev/hidg1`,
  and the extra `open(mouse_hid_path, 'wb')` in `fire_weapon`, which writes nothing. Write
  failures are not modelled either: the source does not handle them.
- CSV formatting is left out (`csv.writer`, line 82). The log is the list of values appended.
- `os.path.exists` and `datetime.now().strftime` are parameters, so the timestamp format is
  not modelled.
- All printed progress text, the summary layout, the `:.2f` formatting and the elapsed
  session time (lines 113, 181, 192) are left out, because they only format output.
- `make-graphs.py` is not part of this model. It reads CSV files and draws plots, and shares no
  state with the session.
- Latencies, the total and the percentages are `real`, exact. The source uses Python floats:
  `total_latency +=` and the divisions at lines 182 and 188-191 round. So
  `AverageWithinThresholds` holds in exact arithmetic, and float rounding could put the
  printed average one unit in the last place outside the thresholds.
- SessionRunner.RunLatencyTests needs at least `5 * tests` observations, because the model
  feeds the sensor from a finite sequence. `SessionModel.Run` also stops when the observations
  run out. Under that precondition this never happens (`RunTerminates`).
