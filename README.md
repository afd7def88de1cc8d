# Line follower for a Pybricks DriveBase, in Dafny

The repository holds five versions of one line-following robot, each a step up from the last. Every version reads one colour sensor and steers a two-motor Pybricks `DriveBase`:

- **Level 1**: ON/OFF steering against a fixed threshold of 50.
- **Level 2**: the same ON/OFF rule, with the threshold calibrated from a white sample and a black sample.
- **Level 3**: proportional (P) steering, with a forward speed that drops as the error grows.
- **Level 4**: full PID steering with anti-windup, sharp-curve handling, and a five-pivot line search.
- **Final program** (`Perfect_Program.py`): the `LineTracer` class. It adds:
  - oscillation damping driven by a bounded error history;
  - a gray zone and a remembered line side;
  - a six-pivot search whose direction depends on that side;
  - a settings dialogue and a sensor-test classifier.

This project models the decision and arithmetic core of all five versions. The hardware is replaced by plain values:

- Each main-loop iteration is a `Control.TickInput`. It holds the center-button flag, the reflection reading, and the readings the sensor would return after each pivot of a search started in that iteration.
- Everything the robot is told to do is appended to the command log of a `Control.DriveBase`: `Drive(speed, turn_rate)`, `Turn(angle)` or `Stop`.

The state of the final program and of Level 4 is updated in place, so each is a class:

- `Perfect.LineTracer` has the tracer's fields.
- `Level4.Tracer` holds Level 4's module globals.

Their methods are proved against pure functions of the old state (`PidUpdate`, `PidControl`, `SweepPivots` and others), and the source's promises are proved as lemmas about those functions. Levels 1 to 3 carry no state between iterations, so they are pure functions over a shared polling loop, `Control.PollLoop`. Readings are integers, as the sensor reports them. Gains, targets and speeds are exact `real`s.

Some code is shared between levels, and each shared piece is modelled once:

- Level 3's `calibrate` is Level 2's, so both use `Level2.Calibrate`.
- Level 4's `adjust_speed` is Level 3's, so both use `Level3.AdjustSpeed`.
- Both `detect_sharp_curve`s are `Control.DetectSharpCurve`, with the margin as a parameter.
- Both `search_line` loops are `Control.Sweep`.
- `Control.Clamp` is the saturating `if … elif …` both PID versions use.

Two things the code does that a reader may not expect:

- The final program's sharp-curve branch does not reset the integral (Perfect_Program.py:258-267). Level 4's does (Level4_Program.py:207-214).
- No `calibrate` checks that the white sample exceeds the black one. Every ordering property is therefore stated under the condition that the samples are more than 10 apart, or that white exceeds black.

What follows from the code as written:

- In the final program, a reading above `white_threshold + 5` ("lost") is also above `white_threshold - 10`. Such a reading therefore always takes a sharp-curve branch and never reaches `calculate_pid` (`Control.LostReadingIsSharp`).
- When the thresholds are at least 4 apart, that branch is the sharp-right one. It sets `line_position` to 1, overwriting the side a successful search has just recorded, so every search started from the main loop, the first one included, starts with the −30 pivot (`Perfect.LostReadingTurnsRight` for one pass, `Perfect.RunSearchesRightFirst` for a whole run). The +30-first pattern is never used there. The model reproduces this behaviour.

## Model

| member | source | states |
|---|---|---|
| Control.Clamp | Perfect_Program.py:138-141 | The result lies within ±limit. It is the input when the input is within range, and the bound it crossed otherwise. |
| Control.DetectSharpCurve | Level4_Program.py:142-151 | Sharp left iff v < black + margin. Sharp right iff v is not left and v > white − margin. No curve iff black + margin ≤ v ≤ white − margin. The left test wins. |
| Control.LostReadingIsSharp | Perfect_Program.py:248-267 | A reading above white + 5 is never classified as "no curve" when the margin is at least −5. If it is not left, it is right. |
| Control.FirstBelow | Perfect_Program.py:200-205 | The index of the first reading strictly below the target, or the length of the list: every earlier reading is at or above the target. |
| Control.FirstBelowUnique | Perfect_Program.py:200-205 | Any index with FirstBelow's two properties is FirstBelow. |
| Control.SweepPivots | Perfect_Program.py:200-211 | A sweep pivots by the pattern's angles in order, up to and including the first pivot followed by a reading below the target, or by all of them. |
| Control.Sweep | Perfect_Program.py:200-211 | The search loop issues exactly SweepPivots' turns and returns the index FirstBelow gives. |
| Control.FirstPress | Level1_Program.py:40-43 | The first tick at which the center button is down, with no press before it. |
| Control.PollLoop | Level1_Program.py:40-59 | Until the first press, each tick issues the command the steering rule gives for its reading. A stop follows the press, and nothing comes after it. |
| Control.PollLoopSameRule | Level1_Program.py:40-56 | Two steering rules that agree on every reading give the same command log. |
| Control.PollLoopStopsOnlyOnButton | Level1_Program.py:40-59 | With a rule that only drives, the log contains a stop iff the button was seen. The stop is then the last entry and the only stop, and every drive comes before the first press. |
| Control.SweepPivotsHasNoStop | Perfect_Program.py:200-211 | A sweep only turns: it never issues a stop. |
| Control.FirstPressUnique | Level1_Program.py:40-43 | A tick that is pressed, with no press before it, is FirstPress. |
| Control.LostCount | Perfect_Program.py:248-255 | After any lost-line update the counter is at most the limit, and starting from 0 it never exceeds the number of ticks seen. |
| Control.LostCountConsecutive | Perfect_Program.py:248-255 | A counter of c after n ticks means the last c of them were all lost. |
| Control.SearchFollowsLostRun | Perfect_Program.py:248-255 | A search starts only on the 6th lost reading in a row: the limit ticks before it were lost too. |
| Control.NextCount | Perfect_Program.py:248-255 | The counter after an iteration that goes on never exceeds the limit. It is positive iff the reading was lost and the count stayed within the limit, and it is then one more than before; a search or a reading that is not lost leaves 0. |
| Control.RunEnd | Perfect_Program.py:236-291 | The tick at which the main loop ends lies between the start and the end of the input. |
| Control.RunEndFrom | Perfect_Program.py:236-291 | From any tick before the first press and the first failed search, the loop ends at the first press, at the first failed search when that comes earlier, or at the end of input when neither happens. |
| Control.RunEndSpec | Perfect_Program.py:236-291 | The whole run ends at the first press (ButtonPressed), or at the first failed search when that comes earlier (LineNotFound), or runs through all input when neither occurs. |
| Level1.OnOff | Level1_Program.py:49-54 | Speed 150 always. Turn −100 iff the reading is below the threshold; +100 iff it is at or above it. |
| Level1.Steer | Level1_Program.py:25-54 | With the fixed threshold 50: drive(150, −100) iff the reading is < 50, and drive(150, +100) iff it is ≥ 50. |
| Level1.Run | Level1_Program.py:40-59 | The log contains a stop iff the button was pressed. Every other command is a drive at 150 with turn ±100, and each tick before the press gets Steer of its reading. After a press the log holds one command per earlier tick and then the stop, which is last; without one it holds one command per tick. |
| Level2.Calibrate | Level2_Program.py:55-62 | The threshold is the exact midpoint: equally far from both samples and between them whichever is larger (strictly, if they differ). The samples are returned unchanged. |
| Level2.Run | Level2_Program.py:84-103 | Each tick before the press drives at 150, turning −100 below the midpoint threshold and +100 otherwise. The log contains a stop iff the button was pressed, and the stop is then the last command, right after the drives of the earlier ticks; without a press there is one drive per tick. |
| Level3.PControl | Level3_Program.py:65-72 | error = reading − target and turn = kp·error, with no clamping. The turn is zero exactly at the target (kp ≠ 0) and has the error's sign (kp > 0). |
| Level3.AdjustSpeed | Level3_Program.py:75-83 | The speed is ≥ 50, is ≤ the base speed when the base is ≥ 50, and is either the floor or base − 0.8·|error|. |
| Level3.AdjustSpeedAtTarget | Level3_Program.py:80-83 | At zero error the speed is the base speed, when the base is at least 50. |
| Level3.AdjustSpeedSymmetric | Level3_Program.py:80-83 | Errors of equal size on either side of the line give the same speed. |
| Level3.AdjustSpeedMonotone | Level3_Program.py:80-83 | A larger absolute error never gives a higher speed. |
| Level3.TickCommand | Level3_Program.py:115-125 | Each tick drives with (AdjustSpeed(150, e), 2·e), where e is that tick's error. The speed lies in [50, 150]. |
| Level3.Run | Level3_Program.py:109-131 | Each tick before the press gets TickCommand against the midpoint target. The log contains a stop iff the button was pressed, and the stop is then the last command, right after the drives of the earlier ticks; without a press there is one drive per tick. |
| Level4.Calibrate | Level4_Program.py:61-74 | The thresholds are black + 5 and white − 5, and the target is their midpoint. When the samples are more than 10 apart, the target lies strictly between the thresholds; otherwise it lies between them in reverse order. |
| Level4.PidControl | Level4_Program.py:77-112 | The error is unclamped (reading − target). The integral stays in [−100, 100] and is exactly integral + error when that is within range. Above 100 it is clamped to exactly 100, below −100 to exactly −100. The turn lies in [−250, 250], and the new last_error is this call's error. |
| Level4.SearchLine | Level4_Program.py:115-139 | Pivots through [30, −60, 90, −120, 150] as SweepPivots says. Returns true iff some reading among the five is below the target. Issues no stop. |
| Level4.Tracer.constructor | Level4_Program.py:174-178 | The thresholds and target are Calibrate's results, and the lost counter starts at 0. So do integral and last_error, as their declarations at lines 25-26 say. |
| Level4.Tracer.CalculatePidControl | Level4_Program.py:77-112 | The returned (turn, error) and the new globals are exactly PidControl of the old globals, and the integral bound is kept. |
| Level4.Tracer.TrackLoss | Level4_Program.py:194-202 | A lost reading increments the counter; any other reading resets it. On the 6th lost reading the robot searches. Success resets the counter and the integral; failure ends the loop. The pivots issued are SweepPivots'. |
| Level4.Tracer.Steer | Level4_Program.py:205-224 | The command appended and the new integral and last_error are exactly SteerStep's for the reading and the old globals. |
| Level4.Tracer.Tick | Level4_Program.py:191-224 | The commands appended, the new globals and whether the loop breaks are exactly PassStep's for the reading, the search readings and the old globals. |
| Level4.SteerStep | Level4_Program.py:205-224 | Sharp left/right: drive(75, ∓200), integral 0, last_error unchanged. Otherwise: drive(AdjustSpeed(150, error), turn) with PidControl's turn and globals. Always a drive at a speed in [50, 150] with a turn within ±250, and the integral within ±100. |
| Level4.PassStep | Level4_Program.py:191-224 | The iteration breaks iff the reading is lost, the counter was already at 5 and no reading of the five-pivot search is below the target; otherwise the counter is NextCount's. It issues the search's pivots (SweepPivots over [30, −60, 90, −120, 150]) when searching and, unless it breaks, then the SteerStep drive for the reading taken before the search, with the integral at 0 after a search. A failed search leaves the integral and last_error alone. No stop, and the integral bound is kept. |
| Level4.PassSteersOnReading | Level4_Program.py:191-224 | Two iterations that differ only in what the sensor read while pivoting, and both go on, end with the same drive and leave the same globals: steering uses the reading taken before the search. |
| Level4.SearchResetsIntegral | Level4_Program.py:194-201 | On a search, the iteration's commands, whether it breaks and, if it goes on, the globals it leaves do not depend on the integral built up before it. |
| Level4.RunTrace | Level4_Program.py:185-229 | The loop ends at a tick between the start and the end of input, and runs out of input exactly when it used every tick. The integral bound is kept over the run. |
| Level4.RunTraceShift | Level4_Program.py:185-229 | The run keeps the commands issued before it and appends what it would issue on a fresh drive base. |
| Level4.RunTraceEnd | Level4_Program.py:185-229 | The run's ending and its number of iterations are RunEnd's for Level 4's lost-line rule. |
| Level4.RunTraceStops | Level4_Program.py:185-229 | The only stop of a run is the one after the loop, as its last command; a run that ran out of input issues none. |
| Level4.RunDrivesWithin | Level4_Program.py:205-224 | Every drive a run issues has a speed in [50, 150] and a turn within ±250. |
| Level4.Tracer.Run | Level4_Program.py:185-229 | The ending, the number of iterations, the commands appended and the globals left are RunTrace's from the old globals. So the loop ends at the first press or at the first failed search, whichever comes first (RunEnd, Control.RunEndSpec); the only stop is the last command, and none is issued without either; every drive is within [50, 150] and ±250. Only the counter, the integral, last_error and the robot change. |
| Perfect.Calibration | Perfect_Program.py:106-111 | The thresholds are black + 5 and white − 5. The target is their midpoint, which equals (white + black)/2. The gray zone is 0.3 × the span. black_threshold < target < white_threshold iff white − black > 10, and the same condition makes the gray zone positive. |
| Perfect.PushBounded | Perfect_Program.py:129-132 | The history grows by one until it holds 10 entries, then keeps its length. It never exceeds 10, and its last entry is the new error. |
| Perfect.PushBoundedKeepsRecent | Perfect_Program.py:129-132 | Before the new error come the previous entries in order, without the oldest when the history was full. |
| Perfect.SignChangesBefore | Perfect_Program.py:172-175 | Among i entries there are at most i − 1 sign changes, and none among fewer than two. |
| Perfect.SignChanges | Perfect_Program.py:172-175 | A history of n entries has at most n − 1 sign changes. |
| Perfect.SignChangesPrefix | Perfect_Program.py:172-175 | The count over the first i entries depends only on those entries. |
| Perfect.SignChangesAppend | Perfect_Program.py:172-175 | The count over a concatenation is the two counts plus one for the seam when the entries meeting there have opposite signs. |
| Perfect.ZeroCutsSignChanges | Perfect_Program.py:172-175 | A zero error takes part in no sign change: the count splits around it. |
| Perfect.AlternatingSignChanges | Perfect_Program.py:172-175 | A history of nonzero, alternately signed errors changes sign at every neighbouring pair. |
| Perfect.AlternatingHistoryOscillates | Perfect_Program.py:166-178 | A full history of nonzero, alternately signed errors (9 changes) is oscillating. |
| Perfect.PidUpdate | Perfect_Program.py:124-164 | The history is PushBounded with the error. The integral is clamped to ±100 and then halved when oscillating, so it stays within ±100. The turn is the clamped PID sum, within ±250, and last_error is this error. |
| Perfect.PidAtRest | Perfect_Program.py:124-164 | On target, with no integral and no previous error, the turn is 0 and the regulator stays at rest. |
| Perfect.SharpCurve | Perfect_Program.py:180-187 | Sharp left iff v < black + 10. Sharp right iff v is not left and v > white − 10. No curve otherwise. |
| Perfect.SearchPattern | Perfect_Program.py:195-198 | Six pivots of 30·(i+1) degrees with alternating directions. The first is +30 iff line_position < 0 (0 takes the other pattern). |
| Perfect.SearchPatternsMirror | Perfect_Program.py:195-198 | The two patterns are mirror images. |
| Perfect.Slowdown | Perfect_Program.py:273-274 | Scaling a base speed by 1 − 0.4·share, with share in [0, 1], keeps it between 60% and 100% of the base. |
| Perfect.PidSpeed | Perfect_Program.py:273-274 | The speed on the PID branch lies in [0.6·base, base], and equals base when the turn is 0. |
| Perfect.LinePosition | Perfect_Program.py:280-285 | 0 iff \|v − target\| < gray zone; otherwise −1 below the target and 1 at or above it. |
| Perfect.SettingsStep | Perfect_Program.py:337-356 | Left lowers kp by 0.1; otherwise Right raises it; otherwise Up raises the speed by 10; otherwise Down lowers it by 10, never below 50. Center alone (none of the others pressed) ends the dialogue. The speed is unchanged unless Left, Right, Up or Down is pressed, and kp is unchanged unless Left or Right is. The speed floor is kept. |
| Perfect.Settings | Perfect_Program.py:334-356 | Over a run of polls the speed floor is kept, and the dialogue ends iff some poll has Center alone. |
| Perfect.Classify | Perfect_Program.py:309-317 | Black iff the reading is below black_threshold; white iff it is not black and above white_threshold; gray otherwise. |
| Perfect.LineTracer.constructor | Perfect_Program.py:34-65 | The initial thresholds 10/85, target 47.5, gains 2.0/0.02/0.8, base speed 150, an empty history, zero integral and error, and not calibrated. |
| Perfect.LineTracer.Calibrate | Perfect_Program.py:106-122 | The four calibrated fields are Calibration(white, black), and the tracer is marked calibrated. |
| Perfect.LineTracer.DetectOscillation | Perfect_Program.py:166-178 | False with fewer than 10 entries. Otherwise true iff there are more than 6 strict sign changes, i.e. Oscillating(history). |
| Perfect.LineTracer.CalculatePid | Perfect_Program.py:124-164 | The new (integral, last_error, history) and the returned turn are exactly PidUpdate of the old regulator state. The bounds invariant is kept. |
| Perfect.LineTracer.SearchLine | Perfect_Program.py:189-220 | Pivots as SweepPivots for SearchPattern(line_position), at most 6 times. Returns true iff some reading is below the target, and then sets line_position to −1 if that pivot's angle was positive, else 1. On failure it adds a stop and leaves line_position alone. |
| Perfect.LineTracer.TrackLoss | Perfect_Program.py:248-255 | A lost reading increments the counter; any other reading resets it. The 6th lost reading in a row starts a search. Success resets the counter; failure (a stop was issued) ends the loop. The regulator is untouched. |
| Perfect.SteerStep | Perfect_Program.py:258-285 | Sharp left/right: drive(base/2, ∓200), line_position ∓1, regulator untouched (no integral reset). Otherwise: the regulator becomes PidUpdate's state, the robot drives at PidSpeed with the PID turn, and line_position is LinePosition. Always a drive at between half and all of the base speed, with the turn within ±250. |
| Perfect.LostReadingTurnsRight | Perfect_Program.py:195-198 | When the thresholds are at least 4 apart, a lost reading takes the sharp-right branch: line_position becomes 1 and the regulator is untouched, so the next search pattern starts with −30. |
| Perfect.LineTracer.Steer | Perfect_Program.py:258-285 | The command appended, the new regulator and line_position are exactly SteerStep of the reading, the calibration and the old regulator. |
| Perfect.LineTracer.PidDrive | Perfect_Program.py:268-285 | The PID branch alone: PidUpdate's state and turn, PidSpeed, and LinePosition. |
| Perfect.PassStep | Perfect_Program.py:242-285 | The pass breaks iff the reading is lost, the counter was already at 5 and no reading of the six-pivot search is below the target; otherwise the counter is NextCount's. It issues the search's pivots (SweepPivots over SearchPattern(line_position)) when searching; on failure then a stop, leaving the regulator and line_position alone; otherwise the SteerStep drive for the reading taken before the search, with SteerStep's regulator and line_position. Its only stop is the failed search's, as its last command. |
| Perfect.PassSteersOnReading | Perfect_Program.py:242-285 | Two passes that differ only in what the sensor read while pivoting, and both go on, end with the same drive and leave the same state: steering uses the reading taken before the search. |
| Perfect.PassSearchesRightFirst | Perfect_Program.py:189-267 | With thresholds at least 4 apart, and line_position at 1 whenever lost readings are being counted, a pass's search begins with the −30 pivot, every search in its commands does, and the pass leaves that condition true. |
| Perfect.RunTrace | Perfect_Program.py:236-291 | The loop ends at a tick between the start and the end of input, and runs out of input exactly when it used every tick. |
| Perfect.RunTraceShift | Perfect_Program.py:236-291 | The run keeps the commands issued before it and appends what it would issue on a fresh drive base. |
| Perfect.RunTraceEnd | Perfect_Program.py:236-291 | The run's ending and its number of passes are RunEnd's for follow_line's lost-line rule. |
| Perfect.RunTraceStops | Perfect_Program.py:217-291 | No stop before the end of a run: one stop after a press, two (the failed search's and the final one) after a failed search, none when the input ran out. |
| Perfect.RunSearchesRightFirst | Perfect_Program.py:189-291 | With thresholds at least 4 apart, every search of a run, the first one included, begins with the −30 pivot. |
| Perfect.RunDrivesWithin | Perfect_Program.py:258-285 | Every drive a run issues has a speed between half and all of base_speed and a turn within ±250. |
| Perfect.LineTracer.FollowTick | Perfect_Program.py:242-285 | The commands appended, the new regulator, line_position and counter, and whether the loop breaks are exactly PassStep's for the reading, the search readings and the old state. |
| Perfect.LineTracer.TrackLine | Perfect_Program.py:234-291 | The ending, the number of passes, the command log and the regulator and line_position left are RunTrace's from the old state with the counter at 0. |
| Perfect.LineTracer.FollowLine | Perfect_Program.py:222-291 | It calibrates first only when not yet calibrated, and otherwise keeps the calibration. The run is then RunTrace's with the counter at 0: it ends at the first press or at the first failed search, whichever comes first (RunEnd, Control.RunEndSpec); no stop comes before the end (one after a press, two after a failed search, none otherwise); every drive is between half and all of base_speed with a turn within ±250; with thresholds at least 4 apart every search begins with −30. kp and base_speed are never changed. |
| Perfect.LineTracer.AdvancedSettings | Perfect_Program.py:334-356 | kp, base_speed and the result are exactly Settings of the old values over the polls. The speed floor of 50 is kept. |
| Variants.SameTarget | Level4_Program.py:61-65 | Level 2, Level 4 and the final program compute the same target from the same samples. |
| Variants.Level2ExtendsLevel1 | Level2_Program.py:84-103 | Calibrated on samples whose midpoint is 50, Level 2 issues exactly Level 1's commands. |
| Variants.SharpLeftWidens | Level4_Program.py:147-148 | A reading Level 4 calls a sharp left (margin 5) is a sharp left in the final program (margin 10). |

## Left out

- Hardware construction and `DriveBase` geometry, the display, the speaker and all console output. They never affect a decision.
- The button-polling wait loops inside `calibrate`, and the start-wait loops. Calibration is a function of the two final samples.
- `StopWatch`, elapsed time and every `wait(...)`, including the tick period. These concern wall-clock time only.
- The `main` menu dispatch and the top-level `try/except`.
- The motion of `robot.turn` and `robot.drive`. The model records the commands issued, not how the robot moves.
- IEEE floating-point rounding. All arithmetic is exact `real` arithmetic.
- The `passes` results of `Perfect.LineTracer.FollowLine`, `Perfect.LineTracer.TrackLine` and `Level4.Tracer.Run` are ghost: they name the tick at which the loop ended and have no counterpart in the programs.
- Running out of ticks. The loops are driven by a finite list of ticks, so a run can also end with `InputExhausted`, and then no stop is issued. This ending does not exist in the programs, whose loops poll forever.
- Perfect.LineTracer.constructor: `gray_zone` is first assigned in `calibrate`. The model starts it at 0.0 and requires a calibrated tracer wherever it is read (`Steer`, `PidDrive`, and `FollowLine` calibrates first).
- Level4.PidControl: does not state the turn formula in its contract beyond the bounds. `Level4.Tracer.CalculatePidControl` ties the method to the function, whose body is the clamped PID sum.
- `test_sensors` is modelled as its classification of one reading only. Its loop only displays the result.
