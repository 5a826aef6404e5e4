# DzikiBoT firmware core in Dafny

DzikiBoT is the STM32 firmware of a small two-track sumo robot. This project models its core and proves properties of the model:

- **Motion** (`tank_drive.dfy`, `motor_bldc.dfy`).
  - The tank-drive controller turns logical track targets in −100..100 % into ESC percentages. Each 20 ms step goes through a direction-reversal neutral gate, a slew-rate ramp, an EMA smoother, per-track scaling and the ESC "useful window" mapping.
  - The RC-PWM ESC layer turns percentages into 1000..2000 µs pulses on two timer channels.
- **Dispatch** (`scheduler.dfy`).
  - The cooperative millisecond dispatchers of `main.c` and `app.c` run four periodic tasks: drive, sensors, OLED and UART.
  - The older `SMIETNIK/app.c` dispatcher stamps each task before running its body.
- **Test sequencers** (`drive_test.dfy`, `motor_test.dfy`, `tank_test.dfy`):
  - the scripted drive test;
  - the two-ESC forward/reverse ramp test;
  - the tank manoeuvre sequence.
- **Range sensors** (`luna_filter.dfy`, `luna_core.dfy`, `luna_temporek.dfy`).
  - The TF-Luna drivers keep median and moving-average filters over a ring of samples.
  - The register-map version is in `Core/Src`. The 9-byte-frame version is in `TEMPOREK`; it validates checksums and resynchronises on a slipped frame.
- **Colour sensors** (`tcs.dfy`): the TCS3472 driver. Its auto-gain steps one gain level at a time with hysteresis, and it switches to the correct register on each side.
- **UART and OLED** (`debug_uart.dfy`, `ssd1306.dfy`).
  - The debug UART transmits through a ring buffer: writes enqueue bytes, an interrupt-driven transfer (`HAL_UART_Transmit_IT`) sends one contiguous span at a time, and the completion callback retires each span.
  - The SSD1306 driver keeps a 1024-byte frame buffer. It supports pixel, line, glyph and text drawing, and it sends data in 128-byte chunks.
- **Shared helpers** (`ints.dfy`): unsigned and signed integer types, 32-bit wrap-around, C truncating division, and little-endian decoding.

Each file takes one of three forms:

- Code that only computes is modelled as Dafny functions. Lemmas relate them to independent statements of what they mean.
- Code that keeps static state is modelled as a class whose methods assign its fields. Each method is proved against one of those functions.
- Hardware side effects are recorded in ghost logs of calls: ESC writes, `Tank_SetTarget` calls, I²C register writes and the UART's transmitted spans.

Clocks, bus transfers and hardware results are parameters.

Two timing facts of the code are worth stating outright:

- **Scheduler timing.**
  - `App_Init` seeds every stamp with the current time, and each run sets the stamp to the time of that run. So the first run comes one full period after init, and a late tick is not caught up: the stamp does not advance by whole periods (`Scheduler.FirstRunAfterFullPeriod`, `Scheduler.LatenessIsNotCaughtUp`).
  - The comment at `SMIETNIK/app.c:38` promises an immediate first run, but the code seeds with the current time.
- **Reversal gate.**
  - The gate compares the previous tick's ramped output `cur` with the new target, before this tick's ramp step. So a +80 → −80 flip fires the gate on the tick the target flips (`TankDrive.GateFiresOnFlipTick`).

## Model

| member | source | states |
|---|---|---|
| Ints.Clamp | Core/Src/motor_bldc.c:31-40 | With lo ≤ hi the result lies in lo..hi: it equals v inside the range, lo below it and hi above it. |
| Ints.ToI8 | Core/Src/tank_drive.c:181 | The `(int8_t)` conversion: a value already in −128..127 is unchanged. |
| Ints.ToI8Congruent | Core/Src/tank_drive.c:181 | Every conversion to `int8_t` keeps the value mod 256. |
| Ints.ToI32 | Core/Src/tank_drive.c:184 | The `(int32_t)` reinterpretation of a 32-bit value: the result is in −2^31..2^31−1 and congruent to the input mod 2^32, and it is non-negative exactly when the input is below 2^31. |
| Ints.Add32 | Core/Src/tank_drive.c:194 | Unsigned 32-bit addition wraps: the result is congruent to the sum mod 2^32, and equals it when the sum fits. |
| Ints.Sub32 | Core/Src/main.c:261 | Unsigned 32-bit subtraction wraps: adding the subtrahend back gives the minuend, and without wrap the result is the ordinary difference. |
| Ints.TruncDiv | Core/Src/motor_bldc.c:105 | C division rounds toward zero: the quotient's magnitude is ⌊\|a\|/b⌋ and its sign is the sign of a. |
| Ints.DecodeLE16 | Core/Src/tf_luna_i2c.c:128-129 | The decoded 16-bit value has the low byte as its remainder mod 256 and the high byte as its quotient. |
| Ints.DecodeLE16RoundTrip | Core/Src/tf_luna_i2c.c:128-129 | Splitting any 16-bit value into its low and high bytes and decoding them gives the value back. |
| Ints.DueAfterExactly | Core/Src/main.c:261-265 | A stamp taken at `last` is due at `last + d` (mod 2^32) exactly when d ≥ period, across clock wrap. |
| Ints.ElapsedBetween | Core/Src/drive_test.c:54 | Between t + a and t + b (a ≤ b < 2^32) the wrapping difference is exactly b − a. |
| Ints.SignedExpiry | Core/Src/tank_drive.c:184-194 | For a deadline set to t + dwell with dwell and e below 2^31, the signed difference `(int32_t)(now − until)` at now = t + e is non-negative exactly when e ≥ dwell. |
| MotorBldc.ClampPulse | Core/Src/motor_bldc.c:48-53 | Every requested pulse width is clamped into 1000..2000 µs. |
| MotorBldc.PercentToUs | Core/Src/motor_bldc.c:99-107 | −100..100 % maps to 1500 + 5·pct µs after clamping, so the pulse always stays inside 1000..2000 µs. |
| MotorBldc.PercentEndpoints | Core/Inc/motor_bldc.h:72-76 | −100 % is 1000 µs, 0 % is neutral 1500 µs and +100 % is 2000 µs, as the header promises. |
| MotorBldc.PercentStrictlyIncreasing | Core/Src/motor_bldc.c:103-106 | Inside −100..100 a larger percentage gives a strictly longer pulse. |
| MotorBldc.GetMinUs | Core/Src/motor_bldc.c:115 | Reports 1000 µs, the lower end of the clamp the writers apply. |
| MotorBldc.GetNeuUs | Core/Src/motor_bldc.c:116 | Reports 1500 µs, the pulse 0 % produces. |
| MotorBldc.GetMaxUs | Core/Src/motor_bldc.c:117 | Reports 2000 µs, the upper end of the clamp the writers apply. |
| MotorBldc.Esc.constructor | Core/Src/motor_bldc.c:29 | No timer is attached and both compare registers are 0. |
| MotorBldc.Esc.SetCcr | Core/Src/motor_bldc.c:43-68 | Without a timer, or for a channel other than 1 and 4, nothing changes. Otherwise only the addressed channel's compare register changes, to the clamped pulse. |
| MotorBldc.Esc.SetNeutralAll | Core/Src/motor_bldc.c:109-113 | With a timer, both channels hold the 1500 µs neutral pulse. |
| MotorBldc.Esc.Init | Core/Src/motor_bldc.c:70-83 | The timer handle is stored as given. With a timer both channels start at neutral; without one they are untouched. The log records the init and one neutral-all call. |
| MotorBldc.Esc.ArmNeutral | Core/Src/motor_bldc.c:85-92 | With a timer, both channels are set to neutral, and one neutral-all call is logged. The wait itself is left out. |
| MotorBldc.Esc.WritePulseUs | Core/Src/motor_bldc.c:94-97 | Only the addressed channel changes, to the clamped pulse. |
| MotorBldc.Esc.WritePercentRaw | Core/Src/motor_bldc.c:99-107 | Only the addressed channel changes, to the pulse `PercentToUs` gives for the clamped percentage. |
| TankDrive.ClampI8 | Core/Src/tank_drive.c:116-121 | The result lies in lo..hi: it equals v inside the range, lo below it and hi above it. |
| TankDrive.RampOnce | Core/Src/tank_drive.c:133-139 | Moves cur toward tgt by at most step and never past tgt. It lands exactly on tgt when tgt is within one step, and otherwise moves a full step. |
| TankDrive.RampStaysAtTarget | Core/Src/tank_drive.c:133-139 | Once the ramp has reached the target, any number of further steps keep it there. |
| TankDrive.RampSettles | Core/Src/tank_drive.c:133-139 | With step > 0, k steps reach the target whenever k·step ≥ \|tgt − cur\|. |
| TankDrive.MapToWindow | Core/Src/tank_drive.c:153-169 | 0 maps to 0. A positive command maps into start..max, and a negative one into −max..−start. |
| TankDrive.WindowExact | Core/Src/tank_drive.c:158-168 | For a nonzero x in −100..100, the output is sign(x)·(start + (max − start)·\|x\| / 100), with integer division. |
| TankDrive.WindowOdd | Core/Src/tank_drive.c:160-168 | The window mapping is symmetric: −x maps to the negation of what x maps to. |
| TankDrive.WindowMonotone | Core/Src/tank_drive.c:160-168 | A larger logical command never produces a smaller ESC percentage. |
| TankDrive.WindowDefaults | Core/Src/config.c:39-40 | With the shipped 30..60 % window: 1 % becomes 30, 4 % becomes 31, 100 % becomes 60 and −100 % becomes −60. |
| TankDrive.ApplyGate | Core/Src/tank_drive.c:176-199 | While the gate holds (it is active and `(int32_t)(now − until) < 0`), the output is 0 and the gate is unchanged. Otherwise the gate becomes active exactly when cur and tgt lie beyond ±thr on opposite sides. On activation the output is 0 and `until = now + dwell` mod 2^32. Without activation the output is tgt and `until` is unchanged. |
| TankDrive.GateNeverFiresInsideBand | Core/Src/tank_drive.c:192-198 | When the gate is not holding and the new target is within ±thr, the gate does not fire, it is cleared, and the target passes through unchanged. |
| TankDrive.GateFiresOnFlipTick | Core/Src/tank_drive.c:192-195 | With the shipped threshold, a target flip from +80 to −80 fires the gate on that very tick. |
| TankDrive.GateHoldsForDwell | Core/Src/tank_drive.c:183-195 | A gate fired at t0 still holds at t0 + e exactly when e < dwell, for any e < 2^31 and across clock wrap. |
| TankDrive.EmaBounded | Core/Src/tank_drive.c:143-146 | With 0 < α ≤ 1, the EMA of two values in a range stays in that range. |
| TankDrive.ClampReal | Core/Src/tank_drive.c:124-129 | With lo ≤ hi the result lies in lo..hi, and a value already inside is unchanged. |
| TankDrive.TruncReal | Core/Src/tank_drive.c:258-259 | The `(int8_t)` cast of a real is truncation toward zero: the result's magnitude is the floor of the input's magnitude, with the same sign. |
| TankDrive.ChannelStep | Core/Src/tank_drive.c:229-259 | One track per tick. The gate is `ApplyGate`'s. When the gate is active the ramp output is forced to 0; otherwise it is one `RampOnce` step toward the target. Targets in ±100 keep the output in ±100. With α ≤ 0 the filter is bypassed and copies the output; otherwise it is the EMA of the old filter value and the output. The ESC percentage is `EscOut` of the filter value and the track scale. |
| TankDrive.EscOut | Core/Src/tank_drive.c:254-259 | A scaled value of magnitude below 1 % sends 0 % (neutral). With a valid window the output never leaves ±max, and a positive (negative) output only comes from a scaled value of at least +1 % (at most −1 %). |
| TankDrive.ChannelFilterBounded | Core/Src/tank_drive.c:245-251 | If the filter state was within ±100, it stays within ±100 after a step. |
| TankDrive.ChannelReverseScenario | Core/Src/tank_drive.c:230-240 | A track at +80 whose target flips to −80 is forced to 0 on that tick, with the gate expiring 600 ms later. |
| TankDrive.ChannelHeldWritesNeutral | Core/Src/tank_drive.c:236-259 | While the gate holds and the EMA is disabled (α ≤ 0), the ramp output is 0, the gate is unchanged and the ESC is sent 0 %. |
| TankDrive.ArcPair | Core/Src/tank_drive.c:289-297 | For an arc, the inner track gets half of a positive base speed (else 0) and the outer track gets the base speed (0 when the base is not positive). The inner value never exceeds the outer. |
| TankDrive.Tank.constructor | Core/Src/tank_drive.c:100-109 | All targets, outputs, filters and gates start at zero, with no ESC calls made. |
| TankDrive.Tank.Init | Core/Src/tank_drive.c:208-218 | Zeroes every per-track state and makes exactly one neutral-all call to the ESC. |
| TankDrive.Tank.Update | Core/Src/tank_drive.c:223-263 | Each track advances by `ChannelStep` from its old state. Left (channel 4) and then right (channel 1) are written, in that order, as percentage calls appended to the log. The targets are unchanged. |
| TankDrive.Tank.StepLeft | Core/Src/tank_drive.c:230-258 | The left track's half of the update: `ChannelStep` with the left scale. |
| TankDrive.Tank.StepRight | Core/Src/tank_drive.c:232-259 | The right track's half of the update: `ChannelStep` with the right scale. |
| TankDrive.Tank.Stop | Core/Src/tank_drive.c:267-271 | Both targets become 0. Nothing else changes. |
| TankDrive.Tank.Forward | Core/Src/tank_drive.c:273-278 | Both targets become the speed clamped to 0..100. Nothing else changes. |
| TankDrive.Tank.Backward | Core/Src/tank_drive.c:280-285 | Both targets become the negated speed clamped to 0..100. Nothing else changes. |
| TankDrive.Tank.TurnLeft | Core/Src/tank_drive.c:299-306 | For p clamped to 0..100, left becomes p/2 and right becomes p. |
| TankDrive.Tank.TurnRight | Core/Src/tank_drive.c:308-315 | For p clamped to 0..100, left becomes p and right becomes p/2. |
| TankDrive.Tank.RotateLeft | Core/Src/tank_drive.c:317-322 | For p clamped to 0..100, the targets become (−p, p). |
| TankDrive.Tank.RotateRight | Core/Src/tank_drive.c:324-329 | For p clamped to 0..100, the targets become (p, −p). |
| TankDrive.Tank.SetTarget | Core/Src/tank_drive.c:331-335 | Each target becomes its argument clamped to ±100. Nothing else changes. |
| Scheduler.Seed | Core/Src/main.c:253 | After init, every task's last-run stamp is the init time. |
| Scheduler.DueTasks | Core/Src/main.c:256-293 | A task runs in a tick exactly when its period has elapsed. Due tasks run in the fixed order drive, sensors, OLED, UART. |
| Scheduler.Restamp | Core/Src/main.c:261-292 | Tasks that ran are stamped with this tick's time. The others keep their stamps. |
| Scheduler.FirstRunAfterFullPeriod | Core/Src/app.c:79-96 | After init at t0, a task first runs when a full period has elapsed, not on the first tick. |
| Scheduler.NextRunOnePeriodLater | Core/Src/main.c:264 | After a run at t, the task is next due at t + period and not before. |
| Scheduler.LatenessIsNotCaughtUp | Core/Src/app.c:88-92 | When a run comes `late` ms after its period (0 < late < period), the task is not due again at the next period boundary, two periods after the old stamp, although it would be if the schedule kept its phase. Lost time is not caught up. |
| Scheduler.TankUpdateBeforeDriveTest | Core/Src/main.c:262-263 | In a drive tick, `Tank_Update` runs before `DriveTest_Tick`. |
| Scheduler.App.constructor | Core/Src/app.c:31-40 | All stamps and stored readings start at zero. |
| Scheduler.App.Init | Core/Src/main.c:246-253 | The first sensor readings are stored and every stamp is seeded with the init time. |
| Scheduler.App.DriveCheck | Core/Src/app.c:88-93 | When due, the stamp is set to now and the drive body runs once; otherwise nothing changes. |
| Scheduler.App.SensorCheck | Core/Src/app.c:96-107 | When due, the stamp is set to now. A Luna reading replaces the stored one only if its frame was ready; the colour readings are always replaced. |
| Scheduler.App.OledCheck | Core/Src/app.c:110-114 | When due, the stamp is set to now and one panel refresh is recorded. |
| Scheduler.App.UartCheck | Core/Src/app.c:117-121 | When due, the stamp is set to now and one UART refresh is recorded. |
| Scheduler.App.Tick | Core/Src/main.c:256-298 | The four checks run in order against one `now`. The events and new stamps are exactly those of `DueTasks` and `Restamp`. |
| Scheduler.StampedFirst | SMIETNIK/app.c:52-53 | In the older dispatcher, every task body sees its own stamp already set to the tick's time. |
| Scheduler.MinimalApp.constructor | SMIETNIK/app.c:19-22 | All four stamps start at 0. |
| Scheduler.MinimalApp.Init | SMIETNIK/app.c:38-43 | All stamps are seeded with the init time. By `Scheduler.FirstRunAfterFullPeriod`, a task is due on the first tick exactly when its full period has passed since init. So nothing runs on a first tick that comes sooner than every period. |
| Scheduler.MinimalApp.Tick | SMIETNIK/app.c:46-74 | Due tasks run in the fixed order. Each is stamped before its body runs. |
| DriveTest.Started | Core/Src/drive_test.c:41-47 | The test runs from step 0, stamped at now, and issues (+50, +50). |
| DriveTest.Next | Core/Src/drive_test.c:49-65 | A stopped test, or a step whose duration has not elapsed, changes nothing. Otherwise the index advances by one, stamped at now. The new step's target is issued, or, after the last step, (0, 0) is issued and the test stops with the index at the script length. |
| DriveTest.Run | Core/Src/drive_test.c:54-63 | Over any sequence of ticks, the index never passes the end of the script. |
| DriveTest.OneCommandPerStep | Core/Src/drive_test.c:53-63 | Over any sequence of ticks, exactly one command is issued per step advance, and the index never moves back. |
| DriveTest.StoppedStaysStopped | Core/Src/drive_test.c:51 | A stopped test ignores every later tick and issues nothing. |
| DriveTest.WholeScript | Core/Src/drive_test.c:23-28 | Ticks 3000, 3600, 6600 and 6900 ms after the start play the rest of the script, (0,0), (−50,−50), (0,0), then the final (0,0), and stop the test, however the clock wraps. |
| DriveTest.Test.constructor | Core/Src/drive_test.c:31-33 | The test starts stopped at step 0. |
| DriveTest.Test.Start | Core/Src/drive_test.c:41-47 | The state becomes `Started` and its command is logged. |
| DriveTest.Test.Tick | Core/Src/drive_test.c:49-65 | The state becomes `Next` of the old state, and its command, if any, is logged. |
| DriveTest.Test.IsRunning | Core/Src/drive_test.c:67-70 | Reports whether the test is running. |
| MotorTest.RampStep | SMIETNIK/motor_test.c:53-64 | The result is in ±100, between the current and the target speed, and at most `rate` from the current one. It reaches the target when the target is within one step; otherwise the gap shrinks by exactly `rate`. |
| MotorTest.RampReaches | SMIETNIK/motor_test.c:53-62 | With rate ≥ 1, n steps reach the target whenever n·rate covers the gap. |
| MotorTest.Started | SMIETNIK/motor_test.c:70-82 | The test runs in the forward phase from standstill toward +90 %. A rate of 0 becomes 3 and a step of 0 becomes 20 ms. |
| MotorTest.Next | SMIETNIK/motor_test.c:84-136 | Nothing happens unless the test is running and a step is due. A due step is stamped at now and writes one output. The phase moves forward by at most one, and each ramp step is `RampStep`. Forward and reverse end only after 10000 ms in the phase. The first stop ends only at speed 0 after 50 ms; the second ends only at speed 0. Each ramping step (forward, reverse and both stops) writes `Speed(current)`. Each phase ends exactly when its condition holds. When the test stops it writes neutral to both channels. The ramp rate and tick never change, Target and phase start change only on entry to Stop1, Rev or Stop2, and the speed is kept when the test stops or is already over. |
| MotorTest.NoDirectReversal | SMIETNIK/motor_test.c:92-135 | No step changes the sign of the commanded speed without passing through 0. |
| MotorTest.Test.constructor | SMIETNIK/motor_test.c:25-36 | Starts in the zeroed idle state with no outputs. |
| MotorTest.Test.SetTargets | SMIETNIK/motor_test.c:39-43 | Sets the new phase target and restarts the phase clock at now. |
| MotorTest.Test.Ramp | SMIETNIK/motor_test.c:53-67 | The speed becomes `RampStep` of the old speed, and that speed is written to both channels. |
| MotorTest.Test.Start | SMIETNIK/motor_test.c:70-82 | The state becomes `Started`. Nothing is written. |
| MotorTest.Test.Tick | SMIETNIK/motor_test.c:84-136 | The state and outputs become those of `Next`. |
| MotorTest.Test.IsRunning | SMIETNIK/motor_test.c:138-141 | Reports whether the test is running. |
| TankTest.Started | SMIETNIK/tank_test.c:44-63 | The speeds are clamped (forward to ±100, turn to 0..100). Durations of 0 become 3000, 2000, 2000 and 1500 ms. The test runs in the forward phase from now. |
| TankTest.PhaseCmd | SMIETNIK/tank_test.c:73-124 | Each phase's keep-alive command, always within ±100: forward (f, f), left and spin (−v, v), right (v, −v), and (0, 0) for idle, the stops and done. |
| TankTest.Next | SMIETNIK/tank_test.c:65-125 | A stopped test does nothing. Every running tick issues its phase's command. A timed phase moves to its successor exactly when its duration has elapsed, stamped at now. Done and Idle stop the test. The phase never moves back nor skips ahead. Without a phase change the phase start is kept, and the speeds and durations never change. |
| TankTest.Aborted | SMIETNIK/tank_test.c:132-137 | An aborted test stops in the Done phase and issues a stop. |
| TankTest.StoppedStaysStopped | SMIETNIK/tank_test.c:67 | A stopped test ignores every later tick. |
| TankTest.PhaseEnds | SMIETNIK/tank_test.c:73-117 | A tick exactly when a phase's time runs out moves to the successor phase, stamped at that tick, and issues the phase's own command. |
| TankTest.WholeManoeuvre | SMIETNIK/tank_test.c:56-123 | With default durations, ticks at t + 3000, 5000, 7000, 7200, 8700 and 9000, and one later tick, play forward, left, right, stop, spin, stop and the final stop, and end the test. |
| TankTest.OpeningStretch | SMIETNIK/tank_test.c:73-95 | The first three phase ends issue the forward and both turn commands and begin the first stop at t + 7000. |
| TankTest.FinalStretch | SMIETNIK/tank_test.c:97-123 | From the first stop, the remaining ticks end the stop, the spin and the second stop, then stop the test. |
| TankTest.Test.constructor | SMIETNIK/tank_test.c:22-35 | Starts stopped and idle with nothing issued. |
| TankTest.Test.EnterPhase | SMIETNIK/tank_test.c:38-42 | The phase changes and its clock restarts at now. |
| TankTest.Test.Start | SMIETNIK/tank_test.c:44-63 | The state becomes `Started`. |
| TankTest.Test.Tick | SMIETNIK/tank_test.c:65-125 | The state and issued commands become those of `Next`. |
| TankTest.Test.KeepAlive | SMIETNIK/tank_test.c:73-79 | Issues the current phase's command, unchanged. |
| TankTest.Test.IsRunning | SMIETNIK/tank_test.c:127-130 | Reports whether the test is running. |
| TankTest.Test.Abort | SMIETNIK/tank_test.c:132-137 | The state becomes `Aborted` and a stop is issued. |
| LunaFilter.InsertPermutes | Core/Src/tf_luna_i2c.c:65-68 | Inserting a value into a sequence gives a permutation of the sequence plus the value. |
| LunaFilter.InsertKeepsSorted | Core/Src/tf_luna_i2c.c:65-68 | Inserting into a sorted sequence keeps it sorted. |
| LunaFilter.InsertionSortCorrect | Core/Src/tf_luna_i2c.c:64-69 | Insertion sort returns a sorted permutation of its input. |
| LunaFilter.SortedUnique | Core/Src/tf_luna_i2c.c:64-70 | Two sorted permutations of the same samples are equal, so the median does not depend on how the sort is done. |
| LunaFilter.Median | Core/Src/tf_luna_i2c.c:60-71 | The median is one of the samples. |
| LunaFilter.MedianOfSortedArrangement | Core/Src/tf_luna_i2c.c:60-70 | The median is element n/2 of every sorted arrangement of the samples. |
| LunaFilter.MedianRejectsSpike | Core/Src/tf_luna_i2c.c:70 | A single outlier among three readings (100, 900, 102) is rejected: the median is 102. |
| LunaFilter.Mean | Core/Src/tf_luna_i2c.c:73-78 | The mean r is the floor of the average: r·n ≤ sum < (r+1)·n. |
| LunaFilter.MeanBetween | Core/Src/tf_luna_i2c.c:73-78 | The mean lies between the smallest and the largest sample. |
| LunaFilter.MedianU16 | Core/Src/tf_luna_i2c.c:60-71 | The array code returns `Median` of the first n samples and leaves the sample ring unmodified. |
| LunaFilter.CopyPrefix | Core/Src/tf_luna_i2c.c:62-63 | The scratch buffer holds exactly the first n samples. |
| LunaFilter.SortInPlace | Core/Src/tf_luna_i2c.c:64-69 | The in-place loop leaves the scratch prefix equal to `InsertionSort` of its old contents. |
| LunaFilter.InsertStep | Core/Src/tf_luna_i2c.c:65-68 | One outer iteration inserts element i into the sorted prefix 0..i−1. |
| LunaFilter.OpenHole | Core/Src/tf_luna_i2c.c:67 | The inner loop shifts the larger elements up by one and stops at the insertion point. |
| LunaFilter.MeanU16 | Core/Src/tf_luna_i2c.c:73-78 | The loop returns `Mean` of the first n samples, and the 32-bit sum never overflows. |
| LunaFilter.MedianWindow | Core/Src/tf_luna_i2c.c:88-91 | The median window is forced into 1..capacity and made odd: an odd window inside that range is kept, an even one is lowered by one, 0 becomes 1, and an oversized one becomes the (odd) capacity. |
| LunaFilter.AverageWindow | Core/Src/tf_luna_i2c.c:93-95 | The average window is forced into 1..capacity: a window inside that range is kept, 0 becomes 1, and an oversized one becomes the capacity. |
| LunaFilter.ApplyOffset | Core/Src/tf_luna_i2c.c:189-196 | The calibrated distance is the distance plus the offset when that fits in 0..65535; otherwise it is 0 below that range and 65535 above it. |
| LunaFilter.ApplyOffsetMonotone | Core/Src/tf_luna_i2c.c:189-196 | A larger offset never gives a smaller calibrated distance, and a zero offset leaves the distance unchanged. |
| LunaFilter.FirstSome | Core/Src/tf_luna_i2c.c:165-166 | Any index it returns marks a successful try with every earlier try failed. When it returns none, every try failed. |
| LunaFilter.FirstSomeIs | Core/Src/tf_luna_i2c.c:165-166 | When try k is the first that succeeded, the retry loop reports exactly k. |
| LunaFilter.Ring.constructor | Core/Src/tf_luna_i2c.c:47-48 | An empty ring: zero samples, count and index. |
| LunaFilter.Ring.Reset | TEMPOREK/tf_luna_i2c.c:65-66 | Every sample, the count, the index and the last outputs become 0. |
| LunaFilter.Ring.Update | Core/Src/tf_luna_i2c.c:83-114 | The sample is stored at the index, count becomes min(count+1, capacity), and the index advances mod capacity. The outputs are the median and mean over the first min(window, count) slots. |
| LunaCore.Outcome | Core/Src/tf_luna_i2c.c:159-176 | No bus gives zeros. All tries failing gives a zero raw distance with the previous filter outputs and frameReady false. Success gives the little-endian raw registers and the filter outputs with frameReady true. frameReady holds exactly when there is a bus and some try succeeded. |
| LunaCore.Sensor.constructor | Core/Src/tf_luna_i2c.c:47-48 | No handle and an empty filter. |
| LunaCore.Sensor.Init | Core/Src/tf_luna_i2c.c:31-32 | Only the bus handle is stored, as given. |
| LunaCore.Sensor.ReadGeneric | Core/Src/tf_luna_i2c.c:117-176 | The result is `Outcome`. The filter advances by one sample on success and is unchanged on failure. |
| LunaCore.Sensor.Read | Core/Src/tf_luna_i2c.c:179-219 | As `ReadGeneric`, with the side's offset applied to the distance by `ApplyOffset`. |
| LunaCore.FallbackRepeatsLastFilter | Core/Src/tf_luna_i2c.c:170-175 | After a failed read, the reported filter outputs are the previous ones. |
| LunaCore.SuccessReportsRawRegisters | Core/Src/tf_luna_i2c.c:128-142 | After a successful read, the raw distance and amplitude are the little-endian decodes of the register bytes read. |
| LunaTemporek.FrameValid | TEMPOREK/tf_luna_i2c.c:147-157 | Accepts exactly the 9-byte frames that start 0x59 0x59 and whose last byte is the low byte of the sum of bytes 0..7. |
| LunaTemporek.EncodeFrame | TEMPOREK/tf_luna_i2c.c:5-7 | Every distance, strength and temperature encodes to a valid frame whose distance and strength fields decode back to the values given. |
| LunaTemporek.ChecksumCatchesOneByte | TEMPOREK/tf_luna_i2c.c:152-156 | Changing any single payload byte (2..7) of a valid frame makes it invalid. |
| LunaTemporek.FindFrom | TEMPOREK/tf_luna_i2c.c:187-194 | The search returns the first offset at which a valid frame starts, or none. |
| LunaTemporek.Resync | TEMPOREK/tf_luna_i2c.c:185-195 | Over 18 received bytes, the result is the first offset at which a frame starts (`FindFrame`). Any offset found is at most 9 and holds a valid frame. |
| LunaTemporek.ResyncFindsSlippedFrame | TEMPOREK/tf_luna_i2c.c:184-194 | A valid frame slipped by k ≤ 9 bytes, with no earlier frame start, is found. |
| LunaTemporek.TryOutcome | TEMPOREK/tf_luna_i2c.c:160-198 | The memory read first, then the 9-byte receive, then the resync: the first that yields a valid frame is used, and any frame returned is valid. |
| LunaTemporek.TryRead | TEMPOREK/tf_luna_i2c.c:160-198 | Success exactly when there is a bus and some path yields a frame. Otherwise the previous frame is kept. |
| LunaTemporek.Outcome | TEMPOREK/tf_luna_i2c.c:201-260 | No bus gives the empty result. If every try fails, the result is the previous filter outputs with frameReady false; otherwise it is the updated filter outputs with frameReady true. frameReady holds exactly when there is a bus and some try yields a frame. |
| LunaTemporek.Sensor.constructor | TEMPOREK/tf_luna_i2c.c:51-52 | No handle and an empty filter. |
| LunaTemporek.Sensor.Init | TEMPOREK/tf_luna_i2c.c:55-64 | Stores the handle as given (possibly null) and resets the filter. |
| LunaTemporek.Sensor.ResetFilters | TEMPOREK/tf_luna_i2c.c:65-66 | The filter is zeroed. Nothing else changes. |
| LunaTemporek.Sensor.ReadGeneric | TEMPOREK/tf_luna_i2c.c:201-260 | The result is `Outcome` over five tries. Distance and strength come from bytes 2-3 and 4-5. The filter is unchanged on failure. |
| LunaTemporek.Sensor.Read | TEMPOREK/tf_luna_i2c.c:263-280 | As `ReadGeneric`, with the side's offset applied by `ApplyOffset`. |
| LunaTemporek.CleanFrameDecodes | TEMPOREK/tf_luna_i2c.c:229-231 | A clean frame on the first try is reported with its own distance and strength. |
| Tcs.GainToReg | Core/Src/tcs3472.c:73-82 | 1x, 4x, 16x and 60x map to CONTROL codes 0..3. Any other gain maps to the 4x code 0x01. |
| Tcs.GainToRegInjective | Core/Src/tcs3472.c:73-82 | Distinct valid gains give distinct register codes. |
| Tcs.NextGain | Core/Src/tcs3472.c:192-203 | Auto-gain moves at most one level: down when Clear is above the high threshold, up when below the low one, and unchanged in between. An unknown gain goes to 16x when too bright and is kept when too dark. |
| Tcs.Thresholds | Core/Src/tcs3472.c:182-187 | After the source's sanity clamps and rounding, both thresholds lie in 0..2^32−1 and the band is at least 1310 counts (2 % of full scale) wide, whatever percentages are configured. |
| Tcs.DefaultThresholds | Core/Src/tcs3472.c:39-40 | The shipped 0.60 and 0.70 give 39321 and 45875. |
| Tcs.GainStepsUndo | Core/Src/tcs3472.c:193-203 | Below 60x, a dark step (up one level) followed by a bright step (down one level) returns to the gain it started from. |
| Tcs.DarkReachesMaxGain | Core/Src/tcs3472.c:198-202 | In steady darkness, three steps take any gain to 60x, and it stays there. |
| Tcs.ReadRaw | Core/Src/tcs3472.c:100-116 | The four channels are the little-endian words of the 8 bytes read. A missing bus or a failed transfer gives zeros. |
| Tcs.ReadRawRoundTrip | Core/Src/tcs3472.c:111-114 | Encoding four channel values as bytes and reading them back gives the values. |
| Tcs.Side.constructor | Core/Src/tcs3472.c:54-55 | The zeroed per-side state: no bus, gain code 0 (1x), EMA uninitialised, no register writes. |
| Tcs.Side.SetGain | Core/Src/tcs3472.c:119-134 | No write when the gain is unchanged. Otherwise exactly one CONTROL write of `GainToReg(gain)`, and the gain is stored. |
| Tcs.Side.Config | Core/Src/tcs3472.c:137-155 | With a bus, ENABLE 0x03, ATIME and CONTROL are written in that order. Only this side's gain and EMA flag are reset. |
| Tcs.Side.Init | Core/Src/tcs3472.c:158-169 | Stores the handle, and with a bus writes ENABLE, ATIME and CONTROL; the configured gain is stored and the EMA is uninitialised. |
| Tcs.Side.Process | Core/Src/tcs3472.c:175-214 | With a bus, the raw channels are `ReadRaw`'s, the gain becomes `NextGain` of the Clear count, a changed gain is written to CONTROL once, and the EMA is marked initialised. Without a bus nothing changes and zeros are returned. |
| DebugUart.RingUsed | Core/Src/debug_uart.c:49 | The bytes queued, (head + N − tail) mod N: always below N, 0 exactly when head equals tail, and tail advanced by that count reaches head. |
| DebugUart.RingUsedNext | Core/Src/debug_uart.c:100-101 | Advancing the head when the ring is not full raises the count by one. |
| DebugUart.RingUsedPop | Core/Src/debug_uart.c:261 | Advancing the tail by a span of at most the used count lowers the count by that span. |
| DebugUart.RingFree | Core/Src/debug_uart.c:50 | One slot stays empty: used + free = N − 1. |
| DebugUart.Chunk | Core/Src/debug_uart.c:67 | A nonempty ring's transmit span is nonempty, no longer than the queue, and does not run past the end of the buffer. |
| DebugUart.UsedAsWritten | Core/Src/debug_uart.c:49 | The source's formula, `(head − tail)` in unsigned 32-bit arithmetic taken mod N. Its result is below N. |
| DebugUart.UsedAsWrittenAgrees | Core/Src/debug_uart.c:49 | For a size that divides 2^32, the source's formula equals the true count. |
| DebugUart.UsedAsWrittenWrongForSizeThree | Core/Src/debug_uart.c:49 | For N = 3, head 0 and tail 1, the source's formula gives 0 bytes where 2 are queued. |
| DebugUart.RingContents | Core/Src/debug_uart.c:26-28 | The queued bytes, read from tail to head around the ring, number exactly `RingUsed`. |
| DebugUart.RingPush | Core/Src/debug_uart.c:100-101 | Storing at head and advancing it appends the byte to the queued contents. |
| DebugUart.RingPop | Core/Src/debug_uart.c:261 | Advancing the tail by k drops the first k queued bytes. |
| DebugUart.RingSpan | Core/Src/debug_uart.c:67-73 | The transmit span is exactly the front of the queued contents. |
| DebugUart.TxQueue.constructor | Core/Src/debug_uart.c:23-39 | An empty idle queue without a UART. |
| DebugUart.TxQueue.Init | Core/Src/debug_uart.c:113-126 | Stores the UART handle and empties the ring, the counters and the busy flag. |
| DebugUart.TxQueue.TryKick | Core/Src/debug_uart.c:56-80 | When idle with data queued, starts an interrupt-driven transfer of a span equal to the front of the queue. A failed start stays idle and keeps the tail. Otherwise nothing changes. |
| DebugUart.TxQueue.Write | Core/Src/debug_uart.c:86-108 | Without a UART, or with no data, nothing changes. Otherwise min(len, free) bytes are queued in order, the free space shrinks by that much, the rest are added to the drop counter (mod 2^32), and the return is the number accepted. An idle queue starts sending exactly when the start succeeds and data is queued, and the span it sends is the front of the queue. |
| DebugUart.TxQueue.Enqueue | Core/Src/debug_uart.c:93-104 | The accepted prefix is appended to the queue, and the dropped count grows by the rest. |
| DebugUart.TxQueue.Push | Core/Src/debug_uart.c:100-102 | One byte is appended to the queue. |
| DebugUart.TxQueue.Callback | Core/Src/debug_uart.c:256-267 | Ignores other UARTs. Otherwise the finished span moves from the queue to the delivered bytes, and the next span is tried. A started span is the front of the remaining queue. |
| DebugUart.TxQueue.Retire | Core/Src/debug_uart.c:260-264 | The active span is removed from the front of the queue and the busy flag cleared. |
| DebugUart.TxQueue.Print | Core/Src/debug_uart.c:129-134 | Writes the text and then as much of CR LF as still fits. Whatever does not fit is added to the drop counter. Without a UART nothing is queued. |
| DebugUart.TxQueue.Dropped | Core/Src/debug_uart.c:152-155 | Reports the drop counter. |
| DebugUart.TxQueue.RefreshDropCache | Core/Src/debug_uart.c:184-189 | The cached drop count is refreshed exactly when 2000 ms have elapsed since the last refresh. |
| Ssd1306.PixelByteBits | Core/Src/ssd1306.c:218-220 | Setting a pixel turns on bit b and clearing it turns that bit off. Every other bit of the byte is kept. |
| Ssd1306.Index | Core/Src/ssd1306.c:217 | The byte index of any on-screen pixel lies inside the 1024-byte buffer. |
| Ssd1306.DrawPixelOnlyThatPixel | Core/Src/ssd1306.c:214-221 | Drawing pixel (x, y) gives exactly that pixel the colour and leaves every other pixel unchanged, so off-screen coordinates change nothing. |
| Ssd1306.FontIndex | Core/Src/ssd1306.c:263-265 | Characters 0x20..0x7E start at 5·(c − 0x20) in the font, and all others are drawn as '?'. The five font bytes always lie within the 475-byte table. |
| Ssd1306.Glyph | Core/Src/ssd1306.c:270-275 | A glyph is its five font columns followed by a blank column. |
| Ssd1306.GlyphColumn | Core/Src/ssd1306.c:271-275 | Column i of a glyph is font byte 5·index + i for i < 5, and 0 for i = 5. |
| Ssd1306.DrawCharSpec | Core/Src/ssd1306.c:260-276 | For page ≥ 8 or x > 122 the buffer is unchanged. Otherwise the six bytes from page·128 + x become the glyph. |
| Ssd1306.DrawCharByte | Core/Src/ssd1306.c:266-275 | A character changes only the six bytes of its cell. |
| Ssd1306.TextStaysInPlace | Core/Src/ssd1306.c:288-297 | Text never changes a byte outside its page row or before its start column; an off-screen page changes nothing. |
| Ssd1306.TextGlyphAt | Core/Src/ssd1306.c:293-296 | When none of the first i+1 characters is NUL and x + 6i ≤ 122, the cell of the i-th character holds its glyph after drawing. |
| Ssd1306.ChunksShape | Core/Src/ssd1306.c:162-178 | Each block is 0x40 followed by at most 128 data bytes. The payloads concatenate to the data, and there are ⌈n/128⌉ blocks. |
| Ssd1306.FullBufferIsEightBlocks | Core/Src/ssd1306.c:167-177 | The 1024-byte frame goes out as eight blocks of 129 bytes. |
| Ssd1306.ChunkAt | Core/Src/ssd1306.c:171-176 | Block k carries data bytes 128k up to min(128k + 128, n). |
| Ssd1306.Display.constructor | Core/Src/ssd1306.c:36 | A 1024-byte buffer, all zero. |
| Ssd1306.Display.Clear | Core/Src/ssd1306.c:208-211 | All 1024 bytes become 0. |
| Ssd1306.Display.DrawPixel | Core/Src/ssd1306.c:214-221 | The buffer changes as drawing one pixel does (`DrawPixelOnlyThatPixel`), with a nonzero colour turning it on. |
| Ssd1306.Display.DrawHLine | Core/Src/ssd1306.c:224-234 | Exactly the pixels of row y from min(x0, x1) to max(x0, x1), clipped to column 127, are turned on. Every other pixel keeps its value. An off-screen row changes nothing. |
| Ssd1306.Display.DrawChar | Core/Src/ssd1306.c:260-281 | The buffer becomes `DrawCharSpec` of the old buffer. |
| Ssd1306.Display.DrawTextAt | Core/Src/ssd1306.c:288-297 | Null text changes nothing. Otherwise the buffer is the text drawn from column x, with the placement `TextGlyphAt` and `TextStaysInPlace` state. |
| Ssd1306.Display.DrawText | Core/Src/ssd1306.c:283-286 | As `DrawTextAt` from column 0. |
| Ssd1306.SendData | Core/Src/ssd1306.c:162-178 | The transfers sent are exactly the blocks `Chunks` describes, in order. |

Calls the model does not define (the HAL, `HAL_GetTick`, I²C and UART transfers) appear as parameters or as entries in ghost logs.

## Left out

- The tank drive's float arithmetic (EMA, track scale, `clampf`) is modelled on exact reals; float rounding is not modelled.
- `Tank_Update`'s `if (!C)` guard is not a separate case: the configuration is a constant field that is always present.
- The tank setters require the class invariant (targets within ±100), which the constructor and `Init` establish and every method keeps.
- ESC_MapSpeedToUs, ESC_WriteUs and the throttle map: not modelled. `motor_test.c`'s writes are recorded as the speed sent to both channels.
- The PWM start in `ESC_Init` and the `HAL_Delay` in `ESC_ArmNeutral` (and between TF-Luna tries) are hardware timing, so they are left out.
- The TCS3472 EMA smoothing, the saturation flag, the gain-multiplier compensation and the `OnGainChange` hook are left out; they need float state.
- `tcs_atime_from_ms` uses floats, so the ATIME byte is a parameter.
- Tcs.Thresholds: requires lo < 1000.0, since the source's `uint32_t` cast has no defined result for larger floats.
- Tcs.Side.Process: returns the raw reading with the stepped gain, not the smoothed output, because the EMA is not modelled.
- The TF-Luna temperature, `round_01`, the ambient estimate with its 25 °C fallback and `temp_scale` are float computations, so they are left out.
- LunaCore.Sensor.Read: the offsets are modelled as int16 values, as declared, hence its requires on the offset range.
- The SSD1306 init, update and contrast command sequences are fixed byte lists: only the chunked data transfer is modelled.
- OLED_Panel_ShowSensors, DebugUART_SensorsDual, the Printf family, `term_clear` and the jitter printout are text formatting, so they are left out.
- Interrupt masking (`ENTER_CRIT`) and concurrency between the UART callback and writers are left out: the callback is modelled as running between calls.
- The definition of DEBUG_UART_RB_SIZE is not part of this model, so the ring size is a parameter of at most 0x10000.
- Characters are modelled as their unsigned byte values.
- Tank_SetSpeed, TankDrive_Update, Sensors_UpdateAll, OLED_Panel_Update and DebugUART_Refresh are not part of this model, so the dispatchers' calls to them are recorded as events.
- Scheduler.App is not composed with the modelled drive and sensor classes. Its drive task records `Tank_Update` and `DriveTest_Tick` (Core/Src/main.c:262-263) as events instead of stepping TankDrive.Tank and DriveTest.Test. The TF-Luna and TCS3472 reads (Core/Src/main.c:269-276) enter as parameters instead of calls to LunaCore.Sensor and Tcs.Side. So the dispatcher's effect on the drive and sensor state is stated only by ordering and stamps.
- Every `HAL_GetTick` read within one tick is modelled as the same `now`. The source reads the clock again in places: the per-side gate in `apply_neutral_gate_one` (Core/Src/tank_drive.c:179), `mt_set_targets` (SMIETNIK/motor_test.c:42) and `tt_phase` (SMIETNIK/tank_test.c:41). A millisecond that passes between those reads is not modelled.
- The drivers use clock readings, bus results and received bytes, which are hardware inputs: the model takes them as parameters.

## Findings

| source | as written | input that shows it | evidently intended | confidence | as-written member | corrected member |
|---|---|---|---|---|---|---|
| Core/Src/debug_uart.c:49 | `(s_head - s_tail) % DEBUG_UART_RB_SIZE` computed in unsigned arithmetic | ring size 3, head 0, tail 1: reports 0 bytes queued where 2 are | `(head + size - tail) % size` | low: the definition of DEBUG_UART_RB_SIZE is not part of this model, and the formula is right for power-of-two sizes; not executed | DebugUart.UsedAsWrittenWrongForSizeThree | DebugUart.RingUsed |
