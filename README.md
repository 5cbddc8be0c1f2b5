# Phase shifter for a 40 kHz acoustic levitator

A model of the Arduino firmware that drives two 40 kHz square waves from
timer 1 (outputs OC1A and OC1B) and keeps a commanded phase offset between
them. Two active-low buttons turn the offset up or down at 5 degrees per
second; a third, debounced, resets it to zero.

- `timer_command.dfy`, module `TimerCommand`: the timer constants
  (`Top` = 199 from 16 MHz and 40 kHz, a period of 200 ticks) and
  `updatePhase` as the pure function `UpdatePhase`. It wraps the angle into
  [0, 360) the way C's `fmod` plus the negative correction does, converts it
  to a tick offset, and returns the three register values (counter start,
  channel A threshold, channel B threshold) as one `Registers` value instead
  of writing `TCNT1`, `OCR1A` and `OCR1B`.
- `phase_control.dfy`, module `PhaseControl`: `loop` as the method
  `PhaseController.Step` on a class whose fields are the firmware's globals
  `current_phase`, `reset_pressed` and `last_shift_time`. `Step` is proved
  against the pure transition `Next`, and the class invariant is "reset
  latched implies angle exactly 0". `Run` folds `Next` over a sequence of
  iterations. The millisecond clock is a 32-bit unsigned value (`u32`) and
  elapsed time is computed with wrap-around subtraction.

The clock reading (`millis()`), the three raw pin levels and the reset level
read again after the settle delay are parameters of `Step`; nothing is read
from hardware.

## Model

| member | source | states |
|---|---|---|
| TimerCommand.TimerConstants | ArduinoCode.c:3-6 | `TOP` is 199, the period is 200 ticks, a degree is 5/9 of a tick, half a period is 100 ticks |
| TimerCommand.WholeTurns | ArduinoCode.c:21-22 | angles that differ by an integer number of 360-degree turns denote the same angle |
| TimerCommand.Trunc | ArduinoCode.c:21 | truncation towards zero: for a non-negative quotient the largest integer not above it, for a negative one the smallest integer not below it |
| TimerCommand.FMod360 | ArduinoCode.c:21 | C `fmod` by 360: result has the sign of the angle, magnitude below 360, and differs from it by whole turns |
| TimerCommand.Normalize | ArduinoCode.c:21-22 | the wrapped angle lies in [0, 360) and differs from the commanded angle by a whole number of turns |
| TimerCommand.SameAngleInOneTurn | ArduinoCode.c:21-22 | two angles in [0, 360) that differ by whole turns are equal |
| TimerCommand.NormalizeIsTheWrappedAngle | ArduinoCode.c:21-22 | the wrapped angle is the unique angle in [0, 360) equivalent to the commanded one |
| TimerCommand.NormalizeSameAngle | ArduinoCode.c:21-22 | angles that differ by whole turns wrap to the same value |
| TimerCommand.OffsetTicks | ArduinoCode.c:24 | the offset is in [0, `TOP`] and is the tick whose interval contains wrapped angle times ticks-per-degree |
| TimerCommand.UpdatePhase | ArduinoCode.c:20-31 | counter start is the tick offset of the angle, in [0, 200); channel A threshold is always `TOP`; channel B threshold is in [0, 200) and exactly half a period (100 ticks) after the counter start modulo 200 |
| TimerCommand.UpdatePhasePeriodic | ArduinoCode.c:21-30 | the three register values are unchanged when the angle moves by any whole number of turns |
| TimerCommand.HalfTurnTicks | ArduinoCode.c:24-30 | turning a wrapped angle by 180 degrees moves its tick offset by 100 modulo 200 |
| TimerCommand.HalfTurnGivesChannelB | ArduinoCode.c:24-30 | the channel B threshold equals the counter offset of the angle plus 180 degrees |
| TimerCommand.UpdatePhaseExamples | ArduinoCode.c:20-30 | 0 degrees gives (0, 199, 100), 90 degrees gives (50, 199, 150), -30 degrees gives (183, 199, 83) |
| PhaseControl.ElapsedMs | ArduinoCode.c:66-67 | elapsed milliseconds are the unique value below 2^32 that takes the previous reading to the current one on the wrapping clock; plain difference when the clock did not wrap |
| PhaseControl.ElapsedSeconds | ArduinoCode.c:67 | elapsed seconds are non-negative and are the elapsed millisecond count divided by 1000 |
| PhaseControl.Turned | ArduinoCode.c:87-91 | up alone turns the angle forward by 5 degrees per second of `dt`, down alone backward by the same, both or neither leave it unchanged |
| PhaseControl.Next | ArduinoCode.c:65-92 | one iteration records the clock reading and preserves "latched implies angle 0" |
| PhaseControl.Run | ArduinoCode.c:65-92 | over any sequence of iterations the latch invariant is preserved and the last clock reading is remembered |
| PhaseControl.LatchInvariantFromPowerUp | ArduinoCode.c:15-17 | starting from the power-up state (angle 0, unlatched, time 0) the latch invariant holds after every iteration |
| PhaseControl.NextDebounce | ArduinoCode.c:75-83 | a reset level equal to the latch leaves latch and angle to the direction logic; a differing one makes the re-read level the latch; a re-read low level zeroes the angle |
| PhaseControl.LatchedIgnoresDirection | ArduinoCode.c:86-92 | while latched after debounce, the direction buttons do not affect the iteration |
| PhaseControl.UnlatchedIntegrates | ArduinoCode.c:86-92 | unlatched: up alone adds 5 degrees per elapsed second, down alone subtracts it, both or neither keep the angle |
| PhaseControl.UpThenDownCancels | ArduinoCode.c:86-92 | an up-only iteration followed by a down-only iteration of equal duration returns the angle to its prior value |
| PhaseControl.UnconfirmedResetIgnored | ArduinoCode.c:75-83 | a reset press not confirmed by the re-read behaves exactly like no press |
| PhaseControl.PhaseController.constructor | ArduinoCode.c:15-17 | the globals start as angle 0, unlatched, time 0, which satisfies the latch invariant |
| PhaseControl.PhaseController.Step | ArduinoCode.c:65-94 | one call of `loop`: the new globals are `Next` of the old ones, the latch invariant is kept, `last_shift_time` becomes `now`, and the returned registers are `UpdatePhase` of the new angle |

## Left out

- `setup()` (pin modes, timer 1 CTC mode and toggle-on-match bits): one-time hardware configuration with no behaviour to state.
- The `noInterrupts()`/`interrupts()` critical section around the register writes: atomicity against the running timer is concurrency; the model returns the three values as one record.
- `digitalRead`, `millis`, `delay(10)` and `delay(1)`: I/O and timing. The levels and the clock reading are parameters of `Step`, and the delays are dropped.
- IEEE single-precision rounding of `fmod`, `TICS_PER_DEGREE`, the millisecond-to-seconds conversion and `5.0 * delta_t`: the angle is an exact real. The `% (TOP + 1)` after the tick conversion, which in floats absorbs a wrapped angle rounded up to 360.0, is kept but is the identity on exact reals.
- Pin-number constants: configuration only.
- While latched, a raw high reset reading whose re-read is low takes the latch branch again (ArduinoCode.c:77-79) and assigns 0.0 to the angle once more; by the latch invariant the angle is already 0, so the state is unchanged. The model does the same.
