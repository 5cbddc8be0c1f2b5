/**
 * Per-iteration control step of the phase shifter.
 *
 * Each iteration measures the milliseconds since the previous one (32-bit
 * unsigned arithmetic, so a wrap of the millisecond clock is harmless),
 * debounces the reset button, integrates the commanded angle at +/-5 degrees
 * per second while exactly one direction button is held and reset is not
 * latched, and recomputes the timer registers. The buttons are active-low;
 * the clock reading and the pin levels are parameters of the step.
 */
module PhaseControl {
  import opened TimerCommand

  /** An `unsigned long` of the target: 32 bits. */
  newtype u32 = x: int | 0 <= x < 0x1_0000_0000

  const ClockModulus: int := 0x1_0000_0000

  /** Level read from a digital input with pull-up: a closed button reads Low. */
  datatype Level = Low | High

  predicate Pressed(level: Level)
  {
    level == Low
  }

  /**
   * The pin levels one iteration reads: the two direction buttons, the reset
   * button, and the reset button read again after the settle delay (only
   * consulted when the first reset reading differs from the latch).
   */
  datatype Readings = Readings(up: Level, down: Level, reset: Level, resetSettled: Level)

  /** The state the loop keeps between iterations. */
  datatype ControlState = ControlState(phase: real, resetPressed: bool, lastShiftTime: u32)

  /** The state at power-up. */
  const Initial: ControlState := ControlState(0.0, false, 0)

  /** Whenever reset is latched, the commanded angle is exactly zero. */
  predicate LatchInvariant(s: ControlState)
  {
    s.resetPressed ==> s.phase == 0.0
  }

  /**
   * Milliseconds elapsed from `last` to `now` with unsigned 32-bit
   * subtraction: the unique count below 2^32 that takes `last` to `now`
   * on the wrapping clock.
   */
  function ElapsedMs(now: u32, last: u32): (ms: u32)
    ensures (last as int + ms as int) % ClockModulus == now as int
    ensures last <= now ==> ms == now - last
    ensures now < last ==> ms as int == ClockModulus - (last - now) as int
  {
    ((now as int - last as int) % ClockModulus) as u32
  }

  /** Elapsed time between iterations, in seconds. */
  function ElapsedSeconds(now: u32, last: u32): (seconds: real)
    ensures 0.0 <= seconds
    ensures seconds * 1000.0 == ElapsedMs(now, last) as real
  {
    ElapsedMs(now, last) as real / 1000.0
  }

  /**
   * The angle after `dt` seconds of the direction buttons: up alone turns it
   * forward at 5 degrees per second, down alone backward, and both or
   * neither hold it.
   */
  function Turned(phase: real, up: Level, down: Level, dt: real): (turned: real)
    ensures Pressed(up) && !Pressed(down) ==> turned - phase == 5.0 * dt
    ensures Pressed(down) && !Pressed(up) ==> phase - turned == 5.0 * dt
    ensures Pressed(up) == Pressed(down) ==> turned == phase
  {
    if Pressed(up) && !Pressed(down) then phase + 5.0 * dt
    else if Pressed(down) && !Pressed(up) then phase - 5.0 * dt
    else phase
  }

  /**
   * The state after one iteration of the loop. It remembers the clock
   * reading it took, and it preserves the latch invariant.
   */
  function Next(s: ControlState, now: u32, r: Readings): (t: ControlState)
    ensures t.lastShiftTime == now
    ensures LatchInvariant(s) ==> LatchInvariant(t)
  {
    var dt := ElapsedSeconds(now, s.lastShiftTime);
    var latched := if Pressed(r.reset) != s.resetPressed then Pressed(r.resetSettled) else s.resetPressed;
    var zeroed := if Pressed(r.reset) != s.resetPressed && Pressed(r.resetSettled) then 0.0 else s.phase;
    var phase := if latched then zeroed else Turned(zeroed, r.up, r.down, dt);
    ControlState(phase, latched, now)
  }

  /** One iteration of the loop, as seen from outside. */
  datatype Tick = Tick(now: u32, readings: Readings)

  /**
   * The state after a sequence of iterations. The latch invariant holds
   * throughout, and the last clock reading is remembered.
   */
  function Run(s: ControlState, ticks: seq<Tick>): (t: ControlState)
    ensures LatchInvariant(s) ==> LatchInvariant(t)
    ensures ticks != [] ==> t.lastShiftTime == ticks[|ticks| - 1].now
    ensures ticks == [] ==> t == s
    decreases |ticks|
  {
    if ticks == [] then s
    else Run(Next(s, ticks[0].now, ticks[0].readings), ticks[1..])
  }

  /** From power-up on, the latch invariant holds after every iteration. */
  lemma LatchInvariantFromPowerUp(ticks: seq<Tick>)
    ensures LatchInvariant(Run(Initial, ticks))
  {
  }

  /**
   * Debounce: a reset reading equal to the latch leaves the latch alone and
   * cannot zero the angle; a differing one makes the settled reading the
   * new latch; a settled reading of Low zeroes the angle.
   */
  lemma NextDebounce(s: ControlState, now: u32, r: Readings)
    ensures Pressed(r.reset) == s.resetPressed ==>
      Next(s, now, r).resetPressed == s.resetPressed &&
      Next(s, now, r).phase == (if s.resetPressed then s.phase else Turned(s.phase, r.up, r.down, ElapsedSeconds(now, s.lastShiftTime)))
    ensures Pressed(r.reset) != s.resetPressed ==> Next(s, now, r).resetPressed == Pressed(r.resetSettled)
    ensures Pressed(r.reset) != s.resetPressed && Pressed(r.resetSettled) ==> Next(s, now, r).phase == 0.0
  {
  }

  /** While reset is latched the direction buttons have no effect. */
  lemma LatchedIgnoresDirection(s: ControlState, now: u32, r: Readings, up: Level, down: Level)
    requires Next(s, now, r).resetPressed
    ensures Next(s, now, r) == Next(s, now, r.(up := up, down := down))
  {
  }

  /**
   * When unlatched, up alone adds 5 degrees per elapsed second, down alone
   * subtracts it, and both or neither leave the angle unchanged.
   */
  lemma UnlatchedIntegrates(s: ControlState, now: u32, r: Readings)
    requires !Next(s, now, r).resetPressed
    ensures var t := Next(s, now, r); var dt := ElapsedSeconds(now, s.lastShiftTime);
      && (Pressed(r.up) && !Pressed(r.down) ==> t.phase == s.phase + 5.0 * dt)
      && (Pressed(r.down) && !Pressed(r.up) ==> t.phase == s.phase - 5.0 * dt)
      && (Pressed(r.up) == Pressed(r.down) ==> t.phase == s.phase)
  {
  }

  /**
   * Holding up for some time and then down for the same time brings the
   * angle back where it was.
   */
  lemma UpThenDownCancels(s: ControlState, now1: u32, now2: u32, reset: Level, settled: Level)
    requires !s.resetPressed && reset == High
    requires ElapsedMs(now1, s.lastShiftTime) == ElapsedMs(now2, now1)
    ensures Next(Next(s, now1, Readings(Low, High, reset, settled)), now2, Readings(High, Low, reset, settled)).phase == s.phase
  {
  }

  /**
   * A reset press that has gone again when the settle delay ends changes
   * nothing: the iteration behaves as if reset had not been pressed.
   */
  lemma UnconfirmedResetIgnored(s: ControlState, now: u32, r: Readings)
    requires !s.resetPressed && Pressed(r.reset) && !Pressed(r.resetSettled)
    ensures Next(s, now, r) == Next(s, now, r.(reset := High))
  {
  }

  /**
   * The loop's global state. `Step` is one call of the loop body: it takes
   * the clock reading and pin levels as parameters and returns the register
   * values it commits instead of writing the timer.
   */
  class PhaseController {
    var currentPhase: real
    var resetPressed: bool
    var lastShiftTime: u32

    ghost predicate Valid()
      reads this
    {
      LatchInvariant(State())
    }

    function State(): ControlState
      reads this
    {
      ControlState(currentPhase, resetPressed, lastShiftTime)
    }

    constructor ()
      ensures Valid() && State() == Initial
    {
      currentPhase := 0.0;
      resetPressed := false;
      lastShiftTime := 0;
    }

    method Step(now: u32, up: Level, down: Level, reset: Level, resetSettled: Level) returns (regs: Registers)
      requires Valid()
      modifies this
      ensures Valid()
      ensures State() == Next(old(State()), now, Readings(up, down, reset, resetSettled))
      ensures lastShiftTime == now
      ensures regs == UpdatePhase(currentPhase)
    {
      var deltaT := ElapsedMs(now, lastShiftTime) as real / 1000.0;
      lastShiftTime := now;

      var upPressed := Pressed(up);
      var downPressed := Pressed(down);
      var currentReset := Pressed(reset);

      if currentReset != resetPressed {
        if Pressed(resetSettled) {
          resetPressed := true;
          currentPhase := 0.0;
        } else {
          resetPressed := false;
        }
      }

      if !resetPressed {
        if upPressed && !downPressed {
          currentPhase := currentPhase + 5.0 * deltaT;
        } else if downPressed && !upPressed {
          currentPhase := currentPhase - 5.0 * deltaT;
        }
      }

      regs := UpdatePhase(currentPhase);
    }
  }
}
