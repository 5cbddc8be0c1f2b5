/**
 * Timer command generator of the two-channel 40 kHz phase shifter.
 *
 * Timer 1 runs in CTC mode with period Top + 1 ticks and toggles both outputs
 * on compare match. A commanded phase angle (degrees, any real value) is
 * wrapped into [0, 360), converted to a tick count, and turned into the three
 * register values that are committed together: the counter start, the
 * channel A threshold and the channel B threshold (half a period further on).
 * The angle is an exact real here; the firmware uses single-precision floats.
 */
module TimerCommand {

  /** Input clock of the microcontroller, in Hz. */
  const CpuClockHz: int := 16000000

  /** Target output frequency, in Hz. */
  const OutputHz: int := 40000

  /** Compare value at which the counter wraps: each output toggles once per period. */
  const Top: int := CpuClockHz / (2 * OutputHz) - 1

  /**
   * Number of timer ticks in one counter period, which is half a cycle of
   * each toggled output; the commanded 360 degrees are mapped onto it.
   */
  const PeriodTicks: int := Top + 1

  /** Conversion factor from degrees to timer ticks. */
  const TicksPerDegree: real := PeriodTicks as real / 360.0

  /** The timer constants derived from 16 MHz and 40 kHz. */
  lemma TimerConstants()
    ensures Top == 199 && PeriodTicks == 200
    ensures TicksPerDegree == 5.0 / 9.0
    ensures PeriodTicks / 2 == 100
  {
  }

  /** `a` and `b` denote the same angle: they differ by a whole number of turns. */
  predicate SameAngle(a: real, b: real)
  {
    ((a - b) / 360.0).Floor as real == (a - b) / 360.0
  }

  /** Angles that differ by `turns` full turns denote the same angle. */
  lemma WholeTurns(a: real, b: real, turns: int)
    requires a - b == turns as real * 360.0
    ensures SameAngle(a, b)
  {
    assert (a - b) / 360.0 == turns as real;
  }

  /** Truncation towards zero, as C's conversions and `fmod` use it. */
  function Trunc(q: real): (n: int)
    ensures q >= 0.0 ==> 0 <= n && n as real <= q < n as real + 1.0
    ensures q < 0.0 ==> n <= 0 && n as real - 1.0 < q <= n as real
  {
    if q >= 0.0 then q.Floor else -((-q).Floor)
  }

  /**
   * C's `fmod(x, 360.0)`: the remainder of a division truncated towards zero,
   * so the result has the sign of `x` and a magnitude below 360.
   */
  function FMod360(x: real): (r: real)
    ensures x >= 0.0 ==> 0.0 <= r < 360.0
    ensures x < 0.0 ==> -360.0 < r <= 0.0
    ensures SameAngle(x, r)
  {
    var n := Trunc(x / 360.0);
    WholeTurns(x, x - n as real * 360.0, n);
    x - n as real * 360.0
  }

  /** The commanded angle wrapped into [0, 360): fmod, then +360 if negative. */
  function Normalize(phase: real): (r: real)
    ensures 0.0 <= r < 360.0
    ensures SameAngle(phase, r)
  {
    var m := FMod360(phase);
    if m < 0.0 then
      var k := ((phase - m) / 360.0).Floor;
      assert phase - m == k as real * 360.0;
      WholeTurns(phase, m + 360.0, k - 1);
      m + 360.0
    else
      m
  }

  /** Two angles in [0, 360) that denote the same angle are equal. */
  lemma SameAngleInOneTurn(a: real, b: real)
    requires 0.0 <= a < 360.0 && 0.0 <= b < 360.0
    requires SameAngle(a, b)
    ensures a == b
  {
    var k := ((a - b) / 360.0).Floor;
    assert a - b == k as real * 360.0;
  }

  /** The wrapped angle is the one angle in [0, 360) that denotes the same angle. */
  lemma NormalizeIsTheWrappedAngle(x: real, r: real)
    requires 0.0 <= r < 360.0
    requires SameAngle(x, r)
    ensures Normalize(x) == r
  {
    var a := Normalize(x);
    var i := ((x - a) / 360.0).Floor;
    var j := ((x - r) / 360.0).Floor;
    assert (a - r) / 360.0 == (j - i) as real;
    SameAngleInOneTurn(a, r);
  }

  /** Normalisation depends only on the angle, not on how many turns it includes. */
  lemma NormalizeSameAngle(x: real, y: real)
    requires SameAngle(x, y)
    ensures Normalize(x) == Normalize(y)
  {
    var a, b := Normalize(x), Normalize(y);
    var i := ((x - a) / 360.0).Floor;
    var j := ((y - b) / 360.0).Floor;
    var k := ((x - y) / 360.0).Floor;
    assert (a - b) / 360.0 == (k - i + j) as real;
    SameAngleInOneTurn(a, b);
  }

  /**
   * The counter offset, in ticks, of the commanded angle: the truncation of
   * the wrapped angle times TicksPerDegree, taken modulo the period.
   */
  function OffsetTicks(phase: real): (t: int)
    ensures 0 <= t <= Top
    ensures t as real <= Normalize(phase) * TicksPerDegree < t as real + 1.0
  {
    var n := Normalize(phase);
    assert TicksPerDegree == 5.0 / 9.0;
    (n * TicksPerDegree).Floor % PeriodTicks
  }

  /** The three register values written in one critical section. */
  datatype Registers = Registers(counter: int, compareA: int, compareB: int)

  /**
   * The register values for a commanded angle: the counter starts at the
   * offset, channel A toggles at Top and channel B half a period after the
   * offset, wrapped into the period.
   */
  function UpdatePhase(phase: real): (regs: Registers)
    ensures regs.counter == OffsetTicks(phase) && 0 <= regs.counter < PeriodTicks
    ensures regs.compareA == Top
    ensures 0 <= regs.compareB < PeriodTicks
    ensures (regs.compareB - regs.counter) % PeriodTicks == PeriodTicks / 2
  {
    var offset := OffsetTicks(phase);
    assert PeriodTicks == 200;
    assert (offset + PeriodTicks / 2) % PeriodTicks == if offset < 100 then offset + 100 else offset - 100;
    Registers(offset, Top, (offset + PeriodTicks / 2) % PeriodTicks)
  }

  /** The register values repeat every full turn of the commanded angle. */
  lemma UpdatePhasePeriodic(phase: real, turns: int)
    ensures UpdatePhase(phase + turns as real * 360.0) == UpdatePhase(phase)
  {
    var shifted := phase + turns as real * 360.0;
    assert (shifted - phase) / 360.0 == turns as real;
    assert SameAngle(shifted, phase);
    NormalizeSameAngle(shifted, phase);
    assert OffsetTicks(shifted) == OffsetTicks(phase);
  }

  /**
   * Channel B's threshold is the counter offset the generator would produce
   * for the angle turned by 180 degrees.
   */
  lemma HalfTurnGivesChannelB(phase: real)
    ensures OffsetTicks(phase + 180.0) == UpdatePhase(phase).compareB
  {
    var n := Normalize(phase);
    var h := if n < 180.0 then n + 180.0 else n - 180.0;
    var k := ((phase - n) / 360.0).Floor;
    if n < 180.0 {
      assert (phase + 180.0 - h) / 360.0 == k as real;
    } else {
      assert (phase + 180.0 - h) / 360.0 == (k + 1) as real;
    }
    NormalizeIsTheWrappedAngle(phase + 180.0, h);
    assert PeriodTicks == 200;
    var t := (n * TicksPerDegree).Floor;
    assert t == OffsetTicks(phase);
    HalfTurnTicks(n, h);
    var u := (h * TicksPerDegree).Floor;
    assert 0 <= u < PeriodTicks;
    assert OffsetTicks(phase + 180.0) == u % PeriodTicks == u;
    assert UpdatePhase(phase).compareB == (t + PeriodTicks / 2) % PeriodTicks;
  }

  /** Half a turn of wrapped angle is exactly half a period of ticks. */
  lemma HalfTurnTicks(n: real, h: real)
    requires 0.0 <= n < 360.0
    requires h == if n < 180.0 then n + 180.0 else n - 180.0
    ensures (h * TicksPerDegree).Floor == ((n * TicksPerDegree).Floor + PeriodTicks / 2) % PeriodTicks
  {
    assert PeriodTicks == 200;
    assert TicksPerDegree == 5.0 / 9.0;
    var t := (n * TicksPerDegree).Floor;
    assert 0 <= t < 200;
    if n < 180.0 {
      assert h * TicksPerDegree == n * TicksPerDegree + 100.0;
      assert t < 100;
    } else {
      assert h * TicksPerDegree == n * TicksPerDegree - 100.0;
      assert t >= 100;
    }
  }

  /** Worked examples: 0 degrees, 90 degrees and -30 degrees (330 after wrapping). */
  lemma UpdatePhaseExamples()
    ensures UpdatePhase(0.0) == Registers(0, 199, 100)
    ensures UpdatePhase(90.0) == Registers(50, 199, 150)
    ensures UpdatePhase(-30.0) == Registers(183, 199, 83)
  {
    NormalizeIsTheWrappedAngle(0.0, 0.0);
    NormalizeIsTheWrappedAngle(90.0, 90.0);
    assert (-30.0 - 330.0) / 360.0 == (-1) as real;
    NormalizeIsTheWrappedAngle(-30.0, 330.0);
  }
}
