/** The enabled path of FlashCamPLL::start: deriving the PWM registers and the
    PLL period from the frame rate, and the busy-wait that timestamps the moment
    the PWM clock starts. The two CPU clock readings around each pwmSetClock call
    are injected as a ClockPair per pass. */
module Calibration {
  import opened Numeric

  /** Base frequency of the PWM system, in Hz. */
  const RPI_BASE_FREQ: real := 19200000.0
  /** PWM clock divider: the smallest legal value. */
  const PWM_CLOCK: nat := 2
  /** Widest accepted span around pwmSetClock, in microseconds. */
  const MAX_LOCKTIME: int := 200
  /** Minimum time pwmSetClock takes before the PWM runs, in microseconds. */
  const CLOCK_LATENCY: int := 111

  /** What start() derives from the frame rate, the divider and the pulse width. */
  datatype PwmSetup = PwmSetup(
    target: real,       // PWM frequency, Hz
    range: nat,         // pwm_range register
    periodMs: real,     // PWM period, ms
    pulseWidth: real,   // clamped pulse width, ms
    dutyCycle: real,
    pulse: nat,         // pwm_pw register
    period: real,       // pll_period, us
    fpsFreq: real)      // pll_fpsfreq, Hz

  /** The pulse width, clamped first to the period and then to zero. */
  function ClampPulseWidth(pulseWidth: real, periodMs: real): (r: real)
    requires periodMs > 0.0
    ensures 0.0 <= r <= periodMs
    ensures 0.0 <= pulseWidth <= periodMs ==> r == pulseWidth
    ensures pulseWidth > periodMs ==> r == periodMs
    ensures pulseWidth < 0.0 ==> r == 0.0
  {
    var w := if pulseWidth > periodMs then periodMs else pulseWidth;
    if w < 0.0 then 0.0 else w
  }

  /** A duty cycle in [0, 1] applied to a range register never exceeds it. */
  lemma DutyWithinRange(dutyCycle: real, range: nat)
    requires 0.0 <= dutyCycle <= 1.0
    ensures 0 <= Trunc(dutyCycle * range as real) <= range
  {
    assert dutyCycle * range as real <= 1.0 * range as real;
    TruncBetween(dutyCycle * range as real, 0, range);
  }

  /** The register and PLL values of the enabled start path: the PWM runs at the
      frame rate divided by the divider (1/target = range * PWM_CLOCK / RPI_BASE_FREQ,
      the range truncated), the configured pulse width is clamped to the period and
      mapped to the range register as a duty cycle. */
  function Setup(framerate: real, divider: nat, pulseWidth: real): (s: PwmSetup)
    requires framerate > 0.0 && divider >= 1
    ensures s.target > 0.0 && s.target * divider as real == framerate
    ensures s.fpsFreq == framerate
    ensures s.range as real <= RPI_BASE_FREQ / (s.target * PWM_CLOCK as real) < (s.range + 1) as real
    ensures s.periodMs * s.target == 1000.0
    ensures s.period > 0.0 && s.period == 1000.0 * s.periodMs
    ensures s.pulseWidth == ClampPulseWidth(pulseWidth, s.periodMs)
    ensures s.dutyCycle * s.periodMs == s.pulseWidth
    ensures 0.0 <= s.dutyCycle <= 1.0
    ensures s.pulse as real <= s.dutyCycle * s.range as real < (s.pulse + 1) as real
    ensures s.pulse <= s.range
  {
    var target := framerate / divider as real;
    var range := Trunc(RPI_BASE_FREQ / (target * PWM_CLOCK as real));
    var periodMs := 1000.0 / target;
    var width := ClampPulseWidth(pulseWidth, periodMs);
    var dutyCycle := width / periodMs;
    assert dutyCycle <= 1.0 by {
      assert width == dutyCycle * periodMs;
    }
    var pulse := Trunc(dutyCycle * range as real);
    DutyWithinRange(dutyCycle, range);
    var period := 1000000.0 / target;
    assert period == 1000.0 * periodMs;
    PwmSetup(target, range, periodMs, width, dutyCycle, pulse, period, target * divider as real)
  }

  /** The two CPU clock readings of one calibration pass, in microseconds. */
  datatype ClockPair = ClockPair(before: u64, after: u64)

  /** Span of a pass, an unsigned 64-bit difference. */
  function Span(c: ClockPair): (s: u64)
    ensures c.before <= c.after ==> s == c.after - c.before
  {
    Wrap64(c.after - c.before)
  }

  /** A pass is accepted when its unsigned span is at most MAX_LOCKTIME. */
  function Accepts(c: ClockPair): (a: bool)
    ensures c.before <= c.after ==> (a <==> c.after - c.before <= MAX_LOCKTIME)
  {
    Span(c) <= MAX_LOCKTIME
  }

  /** Pass n (counted from 0) is the first accepted pass. */
  predicate IsFirstAccepted(readings: nat -> ClockPair, n: nat)
  {
    Accepts(readings(n)) && forall j :: 0 <= j < n ==> !Accepts(readings(j))
  }

  /** Some pass at or before an accepted one is the first accepted pass. */
  lemma {:induction false} FirstAcceptedExists(readings: nat -> ClockPair, i: nat)
    requires Accepts(readings(i))
    ensures exists n: nat :: n <= i && IsFirstAccepted(readings, n)
  {
    if exists j: nat :: j < i && Accepts(readings(j)) {
      var j: nat :| j < i && Accepts(readings(j));
      FirstAcceptedExists(readings, j);
    } else {
      assert IsFirstAccepted(readings, i);
    }
  }

  /** The first accepted pass, when the clock ever accepts one. */
  ghost function FirstAccepted(readings: nat -> ClockPair): (n: nat)
    requires exists i :: Accepts(readings(i))
    ensures IsFirstAccepted(readings, n)
  {
    var i :| Accepts(readings(i));
    FirstAcceptedExists(readings, i);
    var n: nat :| IsFirstAccepted(readings, n);
    n
  }

  /** The start time and its interval taken from the accepted pass: the known
      latency moves the start time forward and narrows the interval. */
  function CalibratedStart(c: ClockPair): (r: (u64, u64))
    ensures Wrap64(r.0 - c.before) == CLOCK_LATENCY
    ensures Wrap64(r.0 + r.1) == c.after
  {
    var start := Wrap64(c.before + CLOCK_LATENCY);
    var interval := Wrap64(Span(c) - CLOCK_LATENCY);
    WrapLeft(c.before + CLOCK_LATENCY, -(c.before as int));
    WrapLeft(c.before + CLOCK_LATENCY, interval);
    WrapLeft(Span(c) - CLOCK_LATENCY, c.before + CLOCK_LATENCY);
    WrapLeft(c.after - c.before, c.before);
    (start, interval)
  }

  /** The busy-wait: set the PWM clock until the span around it is at most
      MAX_LOCKTIME. It runs forever unless some pass is accepted. */
  method Calibrate(readings: nat -> ClockPair) returns (startTime: u64, startInterval: u64, iterations: nat)
    requires exists i :: Accepts(readings(i))
    ensures iterations >= 1 && iterations - 1 == FirstAccepted(readings)
    ensures (startTime, startInterval) == CalibratedStart(readings(iterations - 1))
  {
    ghost var g := FirstAccepted(readings);
    var t := readings(0);
    iterations := 1;
    while !Accepts(t)
      invariant 1 <= iterations <= g + 1
      invariant t == readings(iterations - 1)
      invariant forall j :: 0 <= j < iterations - 1 ==> !Accepts(readings(j))
      decreases g + 1 - iterations
    {
      t := readings(iterations);
      iterations := iterations + 1;
    }
    var tdiff := Span(t);
    startTime := Wrap64(t.before + CLOCK_LATENCY);
    startInterval := Wrap64(tdiff - CLOCK_LATENCY);
  }

  /** When the accepted span covers the latency, the calibrated window
      [startTime, startTime + startInterval] ends at the second reading and its
      width is at most MAX_LOCKTIME - CLOCK_LATENCY. */
  lemma CalibratedWindow(c: ClockPair)
    requires Accepts(c) && CLOCK_LATENCY <= Span(c)
    requires c.before <= c.after
    ensures var (start, interval) := CalibratedStart(c);
            start == c.before + CLOCK_LATENCY &&
            interval == Span(c) - CLOCK_LATENCY &&
            interval <= MAX_LOCKTIME - CLOCK_LATENCY &&
            start + interval == c.after
  {
    assert Span(c) == c.after - c.before;
  }

  /** A first pass whose span is exactly the latency gives an exact start time. */
  lemma ExactFirstPass(readings: nat -> ClockPair)
    requires readings(0).before <= readings(0).after
    requires readings(0).after - readings(0).before == CLOCK_LATENCY
    ensures FirstAccepted(readings) == 0
    ensures CalibratedStart(readings(0)) == (readings(0).after, 0)
  {
    assert Span(readings(0)) == CLOCK_LATENCY;
  }

  /** An accepted span shorter than the latency wraps the unsigned interval around. */
  lemma ShortSpanWraps(c: ClockPair)
    requires Span(c) < CLOCK_LATENCY
    ensures CalibratedStart(c).1 == TWO_TO_64 - (CLOCK_LATENCY - Span(c))
    ensures CalibratedStart(c).1 > TWO_TO_63
  {
  }
}
