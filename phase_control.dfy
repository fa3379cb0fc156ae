/** The per-frame phase controller of FlashCamPLL::update: the arithmetic that
    turns a frame timestamp into a phase error and a new target frame rate, and
    the 1/256 Hz quantisation that decides whether the camera port is written. */
module PhaseControl {
  import opened Numeric

  /** Denominator of the rational frame rate handed to the camera port. */
  const FPS_DENOMINATOR: int := 256

  /** The locked-loop values that start() stores in the settings and update() reads. */
  datatype Lock = Lock(period: real, divider: nat, startTime: u64, pllOffset: i32, fpsFreq: real)
  {
    /** What update() needs of a lock: start() has run and derived a positive period. */
    predicate Ready() { period > 0.0 && divider >= 1 }
  }

  /** Pulse period per camera frame: the PWM period divided by the frame divider. */
  function FpsPeriod(pllPeriod: real, divider: nat): (r: real)
    requires divider >= 1
    ensures pllPeriod > 0.0 ==> 0.0 < r <= pllPeriod
  {
    pllPeriod / divider as real
  }

  /** A GPU-clock timestamp moved into the CPU clock domain (uint64 + int64). */
  function ToCpuTime(gpuTime: u64, offset: i64): (r: u64)
    ensures Wrap64(r - offset) == gpuTime
  {
    Wrap64(gpuTime + offset)
  }

  /** The intermediate values of one phase measurement. */
  datatype PhaseSample = PhaseSample(k: nat, lastPulse: u64, rawDiff: i64, diff: int)

  /** Number of whole pulses since the PWM was started (a float truncated to uint32). */
  function PulseIndex(frameCpu: u64, startTime: u64, fpsPeriod: real): (k: nat)
    requires fpsPeriod > 0.0
    ensures k as real * fpsPeriod <= Wrap64(frameCpu - startTime) as real
    ensures Wrap64(frameCpu - startTime) as real < (k + 1) as real * fpsPeriod
  {
    var x := Wrap64(frameCpu - startTime) as real;
    var q := x / fpsPeriod;
    assert x == q * fpsPeriod;
    var k := q.Floor;
    assert k as real * fpsPeriod <= q * fpsPeriod;
    assert q < (k + 1) as real;
    assert ((k + 1) as real - q) * fpsPeriod > 0.0;
    assert q * fpsPeriod < (k + 1) as real * fpsPeriod;
    assert x < (k + 1) as real * fpsPeriod;
    k
  }

  /** Timestamp of the k-th pulse: the start time plus the truncated float k * period. */
  function LastPulse(startTime: u64, k: nat, fpsPeriod: real): (t: u64)
    requires fpsPeriod > 0.0
    ensures startTime + (k as real * fpsPeriod).Floor < TWO_TO_64 ==>
              startTime <= t &&
              (t - startTime) as real <= k as real * fpsPeriod < (t - startTime + 1) as real
  {
    var kp := k as real * fpsPeriod;
    assert 0.0 <= kp;
    var f := kp.Floor;
    assert f as real <= kp < f as real + 1.0;
    Wrap64(startTime + f)
  }

  /** Raw phase difference: unsigned arithmetic read back as int64. */
  function RawDiff(frameCpu: u64, lastPulse: u64, pllOffset: i32): (d: i64)
    ensures -TWO_TO_63 <= frameCpu - lastPulse + pllOffset < TWO_TO_63 ==>
              d == frameCpu - lastPulse + pllOffset
  {
    var v := frameCpu - lastPulse + pllOffset;
    if -TWO_TO_63 <= v < TWO_TO_63 then SignedDifference(v); ToInt64(Wrap64(v))
    else ToInt64(Wrap64(v))
  }

  /** The half-period fold: a difference above half a period means the frame came
      before its pulse, so one period is subtracted (the float result truncated
      back into an int64). A difference of exactly half a period is kept. */
  function Fold(diff: int, fpsPeriod: real): (r: int)
    requires fpsPeriod > 0.0
    ensures 2.0 * diff as real <= fpsPeriod ==> r == diff
    ensures 2.0 * diff as real > fpsPeriod ==>
              diff as real - fpsPeriod - 1.0 < r as real < diff as real - fpsPeriod + 1.0
    ensures 0 <= diff && diff as real < fpsPeriod + 1.0 ==>
              -fpsPeriod / 2.0 < r as real <= fpsPeriod / 2.0
  {
    if 2.0 * diff as real > fpsPeriod then Trunc(diff as real - fpsPeriod) else diff
  }

  /** Phase of a frame (already in CPU time) relative to the pulse train. */
  function Phase(frameCpu: u64, startTime: u64, fpsPeriod: real, pllOffset: i32): (s: PhaseSample)
    requires fpsPeriod > 0.0
    ensures 2.0 * s.rawDiff as real <= fpsPeriod ==> s.diff == s.rawDiff
    ensures 2.0 * s.rawDiff as real > fpsPeriod ==>
              s.rawDiff as real - fpsPeriod - 1.0 < s.diff as real < s.rawDiff as real - fpsPeriod + 1.0
  {
    var k := PulseIndex(frameCpu, startTime, fpsPeriod);
    var rawDiff := RawDiff(frameCpu, LastPulse(startTime, k, fpsPeriod), pllOffset);
    var diff := Fold(rawDiff, fpsPeriod);
    PhaseSample(k, LastPulse(startTime, k, fpsPeriod), rawDiff, diff)
  }

  /** The proportional update rule: a quarter of the locked frequency per whole period
      of error. A frame after its pulse speeds the camera up, a frame before it slows
      the camera down, and a frame in phase leaves the locked frequency. */
  function TargetRate(fpsFreq: real, diff: int, fpsPeriod: real): (r: real)
    requires fpsPeriod > 0.0
    ensures diff == 0 ==> r == fpsFreq
    ensures fpsFreq > 0.0 ==> (fpsFreq < r <==> 0 < diff) && (r < fpsFreq <==> diff < 0)
  {
    var e := diff as real / fpsPeriod;
    assert 0 < diff <==> 0.0 < e by {
      assert diff as real == e * fpsPeriod;
    }
    assert diff < 0 <==> e < 0.0 by {
      assert diff as real == e * fpsPeriod;
    }
    fpsFreq + (fpsFreq / 4.0) * e
  }

  /** The new target frame rate that update() derives for a frame. */
  function NewFrameRate(bufferTime: u64, offset: i64, lock: Lock): (r: real)
    requires lock.Ready()
    ensures var d := Phase(ToCpuTime(bufferTime, offset), lock.startTime,
                           FpsPeriod(lock.period, lock.divider), lock.pllOffset).diff;
            lock.fpsFreq > 0.0 ==> (lock.fpsFreq < r <==> 0 < d) && (r < lock.fpsFreq <==> d < 0)
  {
    var fpsPeriod := FpsPeriod(lock.period, lock.divider);
    var frameCpu := ToCpuTime(bufferTime, offset);
    TargetRate(lock.fpsFreq, Phase(frameCpu, lock.startTime, fpsPeriod, lock.pllOffset).diff, fpsPeriod)
  }

  /** A frame rate in units of 1/256 Hz, as stored in an unsigned int. */
  function Quantise(f: real): (q: int)
    ensures 0.0 <= f ==> 0 <= q && q as real <= f * 256.0 < q as real + 1.0
  {
    Trunc(f * FPS_DENOMINATOR as real)
  }

  /** The rational MMAL frame rate written to the camera port. */
  datatype Rational = Rational(num: int, den: int)

  /** Whether update() writes the port, and what. */
  datatype RateUpdate = Unchanged | Changed(rate: real, fraction: Rational)

  /** Suppression of writes below the 1/256 Hz resolution. */
  function Decide(current: real, target: real): (u: RateUpdate)
    ensures u.Unchanged? <==> Quantise(current) == Quantise(target)
    ensures u.Unchanged? && 0.0 <= current && 0.0 <= target ==>
              -1.0 / 256.0 < current - target < 1.0 / 256.0
    ensures u.Changed? ==> u.rate == target && u.fraction.den == FPS_DENOMINATOR
    ensures u.Changed? && 0.0 <= target ==>
              u.fraction.num as real / 256.0 <= target < (u.fraction.num + 1) as real / 256.0
  {
    if Quantise(current) == Quantise(target) then Unchanged
    else Changed(target, Rational(Quantise(target), FPS_DENOMINATOR))
  }

  /** With a frame after the start time, the raw difference is the distance to the
      last pulse edge plus the phase offset; the distance lies below one period plus
      one microsecond (the extra microsecond is the truncation of k * period). */
  lemma RawDiffRange(frameCpu: u64, startTime: u64, fpsPeriod: real, pllOffset: i32)
    requires 0.0 < fpsPeriod && 0 <= pllOffset
    requires fpsPeriod + pllOffset as real < (TWO_TO_63 - 1) as real
    requires startTime <= frameCpu
    ensures var s := Phase(frameCpu, startTime, fpsPeriod, pllOffset);
            s.lastPulse <= frameCpu && pllOffset <= s.rawDiff &&
            s.rawDiff as real < fpsPeriod + 1.0 + pllOffset as real
  {
    var x := frameCpu - startTime;
    assert Wrap64(frameCpu - startTime) == x;
    var k := PulseIndex(frameCpu, startTime, fpsPeriod);
    var kp := k as real * fpsPeriod;
    assert 0.0 <= kp;
    var f := kp.Floor;
    assert 0 <= f <= x;
    assert LastPulse(startTime, k, fpsPeriod) == startTime + f;
    assert x as real < kp + fpsPeriod;
    assert (x - f) as real < fpsPeriod + 1.0;
    assert RawDiff(frameCpu, startTime + f, pllOffset) == x - f + pllOffset;
  }

  /** One fold brings a difference that starts at a phase offset of at most half a
      period, and lies below one period plus one microsecond beyond it, into
      (-period/2, period/2]. */
  lemma FoldWithinHalfPeriod(diff: int, fpsPeriod: real, pllOffset: int)
    requires 0.0 < fpsPeriod && 0 <= pllOffset && 2.0 * pllOffset as real <= fpsPeriod
    requires pllOffset <= diff && diff as real < fpsPeriod + 1.0 + pllOffset as real
    ensures -fpsPeriod / 2.0 < Fold(diff, fpsPeriod) as real <= fpsPeriod / 2.0
  {
    if 2.0 * diff as real > fpsPeriod {
      var r := Fold(diff, fpsPeriod);
      assert r as real < diff as real - fpsPeriod + 1.0;
      assert r < pllOffset + 1;
    }
  }

  /** The fold invariant: with a phase offset between zero and half a period and a
      frame after the start time, the folded difference lies in (-period/2, period/2]. */
  lemma FoldInvariant(frameCpu: u64, startTime: u64, fpsPeriod: real, pllOffset: i32)
    requires 0.0 < fpsPeriod && 0 <= pllOffset && 2.0 * pllOffset as real <= fpsPeriod
    requires fpsPeriod + pllOffset as real < (TWO_TO_63 - 1) as real
    requires startTime <= frameCpu
    ensures var d := Phase(frameCpu, startTime, fpsPeriod, pllOffset).diff;
            -fpsPeriod / 2.0 < d as real <= fpsPeriod / 2.0
  {
    RawDiffRange(frameCpu, startTime, fpsPeriod, pllOffset);
    FoldWithinHalfPeriod(Phase(frameCpu, startTime, fpsPeriod, pllOffset).rawDiff, fpsPeriod, pllOffset);
  }

  /** A negative phase offset can leave the difference below -period/2. */
  lemma NegativeOffsetEscapes()
    ensures Phase(1000, 0, 1000.0, -800).diff == -800
  {
    assert PulseIndex(1000, 0, 1000.0) == 1;
  }

  /** A phase offset above half a period can leave the difference above period/2. */
  lemma LargeOffsetEscapes()
    ensures Phase(1900, 0, 1000.0, 900).diff == 800
  {
    assert PulseIndex(1900, 0, 1000.0) == 1 by {
      assert (1900 as real / 1000.0) == 1.9;
    }
  }

  /** The update rule moves the rate by at most an eighth of the locked frequency
      when the error is within half a period. */
  lemma RateWithinEighth(fpsFreq: real, diff: int, fpsPeriod: real)
    requires fpsPeriod > 0.0 && fpsFreq >= 0.0
    requires -fpsPeriod / 2.0 < diff as real <= fpsPeriod / 2.0
    ensures 0.875 * fpsFreq <= TargetRate(fpsFreq, diff, fpsPeriod) <= 1.125 * fpsFreq
  {
    var e := diff as real / fpsPeriod;
    assert diff as real == e * fpsPeriod;
    assert -0.5 <= e <= 0.5;
    var u := fpsFreq / 4.0;
    assert u * e <= u * 0.5;
    assert u * (-0.5) <= u * e;
  }

  /** Every frame of a ready lock yields a rate within 12.5% of the locked frequency
      (phase offset between zero and half a frame period, frame after the start
      time, no clock wrap-around). */
  lemma NewFrameRateBounded(bufferTime: u64, offset: i64, lock: Lock)
    requires lock.Ready() && lock.fpsFreq >= 0.0
    requires 0 <= lock.pllOffset && 2.0 * lock.pllOffset as real <= FpsPeriod(lock.period, lock.divider)
    requires lock.period + lock.pllOffset as real < (TWO_TO_63 - 1) as real
    requires lock.startTime <= ToCpuTime(bufferTime, offset)
    ensures 0.875 * lock.fpsFreq <= NewFrameRate(bufferTime, offset, lock) <= 1.125 * lock.fpsFreq
  {
    var p := FpsPeriod(lock.period, lock.divider);
    var t := ToCpuTime(bufferTime, offset);
    FoldInvariant(t, lock.startTime, p, lock.pllOffset);
    RateWithinEighth(lock.fpsFreq, Phase(t, lock.startTime, p, lock.pllOffset).diff, p);
  }

  /** Worked example: period 1000, start 0, frame at 1500. The difference is exactly
      half a period, is not folded, and the rate rises by 12.5%. */
  lemma WorkedExampleHalfPeriod()
    ensures var s := Phase(1500, 0, 1000.0, 0);
            s.k == 1 && s.lastPulse == 1000 && s.diff == 500
    ensures TargetRate(1000.0, 500, 1000.0) == 1125.0
  {
    assert PulseIndex(1500, 0, 1000.0) == 1 by {
      assert (1500 as real / 1000.0) == 1.5;
    }
  }

  /** Worked example: period 1000, start 0, frame at 1600. The difference 600 is
      folded to -400 and the rate drops by 10%. */
  lemma WorkedExampleFolded()
    ensures var s := Phase(1600, 0, 1000.0, 0);
            s.k == 1 && s.lastPulse == 1000 && s.rawDiff == 600 && s.diff == -400
    ensures TargetRate(1000.0, -400, 1000.0) == 900.0
  {
    assert PulseIndex(1600, 0, 1000.0) == 1 by {
      assert (1600 as real / 1000.0) == 1.6;
    }
  }

  /** A frame exactly on the k-th pulse edge (whole-microsecond period, zero phase
      offset, no clock wrap-around) is measured in phase: k pulses have elapsed, the
      last pulse is the frame itself, and the difference is zero. */
  lemma OnPulseEdge(startTime: u64, k: nat, period: nat)
    requires period >= 1 && startTime + k * period < TWO_TO_64
    ensures var s := Phase(startTime + k * period, startTime, period as real, 0);
            s.k == k && s.lastPulse == startTime + k * period && s.rawDiff == 0 && s.diff == 0
  {
    var p := period as real;
    var x := k * period;
    var t := startTime + x;
    assert Wrap64(t - startTime) == x;
    assert x as real == k as real * p;
    assert x as real / p == k as real;
    assert PulseIndex(t, startTime, p) == k;
    assert (k as real * p).Floor == x;
    assert LastPulse(startTime, k, p) == t;
    assert RawDiff(t, t, 0) == 0;
  }

  /** A frame that lands exactly on a pulse edge keeps the locked frequency as the target. */
  lemma InPhaseKeepsLockedRate(bufferTime: u64, offset: i64, lock: Lock, k: nat, period: nat)
    requires lock.Ready() && lock.pllOffset == 0
    requires period >= 1 && FpsPeriod(lock.period, lock.divider) == period as real
    requires ToCpuTime(bufferTime, offset) == lock.startTime + k * period
    ensures NewFrameRate(bufferTime, offset, lock) == lock.fpsFreq
  {
    OnPulseEdge(lock.startTime, k, period);
  }

  /** Rates a full 1/256 Hz apart are always written to the port. */
  lemma WrittenBeyondResolution(current: real, target: real)
    requires 0.0 <= current && 0.0 <= target
    requires current - target >= 1.0 / 256.0 || target - current >= 1.0 / 256.0
    ensures Decide(current, target).Changed?
  {
  }
}
