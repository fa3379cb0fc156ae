/** The CPU-GPU clock offset estimator of FlashCamPLL::getGPUoffset. Its
    function-local statics become the fields of GpuOffsetEstimator; the two
    CPU clock readings and the GPU clock query of each pass are injected as
    a Bracket per pass. */
module OffsetEstimator {
  import opened Numeric

  /** Widest accepted CPU bracket around a GPU clock query, in microseconds. */
  const MAX_BRACKET: int := 150
  /** Pass bound while no offset is known (the stored offset is 0). */
  const FIRST_MAX_ITER: nat := 50
  /** Pass bound once an offset is known. */
  const MAX_ITER: nat := 5
  /** Weight of a new sample in the moving average (the float 0.1). */
  const RATE: real := 0.1

  /** One pass of the retry loop: CPU time before, GPU time, CPU time after (microseconds). */
  datatype Bracket = Bracket(cpu1: u64, gpu: u64, cpu2: u64)

  /** The stored estimate: offset (CPU minus GPU) and its accuracy interval. */
  datatype Estimate = Estimate(offset: i64, interval: u64)

  /** Width of a bracket, an unsigned 64-bit difference. */
  function Width(b: Bracket): (w: u64)
    ensures b.cpu1 <= b.cpu2 ==> w == b.cpu2 - b.cpu1
    ensures b.cpu2 < b.cpu1 ==> w == TWO_TO_64 - (b.cpu1 - b.cpu2)
  {
    Wrap64(b.cpu2 - b.cpu1)
  }

  /** A bracket is tight when its unsigned width is at most MAX_BRACKET: a clock that
      went backwards is rejected unless it wrapped almost all the way round. */
  function Tight(b: Bracket): (t: bool)
    ensures b.cpu1 <= b.cpu2 ==> (t <==> b.cpu2 - b.cpu1 <= MAX_BRACKET)
    ensures b.cpu2 < b.cpu1 ==> (t <==> TWO_TO_64 - MAX_BRACKET <= b.cpu1 - b.cpu2)
  {
    Width(b) <= MAX_BRACKET
  }

  /** The offset one bracket measures, an unsigned difference stored as int64. */
  function SampleOffset(b: Bracket): (s: i64)
    ensures -TWO_TO_63 <= b.cpu1 - b.gpu < TWO_TO_63 ==> s == b.cpu1 - b.gpu
  {
    var v := b.cpu1 - b.gpu;
    if -TWO_TO_63 <= v < TWO_TO_63 then SignedDifference(v); ToInt64(Wrap64(v))
    else ToInt64(Wrap64(v))
  }

  /** Pass bound of a call: the zero offset doubles as the "no estimate yet" sentinel. */
  function MaxIter(offset: i64): (m: nat)
    ensures MAX_ITER <= m <= FIRST_MAX_ITER
    ensures m == FIRST_MAX_ITER <==> offset == 0
  {
    if offset == 0 then FIRST_MAX_ITER else MAX_ITER
  }

  /** The iteration counter when the retry loop stops, once pass n has run: it
      stops after a tight bracket, or after pass maxIter + 1. */
  function ExitFrom(readings: nat -> Bracket, maxIter: nat, n: nat): (r: nat)
    requires 1 <= n <= maxIter + 1
    ensures n <= r <= maxIter + 1
    decreases maxIter + 1 - n
  {
    if Tight(readings(n - 1)) || n == maxIter + 1 then n
    else ExitFrom(readings, maxIter, n + 1)
  }

  /** The iteration counter when the retry loop of a call stops. */
  function ExitIteration(readings: nat -> Bracket, maxIter: nat): (r: nat)
    ensures 1 <= r <= maxIter + 1
    ensures Tight(readings(0)) ==> r == 1
    ensures (forall j :: 0 <= j < maxIter ==> !Tight(readings(j))) ==> r == maxIter + 1
  {
    ExitFromIsFirstTight(readings, maxIter, 1);
    ExitFrom(readings, maxIter, 1)
  }

  /** A call adopts a sample only when the loop stops strictly below the pass bound. */
  function Adopted(readings: nat -> Bracket, maxIter: nat): (a: bool)
    ensures a ==> 2 <= maxIter && Tight(readings(ExitIteration(readings, maxIter) - 1))
  {
    ExitFromIsFirstTight(readings, maxIter, 1);
    ExitIteration(readings, maxIter) < maxIter
  }

  /** The loop stops on the first tight bracket, unless the pass bound runs out first. */
  lemma {:induction false} ExitFromIsFirstTight(readings: nat -> Bracket, maxIter: nat, n: nat)
    requires 1 <= n <= maxIter + 1
    ensures var r := ExitFrom(readings, maxIter, n);
            (Tight(readings(r - 1)) || r == maxIter + 1) &&
            forall j :: n - 1 <= j < r - 1 ==> !Tight(readings(j))
    decreases maxIter + 1 - n
  {
    if !(Tight(readings(n - 1)) || n == maxIter + 1) {
      ExitFromIsFirstTight(readings, maxIter, n + 1);
    }
  }

  /** A call adopts a sample exactly when one of its first maxIter - 1 brackets is
      tight: a tight bracket on pass maxIter still ends the loop but is discarded. */
  lemma AdoptedIff(readings: nat -> Bracket, maxIter: nat)
    ensures Adopted(readings, maxIter) <==>
            exists j :: 0 <= j < maxIter - 1 && Tight(readings(j))
  {
    ExitFromIsFirstTight(readings, maxIter, 1);
    var r := ExitIteration(readings, maxIter);
    if Adopted(readings, maxIter) {
      assert Tight(readings(r - 1));
    }
  }

  /** As written, a tight bracket first met on pass maxIter ends the loop without
      being adopted. */
  lemma TightLastPassDiscarded(readings: nat -> Bracket, maxIter: nat)
    requires maxIter >= 1
    requires forall j :: 0 <= j < maxIter - 1 ==> !Tight(readings(j))
    requires Tight(readings(maxIter - 1))
    ensures ExitIteration(readings, maxIter) == maxIter
    ensures !Adopted(readings, maxIter)
  {
    ExitFromIsFirstTight(readings, maxIter, 1);
  }

  /** The retry loop: query the clocks until a bracket is tight or the pass counter
      exceeds the bound. */
  method RetryQuery(readings: nat -> Bracket, maxIter: nat) returns (iter: nat, last: Bracket)
    ensures iter == ExitIteration(readings, maxIter)
    ensures last == readings(iter - 1)
  {
    last := readings(0);
    iter := 1;
    while !Tight(last) && iter <= maxIter
      invariant 1 <= iter <= maxIter + 1
      invariant last == readings(iter - 1)
      invariant ExitFrom(readings, maxIter, iter) == ExitIteration(readings, maxIter)
      decreases maxIter + 1 - iter
    {
      last := readings(iter);
      iter := iter + 1;
    }
  }

  /** One step of the moving average, the float result truncated back to an integer.
      The result never leaves the range between the old value and the sample. */
  function Blend(current: int, sample: int): (r: int)
    ensures current <= sample ==> current <= r <= sample
    ensures sample <= current ==> sample <= r <= current
  {
    var v := (1.0 - RATE) * current as real + RATE * sample as real;
    if current <= sample then TruncBetween(v, current, sample); Trunc(v)
    else TruncBetween(v, sample, current); Trunc(v)
  }

  /** The moving average never moves away from the sample; it moves strictly closer
      while it is at least ten microseconds away. */
  lemma BlendApproaches(current: int, sample: int)
    ensures var r := Blend(current, sample);
            (current <= sample ==> sample - r <= sample - current) &&
            (sample <= current ==> r - sample <= current - sample)
    ensures current + 10 <= sample ==> current < Blend(current, sample)
    ensures sample + 10 <= current ==> Blend(current, sample) < current
  {
    var v := (1.0 - RATE) * current as real + RATE * sample as real;
    if current + 10 <= sample {
      TruncBetween(v, current + 1, sample);
    } else if sample + 10 <= current {
      TruncBetween(v, sample, current - 1);
    }
  }

  /** What one call of getGPUoffset does to the stored estimate. */
  function EstimateStep(e: Estimate, readings: nat -> Bracket): (r: Estimate)
    ensures !Adopted(readings, MaxIter(e.offset)) ==> r == e
    ensures Adopted(readings, MaxIter(e.offset)) && e.offset == 0 ==>
              r.interval <= MAX_BRACKET
  {
    var maxIter := MaxIter(e.offset);
    var n := ExitIteration(readings, maxIter);
    if n < maxIter then
      var b := readings(n - 1);
      ExitFromIsFirstTight(readings, maxIter, 1);
      if e.offset == 0 then Estimate(SampleOffset(b), Width(b))
      else Estimate(Blend(e.offset, SampleOffset(b)), Blend(e.interval, Width(b)))
    else e
  }

  /** The bracket a call adopts: the first tight one. */
  function AdoptedBracket(readings: nat -> Bracket, maxIter: nat): Bracket
  {
    readings(ExitIteration(readings, maxIter) - 1)
  }

  /** An adopted bracket is the first tight bracket of the call. */
  lemma AdoptedBracketIsFirstTight(readings: nat -> Bracket, maxIter: nat)
    requires Adopted(readings, maxIter)
    ensures Tight(AdoptedBracket(readings, maxIter))
    ensures forall j :: 0 <= j < ExitIteration(readings, maxIter) - 1 ==> !Tight(readings(j))
  {
    ExitFromIsFirstTight(readings, maxIter, 1);
  }

  /** The first adoption copies the sample; later ones blend; failure keeps the estimate. */
  lemma EstimateStepCases(e: Estimate, readings: nat -> Bracket)
    ensures var m := MaxIter(e.offset);
            var b := AdoptedBracket(readings, m);
            var r := EstimateStep(e, readings);
            (Adopted(readings, m) && e.offset == 0 ==>
               r == Estimate(SampleOffset(b), Width(b))) &&
            (Adopted(readings, m) && e.offset != 0 ==>
               r == Estimate(Blend(e.offset, SampleOffset(b)), Blend(e.interval, Width(b)))) &&
            (!Adopted(readings, m) ==> r == e)
  {
  }

  /** Once an offset is known, a call retries at most five passes' worth and the
      new offset lies between the old one and the adopted sample. */
  lemma LaterCallsBlend(e: Estimate, readings: nat -> Bracket)
    requires e.offset != 0
    ensures MaxIter(e.offset) == MAX_ITER
    ensures var r := EstimateStep(e, readings);
            var s := SampleOffset(AdoptedBracket(readings, MAX_ITER));
            Adopted(readings, MAX_ITER) ==>
              (e.offset <= s ==> e.offset <= r.offset <= s) &&
              (s <= e.offset ==> s <= r.offset <= e.offset)
  {
  }

  /** With a clock pair whose every bracket measures the same offset d and is tight,
      repeated calls after the first never move the estimate away from d, and move it
      strictly closer while it is ten microseconds or more away. */
  lemma ConvergesToConstantOffset(e: Estimate, readings: nat -> Bracket, d: i64)
    requires e.offset != 0
    requires forall j :: Tight(readings(j)) && SampleOffset(readings(j)) == d
    ensures var r := EstimateStep(e, readings).offset;
            (e.offset <= d ==> e.offset <= r <= d) &&
            (d <= e.offset ==> d <= r <= e.offset) &&
            (e.offset + 10 <= d ==> e.offset < r) &&
            (d + 10 <= e.offset ==> r < e.offset)
  {
    assert ExitIteration(readings, MAX_ITER) == 1;
    BlendApproaches(e.offset, d);
  }

  /** getGPUoffset's persistent state. */
  class GpuOffsetEstimator {
    var offset: i64
    var offsetInterval: u64
    /** Number of calls so far (the `update` static). */
    var calls: nat

    /** The statics start at zero. */
    constructor ()
      ensures offset == 0 && offsetInterval == 0 && calls == 0
    {
      offset, offsetInterval, calls := 0, 0, 0;
    }

    function Current(): Estimate
      reads this
    {
      Estimate(offset, offsetInterval)
    }

    /** Estimate the CPU-GPU offset, returning it with its accuracy interval. */
    method GetGpuOffset(readings: nat -> Bracket) returns (off: i64, interval: u64)
      modifies this
      ensures Current() == EstimateStep(old(Current()), readings)
      ensures off == offset && interval == offsetInterval
      ensures calls == old(calls) + 1
    {
      var maxIter := MAX_ITER;
      if offset == 0 {
        maxIter := FIRST_MAX_ITER;
      }
      var iter, last := RetryQuery(readings, maxIter);
      if iter < maxIter {
        var dOffset := SampleOffset(last);
        // The signed copy of the width changes nothing: an adopted bracket is tight.
        var dInterval := Width(last);
        if offset == 0 {
          offset, offsetInterval := dOffset, dInterval;
        } else {
          offset, offsetInterval := Blend(offset, dOffset), Blend(offsetInterval, dInterval);
        }
      }
      calls := calls + 1;
      off, interval := offset, offsetInterval;
    }
  }
}
