# FlashCam PLL — a Dafny model

FlashCam keeps a hardware PWM flash pulse in phase with the frames of a Raspberry
Pi camera. It does this with a software phase-locked loop, `FlashCamPLL`. This
project models the loop and proves properties of it. The model covers four parts:

- **Offset estimator** (`getGPUoffset`, module `OffsetEstimator`). It brackets a
  GPU clock query between two CPU clock readings and retries until a bracket is
  at most 150 µs wide. The loop runs while `iter <= max_iter`, so a call makes
  up to 51 passes while the stored offset is 0 (no estimate yet) and up to 6
  passes once it is not; a bracket is used only when it was found in the first
  49, respectively 4, passes. The first sample it adopts is copied; later
  samples are blended in with an exponential moving average at rate 0.1. The
  function-local statics of the source become the fields of the class
  `GpuOffsetEstimator`, which the `Pll` object owns.
- **Start-up** (`start`, modules `Calibration` and `FlashCamPll`). It works out
  the PWM range and pulse registers, `pll_period` and `pll_fpsfreq` from the
  frame rate, the divider and the pulse width. Then it busy-waits until a
  `pwmSetClock` call is bracketed within 200 µs, and records the PWM start time
  and its accuracy interval.
- **Per-frame controller** (`update`, modules `PhaseControl` and `FlashCamPll`).
  It moves the frame timestamp into the CPU clock domain and measures its phase
  against the pulse train. The phase is folded into a half-period window and
  turned into a new target rate by the rule `f + (f/4)·(diff/period)`. The port
  is written only when the rate changes at 1/256 Hz resolution.
- **Lifecycle** (`start`/`stop`, class `FlashCamPll.Pll`). These are the guarded
  transitions of the `error` and `active` flags. `stop` hands the camera back
  its locked frame rate.

Floats are modelled as reals. Every float-to-integer conversion is written out
as truncation toward zero: `Numeric.Trunc` in general, and `.Floor` in
`PhaseControl.PulseIndex` and `PhaseControl.LastPulse`, whose arguments are never
negative, so that there the two agree. Unsigned 64-bit arithmetic is
written out as reduction modulo 2^64 (`Numeric.Wrap64`), and storing a uint64 in
an int64 as the two's-complement reading (`Numeric.ToInt64`). Clock readings are
injected as functions from the pass number to the microsecond readings of that
pass. The camera port's answer to a write is a parameter of `update`.

Three behaviours of the code worth knowing, all modelled as written:

- `update` does not check the `error` or `active` flags, so calling it before
  `start` is not rejected.
- The estimator's loop runs while `iter <= max_iter`, but a sample is adopted only
  when `iter < max_iter`. So a tight bracket first met on pass `max_iter` ends the
  loop and is thrown away (`OffsetEstimator.TightLastPassDiscarded`).
- A stored offset of exactly 0 is read as "no estimate yet" (the comment at
  FlashCamPLL.cpp:482 speaks of "the first time"). An estimate that reaches 0 is
  replaced outright by the next sample, and that call may retry 50 times.

`FlashCam_types.h` declares a settings struct without `pll_period`, `pll_fpsfreq`,
`pll_starttime` and `pll_startinterval`. The model follows the fields that
`FlashCamPLL.cpp` uses.

## Model

| member | source | states |
|---|---|---|
| `Numeric.Wrap64` | FlashCamPLL.cpp:125 | uint64 arithmetic: the result is the true value when it fits, and otherwise agrees with it modulo 2^64 |
| `Numeric.ToInt64` | FlashCamPLL.cpp:138 | a uint64 stored in an int64 keeps values below 2^63 and wraps back to the same uint64 |
| `Numeric.SignedDifference` | FlashCamPLL.cpp:502 | an unsigned 64-bit difference stored in an int64 is the true signed difference whenever that fits |
| `Numeric.Trunc` | FlashCamPLL.cpp:173-174 | float-to-integer conversion: never further from zero than the value, and within 1 of it |
| `PhaseControl.FpsPeriod` | FlashCamPLL.cpp:128 | the per-frame period is positive and at most the PWM period |
| `PhaseControl.ToCpuTime` | FlashCamPLL.cpp:124-125 | moving a GPU timestamp into CPU time by the offset can be undone by subtracting the offset |
| `PhaseControl.PulseIndex` | FlashCamPLL.cpp:131 | k is the number of whole periods elapsed: k·period ≤ t − start < (k+1)·period |
| `PhaseControl.LastPulse` | FlashCamPLL.cpp:135 | without wrap-around, the k-th pulse lies at or after the start time and at most 1 µs before the exact time start + k·period |
| `PhaseControl.RawDiff` | FlashCamPLL.cpp:138 | the raw difference is frame − last pulse + pll_offset whenever that fits in an int64 |
| `PhaseControl.Fold` | FlashCamPLL.cpp:140-144 | a difference of at most half a period is kept (the boundary is inclusive); a raw difference in [0, period+1) folds into (−period/2, period/2] |
| `PhaseControl.Phase` | FlashCamPLL.cpp:131-144 | the folded difference equals the raw one when at most half a period, and is the raw one less one period (within the 1 µs of truncation) otherwise |
| `PhaseControl.TargetRate` | FlashCamPLL.cpp:156-158 | a zero error keeps the locked frequency; for a positive locked frequency the rate rises exactly when the error is positive and falls exactly when it is negative |
| `PhaseControl.NewFrameRate` | FlashCamPLL.cpp:121-158 | the new rate moves away from pll_fpsfreq in the direction of the folded phase error of the frame, and stays at pll_fpsfreq when that error is zero |
| `PhaseControl.Quantise` | FlashCamPLL.cpp:173-174 | a rate in units of 1/256 Hz: q/256 ≤ f < (q+1)/256 for non-negative rates |
| `PhaseControl.Decide` | FlashCamPLL.cpp:172-193 | the port is left alone exactly when old and new rates quantise alike, which for non-negative rates means they are less than 1/256 Hz apart; otherwise the new rate is written as num/256 with num/256 ≤ rate < (num+1)/256 |
| `PhaseControl.RawDiffRange` | FlashCamPLL.cpp:131-138 | with a non-negative phase offset and a frame after the start, the last pulse is not after the frame and the raw difference lies in [pll_offset, period + 1 + pll_offset) |
| `PhaseControl.FoldWithinHalfPeriod` | FlashCamPLL.cpp:143-144 | one fold maps any difference in [off, period + 1 + off), for 0 ≤ off ≤ period/2, into (−period/2, period/2] |
| `PhaseControl.FoldInvariant` | FlashCamPLL.cpp:131-144 | with 0 ≤ pll_offset ≤ period/2 and a frame after the start, the folded difference lies in (−period/2, period/2] |
| `PhaseControl.NegativeOffsetEscapes` | FlashCamPLL.cpp:138-144 | a negative pll_offset can leave the difference below −period/2: period 1000, frame on a pulse, offset −800 gives −800 |
| `PhaseControl.LargeOffsetEscapes` | FlashCamPLL.cpp:138-144 | a pll_offset above half a period can leave the difference above period/2: period 1000, frame 900 after a pulse, offset 900 gives 800 |
| `PhaseControl.RateWithinEighth` | FlashCamPLL.cpp:156-168 | for an error within half a period, the new rate lies in [0.875·f, 1.125·f] of the locked frequency f |
| `PhaseControl.NewFrameRateBounded` | FlashCamPLL.cpp:117-168 | every frame of a started loop (0 ≤ pll_offset ≤ half a frame period, frame after the start) gives a target within 12.5% of pll_fpsfreq, whatever the previous frame rate |
| `PhaseControl.WorkedExampleHalfPeriod` | FlashCamPLL.cpp:131-158 | period 1000, start 0, frame 1500: k = 1, last pulse 1000, difference 500 (not folded), rate 1000 → 1125 |
| `PhaseControl.WorkedExampleFolded` | FlashCamPLL.cpp:131-158 | period 1000, start 0, frame 1600: raw difference 600 folds to −400, rate 1000 → 900 |
| `PhaseControl.OnPulseEdge` | FlashCamPLL.cpp:131-144 | with zero phase offset, a whole-microsecond period and no wrap-around, a frame at start + k·period counts k pulses, its last pulse is the frame itself, and its raw and folded differences are 0 |
| `PhaseControl.InPhaseKeepsLockedRate` | FlashCamPLL.cpp:121-158 | a frame whose CPU time lands exactly on a pulse edge targets the locked frequency itself |
| `PhaseControl.WrittenBeyondResolution` | FlashCamPLL.cpp:173-183 | non-negative rates at least 1/256 Hz apart are always written |
| `OffsetEstimator.Width` | FlashCamPLL.cpp:498 | the bracket width is t_cpu2 − t_cpu1 when the clock did not go back, and wraps to 2^64 − (t_cpu1 − t_cpu2) when it did |
| `OffsetEstimator.Tight` | FlashCamPLL.cpp:498 | a forward bracket is tight exactly when at most 150 µs wide; a backward one only when it went back by at least 2^64 − 150 |
| `OffsetEstimator.SampleOffset` | FlashCamPLL.cpp:502 | the sampled offset is t_cpu1 − t_gpu whenever that fits in an int64 |
| `OffsetEstimator.MaxIter` | FlashCamPLL.cpp:471-484 | the pass bound is 50 exactly when the stored offset is 0, and 5 otherwise |
| `OffsetEstimator.ExitFrom` | FlashCamPLL.cpp:486-498 | the retry loop stops after at most max_iter + 1 passes |
| `OffsetEstimator.ExitFromIsFirstTight` | FlashCamPLL.cpp:486-498 | the loop stops on the first bracket of at most 150 µs, or after pass max_iter + 1 |
| `OffsetEstimator.ExitIteration` | FlashCamPLL.cpp:486-498 | a call makes between 1 and max_iter + 1 passes: 1 when the first bracket is tight, max_iter + 1 when none of the first max_iter is |
| `OffsetEstimator.Adopted` | FlashCamPLL.cpp:501 | a sample is adopted only when the loop stopped below the bound, which happens only on a tight bracket and needs a bound of at least 2 |
| `OffsetEstimator.RetryQuery` | FlashCamPLL.cpp:476-498 | the do-while retry loop ends with the pass counter and bracket that the exit specification gives |
| `OffsetEstimator.AdoptedIff` | FlashCamPLL.cpp:498-501 | a call adopts a sample if and only if one of its first max_iter − 1 brackets is at most 150 µs wide |
| `OffsetEstimator.TightLastPassDiscarded` | FlashCamPLL.cpp:498-501 | a tight bracket first met on pass max_iter ends the loop but is not adopted |
| `OffsetEstimator.AdoptedBracketIsFirstTight` | FlashCamPLL.cpp:498-503 | the adopted bracket is at most 150 µs wide and is the first such bracket of the call |
| `OffsetEstimator.Blend` | FlashCamPLL.cpp:509-510 | one EMA step at rate 0.1, truncated to an integer, stays between the old value and the sample |
| `OffsetEstimator.BlendApproaches` | FlashCamPLL.cpp:509-510 | an EMA step never moves away from the sample, and moves strictly closer while at least 10 µs away |
| `OffsetEstimator.EstimateStep` | FlashCamPLL.cpp:464-519 | a call that finds no usable bracket keeps both stored values; a first adoption stores an interval of at most 150 µs |
| `OffsetEstimator.EstimateStepCases` | FlashCamPLL.cpp:483-512 | a first adoption (stored offset 0) copies the sample, a later one blends offset and interval, a failure keeps both |
| `OffsetEstimator.LaterCallsBlend` | FlashCamPLL.cpp:471-511 | once an offset is known the pass bound is 5 and the new offset lies between the old one and the adopted sample |
| `OffsetEstimator.ConvergesToConstantOffset` | FlashCamPLL.cpp:501-511 | when every bracket is tight and measures the same offset d, a call never moves the estimate away from d, and moves it strictly closer while at least 10 µs away |
| `OffsetEstimator.GpuOffsetEstimator.constructor` | FlashCamPLL.cpp:466-468 | the persistent offset, interval and call counter start at zero |
| `OffsetEstimator.GpuOffsetEstimator.GetGpuOffset` | FlashCamPLL.cpp:464-520 | the stored estimate becomes EstimateStep of the old one, the call counter rises by one, and the new values are returned |
| `Calibration.ClampPulseWidth` | FlashCamPLL.cpp:330-334 | the pulse width is clamped into [0, period]: kept when inside, set to the period above it, set to 0 below it |
| `Calibration.DutyWithinRange` | FlashCamPLL.cpp:337-338 | a duty cycle in [0, 1] gives a pulse register between 0 and the range register |
| `Calibration.Setup` | FlashCamPLL.cpp:320-342 | target · divider equals the frame rate and so does pll_fpsfreq; pwm_range is the truncation of RPI_BASE_FREQ / (target · 2); the period in ms is 1000 / target and pll_period is 1000 times it; the stored pulse width is the configured one clamped to the period; the duty cycle is pulse width / period; pwm_pw is the truncation of duty cycle · pwm_range, so 0 ≤ pwm_pw ≤ pwm_range |
| `FlashCamPll.LockedFramePeriod` | FlashCamPLL.cpp:128 | the per-frame period that update derives (FpsPeriod) from start's pll_period is exactly one frame interval, 10^6 / frame rate |
| `Calibration.Span` | FlashCamPLL.cpp:392 | the span is t2 − t1 when the clock did not go back |
| `Calibration.Accepts` | FlashCamPLL.cpp:396 | a forward pass ends the busy-wait exactly when its span is at most 200 µs |
| `Calibration.CalibratedStart` | FlashCamPLL.cpp:402-403 | modulo 2^64, the start time is 111 µs after the first reading, and start time + interval is the second reading |
| `Calibration.FirstAcceptedExists` | FlashCamPLL.cpp:381-396 | if any pass is accepted, there is a first accepted pass |
| `Calibration.FirstAccepted` | FlashCamPLL.cpp:381-396 | the pass where the busy-wait stops: accepted, with every earlier pass rejected |
| `Calibration.Calibrate` | FlashCamPLL.cpp:374-403 | the busy-wait stops on the first pass with a span of at most 200 µs, and sets start time = t1 + 111 and interval = span − 111 from that pass |
| `Calibration.CalibratedWindow` | FlashCamPLL.cpp:400-403 | when the accepted span is at least 111 µs, the interval is at most 89 µs and start time + interval is exactly the second reading |
| `Calibration.ExactFirstPass` | FlashCamPLL.cpp:381-403 | a first pass whose span is exactly 111 µs is accepted, with start time t1 + 111 and interval 0 |
| `Calibration.ShortSpanWraps` | FlashCamPLL.cpp:403 | an accepted span below 111 µs wraps the unsigned interval to 2^64 − (111 − span) |
| `FlashCamPll.Pll.constructor` | FlashCamPLL.cpp:70-89 | the error flag is set exactly when the process is not root or WiringPi fails to start; active starts false |
| `FlashCamPll.Pll.GetDefaultSettings` | FlashCamPLL.cpp:525-536 | disabled, divider 1, offset 0, zeroed internals, and the pulse width as written, 0.5/30 (a 0.05% duty cycle by `DefaultDutyCycleAsWritten`); the verbose flag is left alone |
| `FlashCamPll.Pll.Start` | FlashCamPLL.cpp:205-428 | returns 1 and changes nothing on an error or when already active; returns 0 and changes nothing when disabled; otherwise stores the clamped pulse width, pll_period, pll_fpsfreq, the registers and the calibrated start time and interval, becomes active and returns 0 |
| `FlashCamPll.Pll.Stop` | FlashCamPLL.cpp:430-457 | returns 1 and changes nothing on an error or when inactive; otherwise writes a zero pulse, resets the frame rate to pll_fpsfreq, becomes inactive and returns 0 |
| `FlashCamPll.Pll.Update` | FlashCamPLL.cpp:117-203 | updates the estimator; when old and new rates quantise alike it returns success and changes neither the frame rate nor the port; otherwise it sets the frame rate to the new target, writes num/256 to the port and returns the port's status, with the frame rate already changed even if the write fails |
| `FlashCamPll.LockSession` | FlashCamPLL.cpp:449 | start, any number of updates, then stop: both calls succeed and the camera gets back exactly the frame rate it had before start; this rests on (framerate / divider) · divider == framerate, which holds in the model's exact arithmetic but not always in the source's float arithmetic at lines 321 and 342 |
| `FlashCamPll.DefaultPulseWidth` | FlashCamPLL.cpp:529 | corrected default pulse width: half a default frame period in ms |
| `FlashCamPll.DefaultPulseWidthAsWritten` | FlashCamPLL.cpp:529 | the default pulse width as written: 0.5/30, a value in seconds in a millisecond field |
| `FlashCamPll.DefaultDutyCycle` | FlashCamPLL.cpp:529 | the corrected default gives a 50% duty cycle at the default 30 fps |
| `FlashCamPll.DefaultDutyCycleAsWritten` | FlashCamPLL.cpp:529 | the default as written gives a 0.05% duty cycle at the default 30 fps |

## Findings

| source | as written | input that shows it | evidently intended | confidence | as-written member | corrected member |
|---|---|---|---|---|---|---|
| FlashCamPLL.cpp:529 | `pll_pulsewidth = 0.5f / VIDEO_FRAME_RATE_NUM`, i.e. 1/60 ms, although the field is in milliseconds | default settings, frame rate 30, divider 1: duty cycle 1/60 ms ÷ 33.3 ms = 0.0005 | 0.5 × 1000 / 30 ms ≈ 16.7 ms, the 50% duty cycle the comment on that line promises | medium, not executed | `FlashCamPll.DefaultDutyCycleAsWritten` | `FlashCamPll.DefaultDutyCycle` |

## Left out

- IEEE-754 single-precision rounding is not modelled; all float arithmetic is exact real arithmetic. In particular, the moving average is computed in `float` in the source, which cannot hold microsecond timestamps exactly, and the rate 0.1 is taken as exactly 1/10.
- Float-to-integer conversions out of range of the target type are undefined behaviour in C. They are not bounded in the model: the pulse index `k` (a `uint32_t`), `pwm_range` and `pwm_pw` are unbounded naturals. `diff*2` is compared as an exact value.
- `Status::mmal_to_int` is not part of this model. Success is 0 and the port's status code is returned unchanged.
- Hardware calls are abstract: `getuid` and `wiringPiSetup` become constructor parameters. `pwmSetRange`, `pwmWrite` and `pwmSetClock` become the registers of `PwmOutput`. `pinMode`, `pwmSetMode`, `digitalWrite`, `usleep`, `resetGPIO` and the destructor, which only toggle pins and wait, are left out.
- `clock_gettime` and `mmal_port_parameter_get_uint64` are replaced by injected readings in microseconds. The timespec-to-microsecond conversion is not modelled, and neither is `clock_getres`, which only feeds a diagnostic.
- All `fprintf` output, the verbose PWM statistics and `printSettings` are left out.
- The `getGPUoffset(videoport)` overload only discards the interval of the two-argument version, so it has no member of its own.
- The unused `PLL_videoport` static is left out.
- The statics of `getGPUoffset` (FlashCamPLL.cpp:466-468) are shared by every `FlashCamPLL` object in the process. The model gives each `Pll` its own `GpuOffsetEstimator`, so it does not capture two objects feeding one shared estimate; the one-argument overload, which shares the same statics, is covered by calling the same estimator.
- The jitter buffers, PID and step-response fields of `FlashCam_types.h` have no behaviour in the source and are not modelled.
- The source leaves `_active` uninitialised; the model starts it false.
- `Calibration.Calibrate`: requires that some pass is eventually accepted. Without such a pass the source loop never ends, and a Dafny method must terminate.
- `FlashCamPll.Pll.Start`: on the enabled path, requires a positive frame rate and a divider of at least 1. With a zero frame rate or divider the source divides by zero in floating point, and infinities are not modelled; with a negative frame rate it converts a negative float to `unsigned int` for `pwm_range` (line 325), which is undefined behaviour.
- `FlashCamPll.Pll.Update`: requires a positive `pll_period` and a divider of at least 1, which `start` establishes. The source does not check this; before `start` it divides by zero.
- `PhaseControl.FoldInvariant`: is stated for 0 ≤ `pll_offset` ≤ half a frame period (the header documents the offset as positive), a frame at or after the start time, and period + offset below 2^63 − 1 µs. A negative offset or one above half a period can leave the difference outside the half-period window (`PhaseControl.NegativeOffsetEscapes`, `PhaseControl.LargeOffsetEscapes`).
