/** FlashCamPLL: the PLL object with its error and active flags, and the
    settings, camera parameters, camera port and PWM output it works on. The
    structs the caller owns and the PLL updates in place are classes here. */
module FlashCamPll {
  import opened Numeric
  import PhaseControl
  import OffsetEstimator
  import Calibration

  /** Default camera frame rate (VIDEO_FRAME_RATE_NUM). */
  const VIDEO_FRAME_RATE_NUM: nat := 30

  /** Return code of a successful MMAL call and of a successful start/stop. */
  const SUCCESS: int := 0
  /** Return code of a refused start/stop. */
  const FAILURE: int := 1

  /** The PLL fields of FLASHCAM_SETTINGS_T. */
  class Settings {
    var verbose: bool
    var pllEnabled: bool
    var pllDivider: nat
    var pllOffset: i32          // us
    var pllPulseWidth: real     // ms
    var pllPeriod: real         // us
    var pllFpsFreq: real        // Hz
    var pllStartTime: u64       // us, CPU clock
    var pllStartInterval: u64   // us

    /** A zero-filled settings struct. */
    constructor ()
      ensures !verbose && !pllEnabled && pllDivider == 0 && pllOffset == 0
      ensures pllPulseWidth == 0.0 && pllPeriod == 0.0 && pllFpsFreq == 0.0
      ensures pllStartTime == 0 && pllStartInterval == 0
    {
      verbose, pllEnabled, pllDivider, pllOffset := false, false, 0, 0;
      pllPulseWidth, pllPeriod, pllFpsFreq := 0.0, 0.0, 0.0;
      pllStartTime, pllStartInterval := 0, 0;
    }

    /** The values update() reads. */
    function Lock(): PhaseControl.Lock
      reads this
    {
      PhaseControl.Lock(pllPeriod, pllDivider, pllStartTime, pllOffset, pllFpsFreq)
    }
  }

  /** The frame-rate field of FLASHCAM_PARAMS_T. */
  class Params {
    var framerate: real

    constructor (framerate: real)
      ensures this.framerate == framerate
    {
      this.framerate := framerate;
    }
  }

  /** The camera video port: every frame-rate parameter written to it, in order. */
  class VideoPort {
    var frameRateWrites: seq<PhaseControl.Rational>

    constructor ()
      ensures frameRateWrites == []
    {
      frameRateWrites := [];
    }
  }

  /** The hardware PWM output: the registers the PLL programs. */
  class PwmOutput {
    var range: nat
    var pulse: nat
    var clockDivider: nat

    constructor ()
      ensures range == 0 && pulse == 0 && clockDivider == 0
    {
      range, pulse, clockDivider := 0, 0, 0;
    }
  }

  /** The pulse width getDefaultSettings evidently intends: half of a default frame
      period, in ms. */
  function DefaultPulseWidth(): (w: real)
    ensures w * VIDEO_FRAME_RATE_NUM as real == 500.0
  {
    0.5 * 1000.0 / VIDEO_FRAME_RATE_NUM as real
  }

  /** The pulse width as the source writes it: 0.5f / VIDEO_FRAME_RATE_NUM, a
      value in seconds stored in a field measured in milliseconds. */
  function DefaultPulseWidthAsWritten(): (w: real)
    ensures w * VIDEO_FRAME_RATE_NUM as real == 0.5
  {
    0.5 / VIDEO_FRAME_RATE_NUM as real
  }

  /** At the default frame rate the default pulse width is a 50% duty cycle. */
  lemma DefaultDutyCycle()
    ensures Calibration.Setup(VIDEO_FRAME_RATE_NUM as real, 1, DefaultPulseWidth()).dutyCycle == 0.5
  {
  }

  /** The pulse width as written is a 0.05% duty cycle, not the 50% its comment promises. */
  lemma DefaultDutyCycleAsWritten()
    ensures Calibration.Setup(VIDEO_FRAME_RATE_NUM as real, 1, DefaultPulseWidthAsWritten()).dutyCycle == 0.0005
  {
  }

  /** The per-frame period update() derives from start()'s pll_period is one frame
      interval of the frame rate start() was given. */
  lemma LockedFramePeriod(framerate: real, divider: nat, pulseWidth: real)
    requires framerate > 0.0 && divider >= 1
    ensures PhaseControl.FpsPeriod(Calibration.Setup(framerate, divider, pulseWidth).period, divider)
              == 1000000.0 / framerate
  {
    var s := Calibration.Setup(framerate, divider, pulseWidth);
    var d := divider as real;
    assert s.target == framerate / d;
    assert s.period == 1000000.0 / s.target;
    assert s.period * s.target == 1000000.0;
    assert (s.period / d) * framerate == s.period * s.target;
  }

  /** The PLL object. */
  class Pll {
    /** Initialisation failed (no root, or WiringPi could not start): every start/stop fails. */
    var error: bool
    /** The PWM is running and locked to the camera. */
    var active: bool
    /** The offset estimator's persistent state. */
    const estimator: OffsetEstimator.GpuOffsetEstimator

    /** Construction records a missing privilege or a failed hardware setup as a
        permanent error. The active flag starts false. */
    constructor (isRoot: bool, wiringPiReady: bool)
      ensures error == (!isRoot || !wiringPiReady)
      ensures !active
      ensures fresh(estimator) && estimator.Current() == OffsetEstimator.Estimate(0, 0)
    {
      error := !isRoot || !wiringPiReady;
      active := false;
      estimator := new OffsetEstimator.GpuOffsetEstimator();
    }

    /** Write the default PLL settings, with the pulse width as the source writes it
        (DefaultDutyCycleAsWritten gives its duty cycle). */
    method GetDefaultSettings(settings: Settings)
      modifies settings
      ensures !settings.pllEnabled && settings.pllDivider == 1 && settings.pllOffset == 0
      ensures settings.pllPulseWidth == DefaultPulseWidthAsWritten()
      ensures settings.pllStartTime == 0 && settings.pllStartInterval == 0
      ensures settings.pllFpsFreq == 0.0 && settings.pllPeriod == 0.0
      ensures settings.verbose == old(settings.verbose)
    {
      settings.pllEnabled := false;
      settings.pllDivider := 1;
      settings.pllOffset := 0;
      settings.pllPulseWidth := DefaultPulseWidthAsWritten();
      settings.pllStartTime := 0;
      settings.pllStartInterval := 0;
      settings.pllFpsFreq := 0.0;
      settings.pllPeriod := 0.0;
    }

    /** Start the PLL: program the PWM for the frame rate and timestamp its start. */
    method Start(settings: Settings, params: Params, hw: PwmOutput,
                 readings: nat -> Calibration.ClockPair) returns (status: int)
      requires !error && !active && settings.pllEnabled ==>
                 params.framerate > 0.0 && settings.pllDivider >= 1 &&
                 exists i :: Calibration.Accepts(readings(i))
      modifies this`active, settings, hw
      ensures old(error) || old(active) ==>
                status == FAILURE && active == old(active) && unchanged(settings, hw)
      ensures !old(error) && !old(active) && !old(settings.pllEnabled) ==>
                status == SUCCESS && !active && unchanged(settings, hw)
      ensures !old(error) && !old(active) && old(settings.pllEnabled) ==>
                var s := Calibration.Setup(params.framerate, old(settings.pllDivider), old(settings.pllPulseWidth));
                var first := Calibration.FirstAccepted(readings);
                && status == SUCCESS && active
                && settings.pllPulseWidth == s.pulseWidth
                && settings.pllPeriod == s.period
                && settings.pllFpsFreq == s.fpsFreq
                && (settings.pllStartTime, settings.pllStartInterval)
                     == Calibration.CalibratedStart(readings(first))
                && hw.range == s.range && hw.pulse == s.pulse
                && hw.clockDivider == Calibration.PWM_CLOCK
      ensures settings.pllEnabled == old(settings.pllEnabled)
      ensures settings.pllDivider == old(settings.pllDivider)
      ensures settings.pllOffset == old(settings.pllOffset)
      ensures settings.verbose == old(settings.verbose)
    {
      if error {
        return FAILURE;
      }
      if active {
        return FAILURE;
      }
      if settings.pllEnabled {
        var s := Calibration.Setup(params.framerate, settings.pllDivider, settings.pllPulseWidth);
        settings.pllPulseWidth := s.pulseWidth;
        settings.pllPeriod := s.period;
        settings.pllFpsFreq := s.fpsFreq;
        hw.range := s.range;
        hw.pulse := s.pulse;
        hw.clockDivider := Calibration.PWM_CLOCK;
        var startTime, startInterval, iterations := Calibration.Calibrate(readings);
        settings.pllStartTime := startTime;
        settings.pllStartInterval := startInterval;
        active := true;
      }
      return SUCCESS;
    }

    /** Stop the PLL: silence the PWM and hand the camera back its locked frame rate. */
    method Stop(settings: Settings, params: Params, hw: PwmOutput) returns (status: int)
      modifies this`active, params, hw
      ensures old(error) || !old(active) ==>
                status == FAILURE && active == old(active) && unchanged(params, hw)
      ensures !old(error) && old(active) ==>
                && status == SUCCESS && !active
                && params.framerate == settings.pllFpsFreq
                && hw.pulse == 0
                && hw.range == old(hw.range) && hw.clockDivider == old(hw.clockDivider)
    {
      if error {
        return FAILURE;
      }
      if !active {
        return FAILURE;
      }
      hw.pulse := 0;
      params.framerate := settings.pllFpsFreq;
      active := false;
      return SUCCESS;
    }

    /** Per-frame update: measure the phase of a frame against the pulse train and
        retarget the camera frame rate. The port answers a write with portStatus. */
    method Update(port: VideoPort, settings: Settings, params: Params, bufferTime: u64,
                  readings: nat -> OffsetEstimator.Bracket, portStatus: int) returns (status: int)
      requires settings.Lock().Ready()
      modifies estimator, params, port
      ensures estimator.Current() == OffsetEstimator.EstimateStep(old(estimator.Current()), readings)
      ensures estimator.calls == old(estimator.calls) + 1
      ensures var target := PhaseControl.NewFrameRate(bufferTime, estimator.offset, settings.Lock());
              match PhaseControl.Decide(old(params.framerate), target)
              case Unchanged =>
                status == SUCCESS && params.framerate == old(params.framerate)
                && port.frameRateWrites == old(port.frameRateWrites)
              case Changed(rate, fraction) =>
                status == portStatus && params.framerate == rate
                && port.frameRateWrites == old(port.frameRateWrites) + [fraction]
    {
      var offset, offsetInterval := estimator.GetGpuOffset(readings);
      var target := PhaseControl.NewFrameRate(bufferTime, offset, settings.Lock());
      var oldf := PhaseControl.Quantise(params.framerate);
      var newf := PhaseControl.Quantise(target);
      if oldf == newf {
        return SUCCESS;
      }
      params.framerate := target;
      var f := PhaseControl.Rational(PhaseControl.Quantise(params.framerate), PhaseControl.FPS_DENOMINATOR);
      port.frameRateWrites := port.frameRateWrites + [f];
      return portStatus;
    }
  }

  /** A lock session as the camera drives it: start, one update per frame, stop.
      However many frames pass, stop hands the camera back exactly the frame rate it
      had when start was called. */
  method LockSession(pll: Pll, settings: Settings, params: Params, hw: PwmOutput, port: VideoPort,
                     calibration: nat -> Calibration.ClockPair,
                     frames: seq<u64>, clocks: seq<nat -> OffsetEstimator.Bracket>, answers: seq<int>)
      returns (startStatus: int, stopStatus: int)
    requires !pll.error && !pll.active && settings.pllEnabled
    requires params.framerate > 0.0 && settings.pllDivider >= 1
    requires exists i :: Calibration.Accepts(calibration(i))
    requires |clocks| == |frames| && |answers| == |frames|
    modifies pll, pll.estimator, settings, params, hw, port
    ensures startStatus == SUCCESS && stopStatus == SUCCESS && !pll.active
    ensures params.framerate == old(params.framerate)
    ensures hw.pulse == 0
  {
    var initial := params.framerate;
    startStatus := pll.Start(settings, params, hw, calibration);
    var i := 0;
    while i < |frames|
      invariant 0 <= i <= |frames|
      invariant pll.active && !pll.error
      invariant settings.Lock().Ready()
      invariant settings.pllFpsFreq == initial
    {
      var _ := pll.Update(port, settings, params, frames[i], clocks[i], answers[i]);
      i := i + 1;
    }
    stopStatus := pll.Stop(settings, params, hw);
  }
}
