/** The interface of the component error models and of the random generators they draw
    from. The models themselves (`dac_errors`, `adc_errors`, `opamp_errors`) live in
    generators.py, which is not part of this model: each is an arbitrary function of the
    right shape, constrained only by what the simulators rely on. */
module ErrorModels {
  import opened Results
  import opened Numerics

  /** The state of a `numpy.random.Generator`. Its contents are not modelled: all the model
      relies on is that it is a value, so equal states give equal draws. */
  datatype Rng = Rng(state: int)

  /** `numpy.random.default_rng(seed)` for a non-negative integer seed. With `seed=None`
      numpy seeds from operating-system entropy, which the model takes as the input
      `entropy`. */
  function DefaultRng(seed: Option<nat>, entropy: int): (g: Rng)
    ensures seed.Some? ==> g == Rng(seed.value)
  {
    match seed
    case Some(s) => Rng(s)
    case None => Rng(entropy)
  }

  /** DAC non-idealities (the keyword arguments of `DACSimulator`). */
  datatype DacConfig = DacConfig(
    sampleRateHz: real,
    nBits: nat,
    vRef: real,
    inlLsb: real,
    dnlLsb: real,
    gainError: real,
    offsetError: real,
    glitchEnergyFrac: real,
    settlingTimeSec: Option<real>)

  /** ADC non-idealities (the keyword arguments of `ADCSimulator`). */
  datatype AdcConfig = AdcConfig(
    sampleRateHz: real,
    nBits: nat,
    vRef: real,
    gainError: real,
    offsetError: real,
    inlLsb: real,
    dnlLsb: real,
    apertureJitterSec: real)

  /** Transimpedance-amplifier non-idealities (the keyword arguments of `OpAmpSimulator`). */
  datatype OpAmpConfig = OpAmpConfig(
    transimpedanceOhms: real,
    sampleRateHz: real,
    bandwidthHz: real,
    gainError: real,
    offsetVoltage: real,
    noiseRmsVoltage: real)

  /** Samples produced by an error model together with the generator state it leaves. */
  datatype Drawn = Drawn(samples: seq<real>, rng: Rng)

  /** Integer codes produced by the ADC error model together with the generator state it leaves. */
  datatype Quantized = Quantized(codes: seq<int>, rng: Rng)

  /** `dac_errors(codes, ..., rng)`: one output sample per input code. */
  type DacErrorModel = f: (seq<real>, DacConfig, Rng) -> Drawn
    | forall codes, cfg, g :: |f(codes, cfg, g).samples| == |codes|
    witness (codes: seq<real>, cfg: DacConfig, g: Rng) => Drawn(codes, g)

  /** `opamp_errors(ideal, ..., rng)`: one output sample per input sample. */
  type OpAmpErrorModel = f: (seq<real>, OpAmpConfig, Rng) -> Drawn
    | forall ideal, cfg, g :: |f(ideal, cfg, g).samples| == |ideal|
    witness (ideal: seq<real>, cfg: OpAmpConfig, g: Rng) => Drawn(ideal, g)

  /** `adc_errors(analog, ..., rng)`: one code per input sample, hard-clamped to
      `[0, 2^n_bits - 1]` (the range the tests assert of it). */
  type AdcErrorModel = f: (seq<real>, AdcConfig, Rng) -> Quantized
    | forall analog, cfg, g ::
        |f(analog, cfg, g).codes| == |analog| && ValidCodes(f(analog, cfg, g).codes, cfg.nBits)
    witness (analog: seq<real>, cfg: AdcConfig, g: Rng) => Quantized(seq(|analog|, i => 0), g)
}
