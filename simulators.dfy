/** The DAC, transimpedance-amplifier and ADC simulators. Each owns a random generator,
    seeded at construction, which only its own conversions advance; everything else about a
    simulator is fixed at construction. */
module Simulators {
  import opened Results
  import opened Numerics
  import opened ErrorModels
  import opened Impedance

  // ---------------------------------------------------------------------------
  // DAC
  // ---------------------------------------------------------------------------

  /** `settling_time_sec or (1.0 / sample_rate_hz)`: a missing or zero settling time
      defaults to one sample period, which fails when the sample rate is zero. */
  function SettlingTime(cfg: DacConfig): (r: Result<real>)
    ensures cfg.settlingTimeSec.Some? && cfg.settlingTimeSec.value != 0.0 ==>
              r == Success(cfg.settlingTimeSec.value)
    ensures cfg.settlingTimeSec.None? || cfg.settlingTimeSec.value == 0.0 ==>
              (r.Success? <==> cfg.sampleRateHz != 0.0) &&
              (r.Success? ==> r.value * cfg.sampleRateHz == 1.0) &&
              (r.Failure? ==> r.fault == DivisionByZero)
  {
    if cfg.settlingTimeSec.Some? && cfg.settlingTimeSec.value != 0.0 then
      Success(cfg.settlingTimeSec.value)
    else if cfg.sampleRateHz == 0.0 then
      Failure(DivisionByZero)
    else
      Success(1.0 / cfg.sampleRateHz)
  }

  /** The codes `digital_to_analog` hands to the error model. When every input lies in
      `[0, 1]` the whole array is read as normalised and scaled by `maxCode`; otherwise
      no element is scaled. Either way the result is clipped to `[0, maxCode]`. */
  function DacCodes(digital: seq<real>, maxCode: nat): (codes: seq<real>)
    requires |digital| > 0
    ensures |codes| == |digital|
    ensures forall i :: 0 <= i < |codes| ==> 0.0 <= codes[i] <= maxCode as real
    ensures AllWithin(digital, 0.0, 1.0) ==>
              forall i :: 0 <= i < |codes| ==> codes[i] == digital[i] * maxCode as real
    ensures !AllWithin(digital, 0.0, 1.0) ==> codes == ClipAll(digital, 0.0, maxCode as real)
  {
    ExtremaWithin(digital, 0.0, 1.0);
    if SeqMax(digital) <= 1.0 && SeqMin(digital) >= 0.0 then
      NormalisedScaleInRange(digital, maxCode as real);
      ClipAll(ScaleAll(digital, maxCode as real), 0.0, maxCode as real)
    else
      ClipAll(digital, 0.0, maxCode as real)
  }

  /** Scaling normalised values by a non-negative full scale needs no clipping. */
  lemma NormalisedScaleInRange(digital: seq<real>, m: real)
    requires AllWithin(digital, 0.0, 1.0) && m >= 0.0
    ensures ClipAll(ScaleAll(digital, m), 0.0, m) == ScaleAll(digital, m)
  {
    var scaled := ScaleAll(digital, m);
    forall i | 0 <= i < |scaled| ensures 0.0 <= scaled[i] && scaled[i] <= m {
      var x := digital[i];
      ScaleUnit(x, m);
      assert scaled[i] == x * m;
    }
    ClipInRange(scaled, 0.0, m);
  }

  /** Codes already in `[0, maxCode]` pass through unchanged as soon as one of them lies
      outside `[0, 1]`: a full-scale integer code array is never rescaled. */
  lemma IntegerCodesPassThrough(digital: seq<real>, maxCode: nat)
    requires |digital| > 0 && AllWithin(digital, 0.0, maxCode as real)
    requires exists i :: 0 <= i < |digital| && digital[i] > 1.0
    ensures DacCodes(digital, maxCode) == digital
  {
    var codes := DacCodes(digital, maxCode);
    assert codes == ClipAll(digital, 0.0, maxCode as real);
    assert forall i :: 0 <= i < |digital| ==> codes[i] == digital[i];
  }

  class DacSimulator {
    const config: DacConfig
    const settlingTimeSec: real
    /** `_max_code`, the largest code of an `n_bits` converter. */
    const maxCode: nat := MaxCode(config.nBits)
    const errors: DacErrorModel
    var rng: Rng

    /** `DACSimulator(..., seed)`: the generator is seeded from `seed`, or from operating
        system `entropy` when `seed` is None. */
    constructor (config: DacConfig, seed: Option<nat>, entropy: int, errors: DacErrorModel)
      requires SettlingTime(config).Success?
      ensures this.config == config && this.errors == errors
      ensures settlingTimeSec == SettlingTime(config).value
      ensures rng == DefaultRng(seed, entropy)
    {
      this.config := config;
      this.errors := errors;
      this.settlingTimeSec := SettlingTime(config).value;
      this.rng := DefaultRng(seed, entropy);
    }

    /** `digital_to_analog`: normalise and clip the codes, pass them through the error model
        with this simulator's generator, and scale the result by `v_ref`. An empty input
        fails (numpy's max of an empty array) before the generator is touched. */
    method DigitalToAnalog(digital: seq<real>) returns (r: Result<seq<real>>)
      modifies this
      ensures |digital| == 0 ==> r == Failure(EmptyArray) && rng == old(rng)
      ensures |digital| > 0 ==>
                var drawn := errors(DacCodes(digital, maxCode), config, old(rng));
                r == Success(ScaleAll(drawn.samples, config.vRef)) && rng == drawn.rng
      ensures r.Success? ==> |r.value| == |digital|
    {
      if |digital| == 0 {
        return Failure(EmptyArray);
      }
      var codes := digital;
      if SeqMax(codes) <= 1.0 && SeqMin(codes) >= 0.0 {
        codes := ScaleAll(codes, maxCode as real);
      }
      codes := ClipAll(codes, 0.0, maxCode as real);
      var drawn := errors(codes, config, rng);
      rng := drawn.rng;
      r := Success(ScaleAll(drawn.samples, config.vRef));
    }

    /** `run`, an alias for `digital_to_analog`. */
    method Run(digital: seq<real>) returns (r: Result<seq<real>>)
      modifies this
      ensures |digital| == 0 ==> r == Failure(EmptyArray) && rng == old(rng)
      ensures |digital| > 0 ==>
                var drawn := errors(DacCodes(digital, maxCode), config, old(rng));
                r == Success(ScaleAll(drawn.samples, config.vRef)) && rng == drawn.rng
      ensures r.Success? ==> |r.value| == |digital|
    {
      r := DigitalToAnalog(digital);
    }
  }

  // ---------------------------------------------------------------------------
  // Transimpedance amplifier
  // ---------------------------------------------------------------------------

  /** The ideal transimpedance transfer `-I * Rf`, sample by sample. */
  function TiaIdeal(current: seq<real>, rf: real): (v: seq<real>)
    ensures |v| == |current|
    ensures forall i :: 0 <= i < |v| ==> v[i] == -(current[i] * rf)
  {
    seq(|current|, i requires 0 <= i < |current| => -(current[i] * rf))
  }

  /** Driving a resistive load with `V` and converting its current with a feedback resistor
      equal to the load gives back `-V` exactly: the ideal amplifier inverts Ohm's law. */
  lemma TiaInvertsResistiveLoad(imp: ImpedanceSimulator, voltage: seq<real>, t: seq<real>,
                                f: real, rf: real)
    requires WellFormed(imp)
    requires ZAt(imp, f) == Complex(rf, 0.0) && Abs(rf) >= MinImpedance
    ensures TiaIdeal(CurrentFromVoltage(imp, voltage, t, f), rf) == ScaleAll(voltage, -1.0)
  {
    ResistiveOhmsLaw(imp, voltage, t, f);
    var v := TiaIdeal(CurrentFromVoltage(imp, voltage, t, f), rf);
    assert forall i :: 0 <= i < |v| ==> v[i] == -voltage[i];
  }

  class OpAmpSimulator {
    const config: OpAmpConfig
    const errors: OpAmpErrorModel
    var rng: Rng

    constructor (config: OpAmpConfig, seed: Option<nat>, entropy: int, errors: OpAmpErrorModel)
      ensures this.config == config && this.errors == errors
      ensures rng == DefaultRng(seed, entropy)
    {
      this.config := config;
      this.errors := errors;
      this.rng := DefaultRng(seed, entropy);
    }

    /** `run`: the ideal voltage `-I * Rf` passed through the error model with this
        simulator's generator. */
    method Run(current: seq<real>) returns (v: seq<real>)
      modifies this
      ensures var drawn := errors(TiaIdeal(current, config.transimpedanceOhms), config, old(rng));
              v == drawn.samples && rng == drawn.rng
      ensures |v| == |current|
    {
      var idealV := TiaIdeal(current, config.transimpedanceOhms);
      var drawn := errors(idealV, config, rng);
      rng := drawn.rng;
      v := drawn.samples;
    }
  }

  // ---------------------------------------------------------------------------
  // ADC
  // ---------------------------------------------------------------------------

  class AdcSimulator {
    const config: AdcConfig
    const errors: AdcErrorModel
    var rng: Rng

    constructor (config: AdcConfig, seed: Option<nat>, entropy: int, errors: AdcErrorModel)
      ensures this.config == config && this.errors == errors
      ensures rng == DefaultRng(seed, entropy)
    {
      this.config := config;
      this.errors := errors;
      this.rng := DefaultRng(seed, entropy);
    }

    /** `analog_to_digital`: the error model applied with this simulator's generator; one
        code per sample, each in `[0, 2^n_bits - 1]`. */
    method AnalogToDigital(analog: seq<real>) returns (codes: seq<int>)
      modifies this
      ensures var q := errors(analog, config, old(rng)); codes == q.codes && rng == q.rng
      ensures |codes| == |analog| && ValidCodes(codes, config.nBits)
    {
      var q := errors(analog, config, rng);
      rng := q.rng;
      codes := q.codes;
    }

    /** `run`, an alias for `analog_to_digital`. */
    method Run(analog: seq<real>) returns (codes: seq<int>)
      modifies this
      ensures var q := errors(analog, config, old(rng)); codes == q.codes && rng == q.rng
      ensures |codes| == |analog| && ValidCodes(codes, config.nBits)
    {
      codes := AnalogToDigital(analog);
    }
  }

  // ---------------------------------------------------------------------------
  // Generator ownership
  // ---------------------------------------------------------------------------

  /** Two DACs built with the same seed give the same first conversion even when a third
      simulator converts in between: no simulator shares or advances another's generator. */
  method SeededDacsAgree(config: DacConfig, seed: nat, entropy: int, errors: DacErrorModel,
                         digital: seq<real>, other: seq<real>)
    returns (first: Result<seq<real>>, second: Result<seq<real>>)
    requires SettlingTime(config).Success?
    ensures first == second
    ensures |digital| > 0 ==>
              first == Success(ScaleAll(errors(DacCodes(digital, MaxCode(config.nBits)), config,
                                                Rng(seed)).samples, config.vRef))
  {
    var a := new DacSimulator(config, Some(seed), entropy, errors);
    var b := new DacSimulator(config, Some(seed), entropy, errors);
    var c := new DacSimulator(config, Some(seed), entropy, errors);
    first := a.DigitalToAnalog(digital);
    var _ := c.DigitalToAnalog(other);
    var _ := a.DigitalToAnalog(other);
    second := b.DigitalToAnalog(digital);
  }

  /** A DAC and an ADC seeded alike draw from separate generators: converting with one
      leaves the other's generator where its seed put it. */
  method ConvertersOwnGenerators(dacConfig: DacConfig, adcConfig: AdcConfig, seed: nat,
                                 entropy: int, dacErrors: DacErrorModel,
                                 adcErrors: AdcErrorModel, digital: seq<real>,
                                 analog: seq<real>)
    returns (codes: seq<int>)
    requires SettlingTime(dacConfig).Success?
    ensures codes == adcErrors(analog, adcConfig, Rng(seed)).codes
  {
    var dac := new DacSimulator(dacConfig, Some(seed), entropy, dacErrors);
    var adc := new AdcSimulator(adcConfig, Some(seed), entropy, adcErrors);
    var _ := dac.DigitalToAnalog(digital);
    codes := adc.AnalogToDigital(analog);
  }
}
