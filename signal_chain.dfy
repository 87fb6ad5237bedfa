/** The lock-in signal chain around the converters: the normalised cutoff of the
    demodulation low-pass filter, the carrier headroom rule that keeps amplitude modulation
    from clipping, the clips at the DAC and ADC inputs, the reconstruction of volts from ADC
    codes, and the chain that connects them. */
module SignalChain {
  import opened Results
  import opened Numerics
  import opened ErrorModels
  import opened Simulators

  const Seed: nat := 42
  const DacSampleRateHz: real := 10e6
  const AdcSampleRateHz: real := 10e6
  /** ENBW of a 4th-order Butterworth filter over its cutoff frequency. */
  const EnbwPerCutoff: real := 1.026
  /** Extra 1% kept free below the reference voltage. */
  const HeadroomFactor: real := 1.01
  /** The clamp applied to the normalised cutoff before the filter is designed. */
  const MinCutoff: real := 1e-6
  const MaxCutoff: real := 0.9999
  /** The cap on the op-amp bandwidth filter's normalised cutoff. */
  const MaxOpAmpCutoff: real := 0.99

  // ---------------------------------------------------------------------------
  // Low-pass cutoffs
  // ---------------------------------------------------------------------------

  /** `(enbw / 1.026) / (fs / 2)`: the cutoff as a fraction of the Nyquist frequency. */
  function RawCutoff(fsHz: real, enbwHz: real): real
    requires fsHz != 0.0
  {
    (enbwHz / EnbwPerCutoff) / (fsHz / 2.0)
  }

  /** The cutoff handed to the 4th-order Butterworth design in `butterworth_lpf_4th_order`:
      always inside `[1e-6, 0.9999]`, and the raw value itself whenever that is already in
      range. A zero sample rate divides by zero. */
  function NormalizedCutoff(fsHz: real, enbwHz: real): (r: Result<real>)
    ensures r.Failure? <==> fsHz == 0.0
    ensures r.Failure? ==> r.fault == DivisionByZero
    ensures r.Success? ==> MinCutoff <= r.value <= MaxCutoff
    ensures r.Success? && MinCutoff <= RawCutoff(fsHz, enbwHz) <= MaxCutoff ==>
              r.value == RawCutoff(fsHz, enbwHz)
    ensures r.Success? && RawCutoff(fsHz, enbwHz) < MinCutoff ==> r.value == MinCutoff
    ensures r.Success? && RawCutoff(fsHz, enbwHz) > MaxCutoff ==> r.value == MaxCutoff
  {
    if fsHz == 0.0 then Failure(DivisionByZero)
    else Success(Max(MinCutoff, Min(RawCutoff(fsHz, enbwHz), MaxCutoff)))
  }

  /** A digital low-pass filter designed for a normalised cutoff: one output per input
      sample. Each parameter of this type names its own design: the zero-phase 4th-order
      `sosfiltfilt` of the demodulator, or the causal 1st-order `sosfilt` of the op-amp. */
  type Lowpass = f: (seq<real>, real) -> seq<real>
    | forall x, wn :: |f(x, wn)| == |x|
    witness (x: seq<real>, wn: real) => x

  /** The default edge padding of `sosfiltfilt` for the 4th-order design, two second-order
      sections with no zero coefficients: `3 * (2 * 2 + 1)`. */
  const FiltfiltPadLen: nat := 15

  /** `butterworth_lpf_4th_order(signal, fs, enbw)` with the filter itself given as `filter`:
      the signal filtered at the clamped cutoff. A zero sample rate divides by zero while the
      cutoff is computed; a signal of at most `FiltfiltPadLen` samples is then rejected by
      `sosfiltfilt`. */
  function ButterworthLowpass(signal: seq<real>, fsHz: real, enbwHz: real, filter: Lowpass)
    : (r: Result<seq<real>>)
    ensures r.Failure? <==> fsHz == 0.0 || |signal| <= FiltfiltPadLen
    ensures fsHz == 0.0 ==> r == Failure(DivisionByZero)
    ensures fsHz != 0.0 && |signal| <= FiltfiltPadLen ==> r == Failure(SignalTooShort)
    ensures r.Success? ==> |r.value| == |signal|
    ensures r.Success? ==> r.value == filter(signal, NormalizedCutoff(fsHz, enbwHz).value)
  {
    var wn := NormalizedCutoff(fsHz, enbwHz);
    if wn.Failure? then Failure(wn.fault)
    else if |signal| <= FiltfiltPadLen then Failure(SignalTooShort)
    else Success(filter(signal, wn.value))
  }

  /** Above the clamp the requested bandwidth no longer matters: two bandwidths whose raw
      cutoffs both reach `0.9999` filter a signal identically. */
  lemma SaturatedCutoffsAgree(signal: seq<real>, fsHz: real, enbw1: real, enbw2: real,
                              filter: Lowpass)
    requires fsHz != 0.0
    requires RawCutoff(fsHz, enbw1) >= MaxCutoff && RawCutoff(fsHz, enbw2) >= MaxCutoff
    ensures ButterworthLowpass(signal, fsHz, enbw1, filter)
              == ButterworthLowpass(signal, fsHz, enbw2, filter)
  {
    assert NormalizedCutoff(fsHz, enbw1).value == MaxCutoff;
    assert NormalizedCutoff(fsHz, enbw2).value == MaxCutoff;
  }

  /** The op-amp bandwidth filter's cutoff `min(bw / (fs/2), 0.99)`; a first-order
      Butterworth design rejects a cutoff that is not positive. */
  function OpAmpCutoff(bandwidthHz: real): (r: Result<real>)
    ensures r.Success? <==> bandwidthHz > 0.0
    ensures r.Failure? ==> r.fault == InvalidCutoff
    ensures r.Success? ==> 0.0 < r.value <= MaxOpAmpCutoff
    ensures r.Success? && bandwidthHz <= MaxOpAmpCutoff * (DacSampleRateHz / 2.0) ==>
              r.value * (DacSampleRateHz / 2.0) == bandwidthHz
  {
    var wn := Min(bandwidthHz / (DacSampleRateHz / 2.0), MaxOpAmpCutoff);
    if wn <= 0.0 then Failure(InvalidCutoff) else Success(wn)
  }

  // ---------------------------------------------------------------------------
  // Carrier headroom
  // ---------------------------------------------------------------------------

  /** The largest carrier peak that leaves room for `1 + max(env_max, 0)` modulation under
      the DAC reference with 1% to spare. */
  function MaxCarrierPeak(vRef: real, envMax: real): (p: real)
    ensures p * (1.0 + Max(envMax, 0.0)) == vRef / HeadroomFactor
    ensures vRef > 0.0 ==> 0.0 < p < vRef
  {
    var m := 1.0 + Max(envMax, 0.0);
    var d := HeadroomFactor * m;
    QuotientBelow(vRef, d);
    SplitQuotient(vRef, HeadroomFactor, m);
    vRef / d
  }

  lemma SplitQuotient(v: real, h: real, m: real)
    requires h > 0.0 && m > 0.0
    ensures v / (h * m) * m == v / h
  {
    var q := v / (h * m);
    assert q * (h * m) == v;
    assert (q * m) * h == v;
  }

  /** The normalised carrier: a sine of amplitude `amp` around `center`, both fractions
      of the DAC reference; `scale` is the factor applied to fit the headroom (1 when
      none was needed). */
  datatype Carrier = Carrier(center: real, amp: real, scale: real)

  /** The carrier's peak in volts, `(center + amp) * v_ref`. */
  function PeakVolts(c: Carrier, vRef: real): real
  {
    (c.center + c.amp) * vRef
  }

  lemma HalfAndHalf(vpp: real, vRef: real)
    requires vRef != 0.0
    ensures (vpp / 2.0 / vRef + vpp / 2.0 / vRef) * vRef == vpp
  {
    var x := vpp / 2.0 / vRef;
    assert x * vRef == vpp / 2.0;
  }

  lemma ScaledToTarget(x: real, vRef: real, target: real)
    requires (x + x) * vRef != 0.0
    ensures (x * (target / ((x + x) * vRef)) + x * (target / ((x + x) * vRef))) * vRef == target
  {
    var p := (x + x) * vRef;
    var s := target / p;
    assert s * p == target;
    assert (x * s + x * s) * vRef == s * p;
  }

  /** The carrier of `run_signal_chain` for a peak-to-peak request `vpp`. It is centred at
      `vpp/2` with amplitude `vpp/2` (so `center == amp` always); when its peak would
      exceed `MaxCarrierPeak` both are scaled by one common factor, which brings the peak
      exactly to that limit and is below 1 for a positive reference. The carrier fails with
      a division by zero exactly when the reference is zero, or when a zero request still
      exceeds the limit (which needs a negative reference). */
  function CarrierHeadroom(vpp: real, vRef: real, envMax: real): (r: Result<Carrier>)
    ensures r.Failure? <==> vRef == 0.0 || (vpp > MaxCarrierPeak(vRef, envMax) && vpp == 0.0)
    ensures r.Failure? ==> r.fault == DivisionByZero
    ensures r.Success? ==> r.value.center == r.value.amp
    ensures r.Success? ==> r.value.center == vpp / 2.0 / vRef * r.value.scale
    ensures r.Success? ==> PeakVolts(r.value, vRef) <= MaxCarrierPeak(vRef, envMax)
    ensures r.Success? && vpp <= MaxCarrierPeak(vRef, envMax) ==>
              r.value.scale == 1.0 && PeakVolts(r.value, vRef) == vpp
    ensures r.Success? && vpp > MaxCarrierPeak(vRef, envMax) ==>
              PeakVolts(r.value, vRef) == MaxCarrierPeak(vRef, envMax) &&
              (vRef > 0.0 ==> 0.0 < r.value.scale < 1.0)
  {
    if vRef == 0.0 then Failure(DivisionByZero)
    else
      var maxPeak := MaxCarrierPeak(vRef, envMax);
      var center := vpp / 2.0 / vRef;
      var amp := vpp / 2.0 / vRef;
      var peakVolts := (center + amp) * vRef;
      HalfAndHalf(vpp, vRef);
      if peakVolts > maxPeak then
        if peakVolts == 0.0 then Failure(DivisionByZero)
        else
          var scale := maxPeak / peakVolts;
          ScaledToTarget(center, vRef, maxPeak);
          ProperFraction(maxPeak, peakVolts);
          Success(Carrier(center * scale, amp * scale, scale))
      else
        Success(Carrier(center, amp, 1.0))
  }

  /** One carrier sample `center + amp * sin(wt)` before the clip. */
  function CarrierSample(c: Carrier, s: real): real
  {
    c.center + c.amp * s
  }

  /** The carrier samples clipped into the DAC's normalised range `[0, 1]`. */
  function DacInput(c: Carrier, sinWt: seq<real>): (x: seq<real>)
    ensures |x| == |sinWt|
    ensures forall i :: 0 <= i < |x| ==> x[i] == Clip(CarrierSample(c, sinWt[i]), 0.0, 1.0)
    ensures AllWithin(x, 0.0, 1.0)
  {
    ClipAll(seq(|sinWt|, i requires 0 <= i < |sinWt| => CarrierSample(c, sinWt[i])), 0.0, 1.0)
  }

  /** A peak at most `limit < v_ref` keeps `center + amp` below one. */
  lemma PeakBelowReference(sum: real, vRef: real, limit: real)
    requires vRef > 0.0 && sum * vRef <= limit < vRef
    ensures sum < 1.0
  {
    assert (sum - 1.0) * vRef < 0.0;
    ProductNonNegative(sum - 1.0, vRef);
  }

  /** A carrier whose `center == amp >= 0` and whose `center + amp` is below one keeps every
      sample of a sine in `[-1, 1]` inside `[0, 1)`. */
  lemma CarrierSampleInRange(c: Carrier, s: real)
    requires c.center == c.amp >= 0.0 && c.center + c.amp < 1.0 && -1.0 <= s <= 1.0
    ensures 0.0 <= CarrierSample(c, s) <= c.center + c.amp < 1.0
  {
    ProductNonNegative(c.amp, 1.0 - s);
    ProductNonNegative(c.amp, s + 1.0);
  }

  /** The carrier fitted for a positive reference and a non-negative request has a
      non-negative amplitude and a normalised peak below one. */
  lemma FittedCarrier(vpp: real, vRef: real, envMax: real)
    requires vRef > 0.0 && vpp >= 0.0 && CarrierHeadroom(vpp, vRef, envMax).Success?
    ensures var c := CarrierHeadroom(vpp, vRef, envMax).value;
            c.center == c.amp >= 0.0 && c.center + c.amp < 1.0
  {
    var c := CarrierHeadroom(vpp, vRef, envMax).value;
    assert c.scale > 0.0;
    ProductNonNegative(vpp / 2.0 / vRef, c.scale);
    PeakBelowReference(c.center + c.amp, vRef, MaxCarrierPeak(vRef, envMax));
  }

  /** With a positive reference and a non-negative peak-to-peak request the headroom rule
      leaves the `[0, 1]` clip with nothing to do: every carrier sample already lies in
      `[0, 1)`. */
  lemma HeadroomKeepsClipInactive(vpp: real, vRef: real, envMax: real, sinWt: seq<real>)
    requires vRef > 0.0 && vpp >= 0.0 && CarrierHeadroom(vpp, vRef, envMax).Success?
    requires forall i :: 0 <= i < |sinWt| ==> -1.0 <= sinWt[i] <= 1.0
    ensures var c := CarrierHeadroom(vpp, vRef, envMax).value;
            forall i :: 0 <= i < |sinWt| ==>
              DacInput(c, sinWt)[i] == CarrierSample(c, sinWt[i]) &&
              0.0 <= CarrierSample(c, sinWt[i]) < 1.0
  {
    FittedCarrier(vpp, vRef, envMax);
    var c := CarrierHeadroom(vpp, vRef, envMax).value;
    ClipInactive(c, sinWt);
  }

  lemma ClipInactive(c: Carrier, sinWt: seq<real>)
    requires c.center == c.amp >= 0.0 && c.center + c.amp < 1.0
    requires forall i :: 0 <= i < |sinWt| ==> -1.0 <= sinWt[i] <= 1.0
    ensures forall i :: 0 <= i < |sinWt| ==>
              DacInput(c, sinWt)[i] == CarrierSample(c, sinWt[i]) &&
              0.0 <= CarrierSample(c, sinWt[i]) < 1.0
  {
    forall i | 0 <= i < |sinWt|
      ensures 0.0 <= CarrierSample(c, sinWt[i]) < 1.0
    {
      CarrierSampleInRange(c, sinWt[i]);
    }
  }

  /** The headroom rule's purpose: an ideal DAC driven by the fitted carrier, amplitude
      modulated by any envelope value up to `env_max`, stays below the reference with the
      1% margin, `x * v_ref * (1 + e) <= v_ref / 1.01`. */
  lemma IdealModulatedWithinReference(vpp: real, vRef: real, envMax: real, s: real, e: real)
    requires vRef > 0.0 && vpp >= 0.0 && CarrierHeadroom(vpp, vRef, envMax).Success?
    requires -1.0 <= s <= 1.0 && e <= envMax
    ensures var c := CarrierHeadroom(vpp, vRef, envMax).value;
            DacInput(c, [s])[0] * vRef * (1.0 + e) <= vRef / HeadroomFactor
  {
    FittedCarrier(vpp, vRef, envMax);
    var c := CarrierHeadroom(vpp, vRef, envMax).value;
    ClipInactive(c, [s]);
    CarrierSampleInRange(c, s);
    ModulationBound(DacInput(c, [s])[0], c.center + c.amp, vRef, MaxCarrierPeak(vRef, envMax),
                    1.0 + e, 1.0 + Max(envMax, 0.0));
  }

  /** The arithmetic behind `IdealModulatedWithinReference`: a normalised sample `x` no
      larger than a peak `sum` with `sum * v_ref <= p`, modulated by `k <= m` with
      `m >= 1`, stays below `p * m`. */
  lemma ModulationBound(x: real, sum: real, vRef: real, p: real, k: real, m: real)
    requires vRef > 0.0 && 0.0 <= x <= sum && sum * vRef <= p
    requires m >= 1.0 && k <= m
    ensures x * vRef * k <= p * m
  {
    ProductNonNegative(x, vRef);
    ProductNonNegative(sum - x, vRef);
    var a := x * vRef;
    ProductNonNegative(a, m - k);
    ProductNonNegative(p - a, m);
  }

  // ---------------------------------------------------------------------------
  // ADC reconstruction
  // ---------------------------------------------------------------------------

  /** `code / (2^n - 1) * v_ref`: the voltage one ADC code stands for. A valid code maps
      into `[0, v_ref]` for a non-negative reference, code 0 to 0 V and the top code to
      exactly `v_ref`. */
  function CodeVolts(code: int, nBits: nat, vRef: real): (v: real)
    requires nBits >= 1
    ensures 0 <= code <= MaxCode(nBits) && vRef >= 0.0 ==> 0.0 <= v <= vRef
    ensures code == 0 ==> v == 0.0
    ensures code == MaxCode(nBits) ==> v == vRef
  {
    var m := MaxCode(nBits) as real;
    assert m >= 1.0;
    CodeFraction(code as real, m, vRef);
    code as real / m * vRef
  }

  lemma CodeFraction(c: real, m: real, vRef: real)
    requires m > 0.0
    ensures 0.0 <= c <= m && vRef >= 0.0 ==> 0.0 <= c / m * vRef <= vRef
    ensures c == 0.0 ==> c / m * vRef == 0.0
    ensures c == m ==> c / m * vRef == vRef
  {
    var q := c / m;
    assert q * m == c;
    assert (-q) * m == -c;
    assert (q - 1.0) * m == c - m;
    ProductPositive(-q, m);
    ProductPositive(q - 1.0, m);
    if 0.0 <= c <= m && vRef >= 0.0 {
      ScaleUnit(q, vRef);
    }
    if c == m {
      assert q == 1.0;
    }
  }

  /** `adc_codes / max_code * v_ref` over a whole array. */
  function Reconstruct(codes: seq<int>, nBits: nat, vRef: real): (v: seq<real>)
    requires nBits >= 1
    ensures |v| == |codes|
    ensures forall i :: 0 <= i < |codes| ==> v[i] == CodeVolts(codes[i], nBits, vRef)
    ensures ValidCodes(codes, nBits) && vRef >= 0.0 ==> AllWithin(v, 0.0, vRef)
  {
    seq(|codes|, i requires 0 <= i < |codes| => CodeVolts(codes[i], nBits, vRef))
  }

  /** Reconstruction is monotone: a larger code never stands for a lower voltage. */
  lemma CodeVoltsMonotone(a: int, b: int, nBits: nat, vRef: real)
    requires nBits >= 1 && vRef >= 0.0 && a <= b
    ensures CodeVolts(a, nBits, vRef) <= CodeVolts(b, nBits, vRef)
  {
    var m := MaxCode(nBits) as real;
    var qa := a as real / m;
    var qb := b as real / m;
    QuotientMonotone(a as real, b as real, m);
    ProductNonNegative(qb - qa, vRef);
    assert qb * vRef - qa * vRef == (qb - qa) * vRef;
  }

  // ---------------------------------------------------------------------------
  // The chain
  // ---------------------------------------------------------------------------

  /** The DAC settings `run_signal_chain` reads from `dac_params` (defaults already filled in). */
  datatype DacParams = DacParams(vRef: real, nBits: nat, inlLsb: real, dnlLsb: real,
                                 gainError: real, offsetError: real, glitchEnergyFrac: real)

  /** The ADC settings `run_signal_chain` reads from `adc_params`. */
  datatype AdcParams = AdcParams(vRef: real, nBits: nat, gainError: real, offsetError: real,
                                 inlLsb: real, dnlLsb: real, apertureJitterSec: real)

  /** The op-amp settings `run_signal_chain` reads from `opamp_params`. */
  datatype OpAmpParams = OpAmpParams(bandwidthHz: real, noiseRms: real, offsetVoltage: real,
                                     gainError: real)

  /** `default_rng(SEED + 1).normal(0, rms, n)`: `n` Gaussian samples of a given RMS. */
  type NoiseSource = f: (real, nat) -> seq<real> | forall rms, n :: |f(rms, n)| == n
    witness (rms: real, n: nat) => seq(n, _ => 0.0)

  function DacConfigOf(dp: DacParams): DacConfig
  {
    DacConfig(DacSampleRateHz, dp.nBits, dp.vRef, dp.inlLsb, dp.dnlLsb, dp.gainError,
              dp.offsetError, dp.glitchEnergyFrac, None)
  }

  function AdcConfigOf(ap: AdcParams): AdcConfig
  {
    AdcConfig(AdcSampleRateHz, ap.nBits, ap.vRef, ap.gainError, ap.offsetError, ap.inlLsb,
              ap.dnlLsb, ap.apertureJitterSec)
  }

  /** The signals `run_signal_chain` returns, up to the ADC output. */
  datatype ChainResult = ChainResult(
    envelopeVoltage: seq<real>,
    envelopePeak: real,
    modulationDepthPct: real,
    carrierAmp: real,
    carrierAmpVolts: real,
    dacInput: seq<real>,
    dacOutput: seq<real>,
    dacOutputIdeal: seq<real>,
    opAmpOutput: seq<real>,
    adcInput: seq<real>,
    adcOutput: seq<real>)

  /** The element-wise unity-gain buffer `v * (1 + gain_error) + offset`. */
  function Buffer(v: seq<real>, gainError: real, offset: real): (r: seq<real>)
    ensures |r| == |v|
  {
    seq(|v|, i requires 0 <= i < |v| => v[i] * (1.0 + gainError) + offset)
  }

  /** Element-wise `a * (1 + b)`: the amplitude modulation of the DAC output. */
  function Modulate(a: seq<real>, b: seq<real>): (r: seq<real>)
    requires |a| == |b|
    ensures |r| == |a|
  {
    seq(|a|, i requires 0 <= i < |a| => a[i] * (1.0 + b[i]))
  }

  /** Element-wise sum. */
  function AddAll(a: seq<real>, b: seq<real>): (r: seq<real>)
    requires |a| == |b|
    ensures |r| == |a|
  {
    seq(|a|, i requires 0 <= i < |a| => a[i] + b[i])
  }

  /** `np.max(np.abs(envelope))`: the largest magnitude of the envelope, which bounds every
      sample's magnitude and is reached by one of them. */
  function EnvelopePeak(envelope: seq<real>): (p: real)
    requires |envelope| > 0
    ensures p >= 0.0
    ensures forall i :: 0 <= i < |envelope| ==> Abs(envelope[i]) <= p
    ensures exists i :: 0 <= i < |envelope| && Abs(envelope[i]) == p
  {
    var mags := seq(|envelope|, i requires 0 <= i < |envelope| => Abs(envelope[i]));
    assert forall i :: 0 <= i < |envelope| ==> mags[i] == Abs(envelope[i]);
    SeqMax(mags)
  }

  /** The carrier amplitude in volts, `carrier_amp * v_ref`. */
  function AmpVolts(c: Carrier, vRef: real): real
  {
    c.amp * vRef
  }

  /** The op-amp stage of the chain: buffer, add noise when its RMS is positive, and
      low-pass at `min(bw / (fs/2), 0.99)` when the bandwidth is below a quarter of the
      sample rate; a non-positive bandwidth is a cutoff the filter design rejects. */
  function OpAmpStage(modulated: seq<real>, op: OpAmpParams, noise: NoiseSource,
                      filter: Lowpass): (r: Result<seq<real>>)
    ensures r.Success? ==> |r.value| == |modulated|
    ensures r.Failure? <==> op.bandwidthHz <= 0.0
    ensures r.Failure? ==> r.fault == InvalidCutoff
    ensures op.bandwidthHz >= DacSampleRateHz / 4.0 && op.noiseRms <= 0.0 ==>
              r == Success(Buffer(modulated, op.gainError, op.offsetVoltage))
    ensures op.bandwidthHz >= DacSampleRateHz / 4.0 && op.noiseRms > 0.0 ==>
              r == Success(AddAll(Buffer(modulated, op.gainError, op.offsetVoltage),
                                  noise(op.noiseRms, |modulated|)))
    ensures 0.0 < op.bandwidthHz < DacSampleRateHz / 4.0 && op.noiseRms <= 0.0 ==>
              r == Success(filter(Buffer(modulated, op.gainError, op.offsetVoltage),
                                  OpAmpCutoff(op.bandwidthHz).value))
    ensures 0.0 < op.bandwidthHz < DacSampleRateHz / 4.0 && op.noiseRms > 0.0 ==>
              r == Success(filter(AddAll(Buffer(modulated, op.gainError, op.offsetVoltage),
                                         noise(op.noiseRms, |modulated|)),
                                  OpAmpCutoff(op.bandwidthHz).value))
  {
    var buffered := Buffer(modulated, op.gainError, op.offsetVoltage);
    var noisy :=
      if op.noiseRms > 0.0 then AddAll(buffered, noise(op.noiseRms, |buffered|)) else buffered;
    if op.bandwidthHz < DacSampleRateHz / 4.0 then
      var wn := OpAmpCutoff(op.bandwidthHz);
      if wn.Failure? then Failure(wn.fault) else Success(filter(noisy, wn.value))
    else Success(noisy)
  }

  /** An ideal op-amp (no gain error, no offset, no noise, ample bandwidth) is a perfect
      voltage follower: the stage hands the modulated signal on unchanged. */
  lemma IdealFollowerTransparent(modulated: seq<real>, op: OpAmpParams, noise: NoiseSource,
                                 filter: Lowpass)
    requires op.gainError == 0.0 && op.offsetVoltage == 0.0 && op.noiseRms <= 0.0
    requires op.bandwidthHz >= DacSampleRateHz / 4.0
    ensures OpAmpStage(modulated, op, noise, filter) == Success(modulated)
  {
    var b := Buffer(modulated, op.gainError, op.offsetVoltage);
    assert forall i :: 0 <= i < |b| ==> b[i] == modulated[i];
    assert b == modulated;
  }

  /** `run_signal_chain` up to the reconstructed ADC output, with the sampled sine
      `sin(w t)` and the envelope interpolated onto `t` supplied by the caller. The DAC and
      the ADC are new simulators seeded with `SEED`; the op-amp stage draws its noise from
      `noise`. The chain fails exactly when the time axis is empty (the envelope's maximum),
      when the carrier headroom rule divides by zero, or when the op-amp bandwidth is not
      positive (the filter design rejects the cutoff). */
  method RunSignalChain(t: seq<real>, sinWt: seq<real>, envelopeInterp: seq<real>,
                        carrierVpp: real, dp: DacParams, ap: AdcParams, op: OpAmpParams,
                        dacErrors: DacErrorModel, adcErrors: AdcErrorModel,
                        noise: NoiseSource, filter: Lowpass)
    returns (r: Result<ChainResult>)
    requires |sinWt| == |t| && |envelopeInterp| == |t|
    requires ap.nBits >= 1
    ensures r.Failure? <==>
              || |t| == 0
              || CarrierHeadroom(carrierVpp, dp.vRef, SeqMax(envelopeInterp)).Failure?
              || op.bandwidthHz <= 0.0
    ensures |t| == 0 ==> r == Failure(EmptyArray)
    ensures |t| > 0 && CarrierHeadroom(carrierVpp, dp.vRef, SeqMax(envelopeInterp)).Failure? ==>
              r == Failure(DivisionByZero)
    ensures (|t| > 0 && CarrierHeadroom(carrierVpp, dp.vRef, SeqMax(envelopeInterp)).Success? &&
             op.bandwidthHz <= 0.0) ==> r == Failure(InvalidCutoff)
    ensures r.Success? ==>
              var c := CarrierHeadroom(carrierVpp, dp.vRef, SeqMax(envelopeInterp));
              var res := r.value;
              && |t| > 0 && c.Success?
              && res.envelopeVoltage == envelopeInterp
              && res.envelopePeak == EnvelopePeak(envelopeInterp)
              && res.modulationDepthPct == res.envelopePeak * 100.0
              && res.carrierAmp == c.value.amp
              && res.carrierAmpVolts == AmpVolts(c.value, dp.vRef)
              && res.dacInput == DacInput(c.value, sinWt)
              && AllWithin(res.dacInput, 0.0, 1.0)
              && res.dacOutput == ScaleAll(dacErrors(DacCodes(res.dacInput, MaxCode(dp.nBits)),
                                                     DacConfigOf(dp), Rng(Seed)).samples, dp.vRef)
              && res.dacOutputIdeal == ScaleAll(res.dacInput, dp.vRef)
              && OpAmpStage(Modulate(res.dacOutput, envelopeInterp), op, noise, filter)
                   == Success(res.opAmpOutput)
              && res.adcInput == ClipAll(res.opAmpOutput, 0.0, ap.vRef)
              && res.adcOutput == Reconstruct(adcErrors(res.adcInput, AdcConfigOf(ap),
                                                        Rng(Seed)).codes, ap.nBits, ap.vRef)
              && (ap.vRef >= 0.0 ==>
                    AllWithin(res.adcInput, 0.0, ap.vRef) && AllWithin(res.adcOutput, 0.0, ap.vRef))
              && |res.dacOutput| == |res.adcInput| == |res.adcOutput| == |t|
  {
    if |t| == 0 {
      return Failure(EmptyArray);
    }
    var envMax := SeqMax(envelopeInterp);
    var carrier := CarrierHeadroom(carrierVpp, dp.vRef, envMax);
    if carrier.Failure? {
      assert carrier.fault == DivisionByZero;
      return Failure(carrier.fault);
    }
    var dacInputDigital := DacInput(carrier.value, sinWt);

    var dac := new DacSimulator(DacConfigOf(dp), Some(Seed), 0, dacErrors);
    var dacOutput := dac.DigitalToAnalog(dacInputDigital);
    assert dacOutput.Success?;
    var dacOutputIdeal := ScaleAll(dacInputDigital, dp.vRef);

    var modulated := Modulate(dacOutput.value, envelopeInterp);
    var envelopePeak := EnvelopePeak(envelopeInterp);
    var opAmpOutput := OpAmpStage(modulated, op, noise, filter);
    if opAmpOutput.Failure? {
      assert opAmpOutput.fault == InvalidCutoff;
      return Failure(opAmpOutput.fault);
    }
    assert op.bandwidthHz > 0.0;

    var adcInput := ClipAll(opAmpOutput.value, 0.0, ap.vRef);
    var adc := new AdcSimulator(AdcConfigOf(ap), Some(Seed), 0, adcErrors);
    var adcCodes := adc.AnalogToDigital(adcInput);
    var adcOutput := Reconstruct(adcCodes, ap.nBits, ap.vRef);

    r := Success(ChainResult(envelopeInterp, envelopePeak, envelopePeak * 100.0,
                             carrier.value.amp, AmpVolts(carrier.value, dp.vRef), dacInputDigital,
                             dacOutput.value, dacOutputIdeal, opAmpOutput.value, adcInput,
                             adcOutput));
  }
}
