# Impedance-analyzer testbench: verified model of the signal-chain logic

This project models, in Dafny, the decidable core of the testbench for the Digital Lock-In
Amplifier (DLIA) used in impedance cytometry. The testbench simulates the chain DAC →
impedance sensor → transimpedance amplifier → ADC → demodulation. The model covers:

- **Component simulators** (`Testing/simulators.py`):
  - `DACSimulator`: code normalisation and clipping, scaling by `v_ref`, and its own seeded
    random generator.
  - `ImpedanceSimulator`: the parallel-RC, series-RC and series-RLC case analysis with exact
    DC limits, its real/imaginary accessors, and the zero-impedance guard of
    `current_from_voltage`.
  - `OpAmpSimulator`: the ideal `-I·Rf` transfer.
  - `ADCSimulator`: delegation to its error model with its own generator.
- **Chain rules** (`Testing/dlia_signal_chain_gui.py`):
  - the search for the largest pulse in the recorded envelope;
  - the clamp on the low-pass filter's normalised cutoff;
  - the carrier headroom rule that keeps amplitude modulation below the DAC reference;
  - the clips at the DAC and ADC inputs;
  - the reconstruction of volts from ADC codes;
  - the chain that connects them, up to the ADC output.

float64 arrays are `seq<real>`, so the model uses exact arithmetic. Complex numbers are pairs
of reals. Python exceptions on the modelled paths become `Failure` values:
- numpy's `max` of an empty array;
- `ZeroDivisionError`;
- scipy rejecting a non-positive cutoff;
- scipy's `sosfiltfilt` rejecting a signal no longer than its edge padding.

The component error models `dac_errors`, `adc_errors` and `opamp_errors` are in generators.py,
which is not part of this model. Each one becomes a function-valued parameter of the
simulator's constructor, constrained only by:
- it returns one output per input;
- the ADC model returns codes in `[0, 2^n_bits - 1]`.

A `numpy.random.Generator` is an `Rng` value that each model call takes and returns. The
simulators are classes whose only mutable field is that generator.

Modules:
- `Results`: `Option`, `Result`, `Fault`.
- `Numerics`: `clip`, element-wise scaling, `max`/`min`, `2^n - 1`, complex pairs, and small
  real-arithmetic lemmas.
- `ErrorModels`: generator, configuration records, error-model types.
- `Impedance`.
- `Simulators`: DAC, TIA, ADC, generator ownership.
- `Envelope`: `find_largest_envelope`.
- `SignalChain`: cutoffs, headroom, reconstruction, `run_signal_chain`.

## Model

| member | source | states |
|---|---|---|
| Numerics.Clip | Testing/dlia_signal_chain_gui.py:282 | `numpy.clip` as `min(max(x, lo), hi)`: result in `[lo, hi]` when `lo <= hi`, unchanged inside, `lo`/`hi` outside, `hi` for an empty interval |
| Numerics.ClipAll | Testing/simulators.py:84 | element-wise clip: same length, each element is the clip of the input element |
| Numerics.ExtremaWithin | Testing/simulators.py:82 | `max(s) <= hi and min(s) >= lo` holds exactly when every element lies in `[lo, hi]` (both directions) |
| Numerics.SeqMax | Testing/simulators.py:82 | `numpy.max` of a non-empty array bounds every element and is one of them |
| Numerics.SeqMin | Testing/simulators.py:82 | `numpy.min` of a non-empty array is bounded by every element and is one of them |
| Numerics.MaxCode | Testing/simulators.py:72 | `_max_code + 1 == 2^n_bits`, and `_max_code >= n_bits`, so a converter of at least one bit has a positive top code to divide by |
| ErrorModels.DefaultRng | Testing/simulators.py:71 | an explicit (non-negative) seed fixes the generator state; only `seed=None` depends on outside entropy |
| Impedance.Omega | Testing/simulators.py:142 | angular frequency is never zero and is `2πf` whenever `\|f\| >= 1e-30` |
| Impedance.ZComplex | Testing/simulators.py:135-154 | one impedance per frequency; series topologies give exactly `R + 0j` at `\|f\| < 1e-30`; an unknown model name gives `R + 0j` everywhere |
| Impedance.ResistanceReal | Testing/simulators.py:156-158 | same length, element `i` is `Re(Z(f_i))` |
| Impedance.ReactanceImaginary | Testing/simulators.py:160-162 | same length, element `i` is `Im(Z(f_i))` |
| Impedance.SeriesReactance | Testing/simulators.py:146-151 | away from DC a series load has real part `R`, reactance `-1/(2πfC)` (non-zero) for series-RC and `2πfL - 1/(2πfC)` for series-RLC |
| Impedance.ParallelRcPassive | Testing/simulators.py:143-145 | parallel RC with `R > 0` and any `C`: `Re(Z) = R/(1+(ωRC)^2) > 0`, `\|Z\|^2 = R·Re(Z) <= R^2` |
| Impedance.CurrentFromVoltage | Testing/simulators.py:172-187 | same length; all zeros when `\|Z\| < 1e-18`; otherwise each current satisfies `I·\|Z\|^2 = V·Re(Z)`, i.e. `I = Re(V/Z)` |
| Impedance.ResistiveOhmsLaw | Testing/simulators.py:184-187 | through a real impedance of at least `1e-18` ohms, `I·R = V` for every sample |
| Simulators.SettlingTime | Testing/simulators.py:70 | a non-zero settling time is kept; a missing or zero one becomes one sample period (`t·fs = 1`), failing with a division by zero exactly when `fs = 0` |
| Simulators.DacCodes | Testing/simulators.py:81-84 | codes keep the input length and lie in `[0, _max_code]`; if every input is in `[0, 1]` all are scaled by `_max_code`, otherwise none is and the input is only clipped |
| Simulators.IntegerCodesPassThrough | Testing/simulators.py:82-84 | an array of in-range integer codes with any code above 1 reaches the error model unchanged |
| Simulators.DacSimulator.constructor | Testing/simulators.py:49-72 | stores the configuration, the settling time and the error model and seeds the generator from `seed` |
| Simulators.DacSimulator.DigitalToAnalog | Testing/simulators.py:74-96 | empty input fails and leaves the generator alone; otherwise the output is the error model's samples for `DacCodes` times `v_ref`, same length, and the generator advances to the state the model returns |
| Simulators.DacSimulator.Run | Testing/simulators.py:98-100 | the same contract as `DigitalToAnalog` |
| Simulators.TiaIdeal | Testing/simulators.py:229 | ideal transimpedance output `-I·Rf` per sample, same length |
| Simulators.TiaInvertsResistiveLoad | Testing/simulators.py:229 | a resistive load of `Rf` ohms driven by `V` and read through the ideal TIA gives back exactly `-V` |
| Simulators.OpAmpSimulator.constructor | Testing/simulators.py:205-221 | stores the configuration and error model and seeds the generator from `seed` |
| Simulators.OpAmpSimulator.Run | Testing/simulators.py:223-238 | output is the error model applied to `-I·Rf` with this simulator's generator, same length; the generator advances |
| Simulators.AdcSimulator.constructor | Testing/simulators.py:255-275 | stores the configuration and error model and seeds the generator from `seed` |
| Simulators.AdcSimulator.AnalogToDigital | Testing/simulators.py:277-294 | codes are the error model's codes for the input under this simulator's generator: one per sample, each in `[0, 2^n_bits - 1]` |
| Simulators.AdcSimulator.Run | Testing/simulators.py:296-298 | the same contract as `AnalogToDigital` |
| Simulators.SeededDacsAgree | Testing/simulators.py:71-96 | two DACs seeded alike give the same first conversion even when other simulators convert in between |
| Simulators.ConvertersOwnGenerators | Testing/simulators.py:275-294 | converting on a DAC does not disturb an ADC's generator: the ADC's first codes are those of its seed |
| Envelope.ExtendSamplesIs28 | Testing/dlia_signal_chain_gui.py:100 | `int(0.002 * 14e3) = 28` padding samples |
| Envelope.PeakIndex | Testing/dlia_signal_chain_gui.py:90 | the index of a largest deviation from the baseline, and the first such index |
| Envelope.LeftEdge | Testing/dlia_signal_chain_gui.py:92-94 | the leftward walk stops at or before the peak, at index 0 or at a sample within the margin, and every sample it passed deviates by more than the margin |
| Envelope.RightEdge | Testing/dlia_signal_chain_gui.py:96-98 | the mirror image for the rightward walk, ending at the last index or within the margin |
| Envelope.LeftEdgeUnique | Testing/dlia_signal_chain_gui.py:92-94 | the stopping properties determine the left edge: any index that has them is the one the walk reaches |
| Envelope.RightEdgeUnique | Testing/dlia_signal_chain_gui.py:96-98 | the same uniqueness for the right edge |
| Envelope.WalkLeft | Testing/dlia_signal_chain_gui.py:92-94 | the leftward `while` loop from the peak stops exactly at `LeftEdge` |
| Envelope.WalkRight | Testing/dlia_signal_chain_gui.py:96-98 | the rightward `while` loop from the peak stops exactly at `RightEdge` |
| Envelope.PaddedWindow | Testing/dlia_signal_chain_gui.py:99-102 | the padded window contains the peak and stays inside the array |
| Envelope.EnvelopeWindow | Testing/dlia_signal_chain_gui.py:86-102 | indices satisfy `left <= right < n`; a flat signal (`span < 1e-30`) gives `(0, n-1)`; otherwise `left <= peak <= right` |
| Envelope.WindowCoversPulse | Testing/dlia_signal_chain_gui.py:92-102 | the window is each walk's end padded by 28 and clamped to the array; every sample strictly between the two ends deviates by more than the margin, and each end is at the baseline or at the array's edge |
| Envelope.FindLargestEnvelope | Testing/dlia_signal_chain_gui.py:75-103 | returns the indices of `EnvelopeWindow` and the signal and time slices `[left, right]`, of length `right - left + 1` |
| Envelope.IsolateEnvelope | Testing/dlia_signal_chain_gui.py:109-114 | fewer than 10 samples gives nothing; otherwise the window's samples, and times shifted so that the first is 0 |
| SignalChain.NormalizedCutoff | Testing/dlia_signal_chain_gui.py:130-135 | fails exactly when `fs = 0`; otherwise `wn` is in `[1e-6, 0.9999]`, equals `(enbw/1.026)/(fs/2)` when that is in range, and is the nearer bound otherwise |
| SignalChain.ButterworthLowpass | Testing/dlia_signal_chain_gui.py:125-139 | fails exactly when `fs = 0` (division by zero) or the signal has at most 15 samples (`sosfiltfilt`'s padding); otherwise the filter is applied at the clamped cutoff and keeps the length |
| SignalChain.SaturatedCutoffsAgree | Testing/dlia_signal_chain_gui.py:130-135 | two bandwidths whose raw cutoffs both reach the `0.9999` clamp filter a signal identically |
| SignalChain.OpAmpCutoff | Testing/dlia_signal_chain_gui.py:274-276 | `wn = min(bw/(fs/2), 0.99)`, accepted exactly when `bw > 0`, and then in `(0, 0.99]` |
| SignalChain.MaxCarrierPeak | Testing/dlia_signal_chain_gui.py:203-204 | `max_carrier_peak · (1 + max(env_max, 0)) = v_ref / 1.01`; positive and below `v_ref` for a positive reference |
| SignalChain.CarrierHeadroom | Testing/dlia_signal_chain_gui.py:209-217 | fails (division by zero) exactly when `v_ref = 0` or a zero request still exceeds the limit, so it succeeds whenever the peak fits under a non-zero reference; `center = amp` always; if the peak fits it is `vpp` and is kept, otherwise both are scaled by one factor that brings the peak exactly to the limit and lies in `(0, 1)` for a positive reference |
| SignalChain.DacInput | Testing/dlia_signal_chain_gui.py:220-221 | same length; sample `i` is `clip(center + amp·sin(ωt_i), 0, 1)`, hence in `[0, 1]` |
| SignalChain.HeadroomKeepsClipInactive | Testing/dlia_signal_chain_gui.py:206-221 | with `v_ref > 0` and `vpp >= 0` the fitted carrier already lies in `[0, 1)`, so the clip changes nothing |
| SignalChain.IdealModulatedWithinReference | Testing/dlia_signal_chain_gui.py:194-204 | an ideal DAC output modulated by any envelope value up to `env_max` stays at or below `v_ref / 1.01` |
| SignalChain.CodeVolts | Testing/dlia_signal_chain_gui.py:297-298 | a valid code maps into `[0, v_ref]`, code 0 to 0 V, the top code to exactly `v_ref` |
| SignalChain.CodeVoltsMonotone | Testing/dlia_signal_chain_gui.py:297-298 | a larger code never reconstructs to a lower voltage |
| SignalChain.Reconstruct | Testing/dlia_signal_chain_gui.py:296-298 | same length, element-wise `CodeVolts`; valid codes reconstruct into `[0, v_ref]` |
| SignalChain.EnvelopePeak | Testing/dlia_signal_chain_gui.py:252 | `np.max(np.abs(envelope))`: non-negative, at least every sample's magnitude, and equal to one of them |
| SignalChain.OpAmpStage | Testing/dlia_signal_chain_gui.py:258-277 | keeps the length; fails (invalid cutoff) exactly when the bandwidth is not positive; otherwise it is the buffer `v·(1+gain_error)+offset`, plus the noise draw when `noise_rms > 0`, low-passed at `OpAmpCutoff(bw)` when `bw < fs/4` — each of the four cases stated separately |
| SignalChain.IdealFollowerTransparent | Testing/dlia_signal_chain_gui.py:263-277 | with no gain error, offset or noise and a bandwidth of at least `fs/4`, the stage returns the modulated signal unchanged |
| SignalChain.RunSignalChain | Testing/dlia_signal_chain_gui.py:163-323 | fails exactly when the time axis is empty (`EmptyArray`), the headroom rule divides by zero (`DivisionByZero`) or the op-amp bandwidth is not positive (`InvalidCutoff`), and succeeds otherwise, up to the ADC output (the code's later demodulation also raises for `1 <= |t| <= 15`, see `ButterworthLowpass`). On success: `envelope_voltage` is the envelope, `envelope_peak` is `EnvelopePeak`, `modulation_depth_pct = 100·envelope_peak`, `carrier_amp` is the fitted amplitude and `carrier_amp_volts = carrier_amp·v_ref`; the DAC input is the fitted carrier clipped into `[0, 1]`; DAC and ADC outputs are their error models under generators seeded with 42; the op-amp output is `OpAmpStage` of the modulated DAC output; the ADC input and output lie in `[0, adc_v_ref]` for a non-negative reference; all lengths are preserved |

## Left out

- The GUI and `main`: plotting, sliders, the command box and the statistics text.
- `load_full_signal`: file reading. `IsolateEnvelope` starts from the loaded samples.
- Testing/input_signal.py: it loads a file and plots it.
- `np.median` and `np.percentile` in `find_largest_envelope`. The baseline and the spread are parameters.
- `np.interp` (`interpolate_to_rate`) and `np.sin`. The sampled sine and the interpolated envelope are inputs of `RunSignalChain`.
- The Butterworth designs and filtering (`butter`, `sosfiltfilt`, `sosfilt`). Each becomes a length-preserving `Lowpass` function applied at the modelled cutoff.
- `demodulate_iq` and the three demodulated outputs of `run_signal_chain`. Their content is floating-point DSP through scipy. `RunSignalChain` stops at the reconstructed ADC output.
- `dac_errors`, `adc_errors`, `opamp_errors` and the op-amp stage's Gaussian noise. Their code is in generators.py, which is not part of this model. They are parameters constrained only to preserve length; the ADC codes' range is an assumption about that code.
- Generator draws: only generator ownership is modelled. The state is a value threaded through each call.
- `ImpedanceSimulator.magnitude` and `phase_rad`: they need a square root and `atan2`.
- Float64 rounding: all arithmetic is exact. Equalities such as "the scaled peak equals `max_carrier_peak`" hold in exact reals only.
- Impedance.ZAt: a series topology with `C = 0` is required away from it (`WellFormed`), because numpy divides by zero there and produces infinities, not an exception.
- Impedance.CurrentFromVoltage: the `|Z| < 1e-18` test is made on `|Z|^2 < 1e-36`, which is equivalent for exact reals.
- SignalChain.CodeVolts, SignalChain.Reconstruct, SignalChain.RunSignalChain: require `n_bits >= 1` for the ADC. With `n_bits = 0`, numpy divides by a zero `max_code` and produces NaN/infinity rather than raising.
- SignalChain.RunSignalChain: `dac_params.get(...)` defaults are resolved before the call. The parameter dictionaries are records.
- SignalChain.RunSignalChain: `env_min` is computed but never used, so it is not modelled.
- SignalChain.RunSignalChain: the envelope is interpolated twice in the code, once for the preview and once for modulation. Both give the same array, so the model takes it once as `envelopeInterp`.
- SignalChain.RunSignalChain: the printed scaling message is not modelled.
- DacSimulator.constructor: `settling_time_sec or 1/sample_rate_hz` raising `ZeroDivisionError` is a precondition (`SettlingTime(config).Success?`). A constructor cannot return a failure; `SettlingTime` models the error case itself.
- SignalChain.RunSignalChain: stops before `demodulate_iq`, whose `sosfiltfilt` raises `ValueError` for a signal of at most 15 samples; for `1 <= |t| <= 15` the code raises there while the model returns `Success` with the signals up to the ADC output. `ButterworthLowpass` models that error on its own.
- SignalChain.CarrierHeadroom: with a negative reference, a zero request and `env_max >= 0`, the code divides the numpy float64 `max_carrier_peak` by zero, which gives `-inf` with a warning and then NaN carrier values rather than an exception; the model returns `Failure(DivisionByZero)` there. (With `env_max < 0` the division is between Python floats and does raise `ZeroDivisionError`.)
- ErrorModels.DefaultRng: seeds are typed `nat`, so the `ValueError` numpy raises for a negative integer seed is not modelled. Every seed the chain passes (42) is non-negative.
- Numerics.MaxCode: `n_bits` is typed `nat`, so the `ValueError` that `1 << n_bits` raises for a negative width is not modelled.
