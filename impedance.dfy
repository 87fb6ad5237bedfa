/** `ImpedanceSimulator`: a frequency-dependent complex load Z(f) = R(f) + jX(f) and the
    single-tone current it draws. The simulator's fields are fixed at construction and
    every operation is a pure case expression over them, so it is a datatype here. */
module Impedance {
  import opened Numerics

  /** `np.pi` as float64 prints it. */
  const Pi: real := 3.141592653589793

  /** Frequencies with `|f| < 1e-30` are treated as DC. */
  const DcEpsilon: real := 1e-30

  /** `current_from_voltage` returns zeros when `|Z| < 1e-18`. */
  const MinImpedance: real := 1e-18

  const ParallelRc: string := "parallel_rc"
  const SeriesRc: string := "series_rc"
  const SeriesRlc: string := "series_rlc"

  /** Resistance in ohms, capacitance in farads, inductance in henries and the topology
      name; any name other than the three above selects a pure resistor. */
  datatype ImpedanceSimulator = ImpedanceSimulator(R: real, C: real, L: real, model: string)

  predicate IsSeries(imp: ImpedanceSimulator)
  {
    imp.model == SeriesRc || imp.model == SeriesRlc
  }

  predicate IsRecognised(imp: ImpedanceSimulator)
  {
    imp.model == ParallelRc || IsSeries(imp)
  }

  /** A series topology with `C = 0` divides by zero at every non-DC frequency. */
  predicate WellFormed(imp: ImpedanceSimulator)
  {
    IsSeries(imp) ==> imp.C != 0.0
  }

  /** Angular frequency `2*pi*f`, with `|f| < 1e-30` replaced by `1e-30` (the sign of a
      larger negative `f` is kept). It is never zero. */
  function Omega(f: real): (w: real)
    ensures w != 0.0
    ensures Abs(f) >= DcEpsilon ==> w == 2.0 * Pi * f
  {
    2.0 * Pi * (if Abs(f) < DcEpsilon then DcEpsilon else f)
  }

  lemma SquarePositive(x: real)
    requires x != 0.0
    ensures x * x > 0.0
  {
    if x < 0.0 { assert x * x == (-x) * (-x); }
  }

  /** `1/(j*m)` for a non-zero reactance factor `m`. */
  function InverseJ(m: real): (z: Complex)
    requires m != 0.0
    ensures z == Complex(0.0, -1.0 / m)
  {
    SquarePositive(m);
    var d := NormSq(Complex(0.0, m));
    assert d == m * m;
    assert -m / (m * m) == -1.0 / m;
    CDiv(Real(1.0), Complex(0.0, m))
  }

  /** The parallel-RC phase factor `wRC`. */
  function OmegaRc(imp: ImpedanceSimulator, f: real): real
  {
    Omega(f) * imp.R * imp.C
  }

  /** `R / (1 + jk)`: a resistor `R` in parallel with a capacitor, with `k = wRC`. */
  function ParallelZ(R: real, k: real): Complex
  {
    SquareNonNegative(k);
    CDiv(Real(R), Complex(1.0, k))
  }

  /** Z at one frequency: the element computed by `z_complex` for that entry. */
  function ZAt(imp: ImpedanceSimulator, f: real): (z: Complex)
    requires WellFormed(imp)
  {
    var w := Omega(f);
    if imp.model == ParallelRc then ParallelZ(imp.R, OmegaRc(imp, f))
    else if imp.model == SeriesRc then
      if Abs(f) < DcEpsilon then Real(imp.R)
      else CAdd(Real(imp.R), InverseJ(w * imp.C))
    else if imp.model == SeriesRlc then
      if Abs(f) < DcEpsilon then Real(imp.R)
      else CAdd(CAdd(Real(imp.R), Complex(0.0, w * imp.L)), InverseJ(w * imp.C))
    else
      Real(imp.R)
  }

  /** `z_complex(f_hz)`: one impedance per frequency. Both series topologies resolve the
      DC limit exactly to `R + 0j`, and an unrecognised topology is a pure resistor. */
  function ZComplex(imp: ImpedanceSimulator, fs: seq<real>): (zs: seq<Complex>)
    requires WellFormed(imp)
    ensures |zs| == |fs|
    ensures forall i :: 0 <= i < |fs| ==> zs[i] == ZAt(imp, fs[i])
    ensures forall i :: 0 <= i < |fs| && IsSeries(imp) && Abs(fs[i]) < DcEpsilon ==>
              zs[i] == Complex(imp.R, 0.0)
    ensures !IsRecognised(imp) ==> forall i :: 0 <= i < |fs| ==> zs[i] == Complex(imp.R, 0.0)
  {
    seq(|fs|, i requires 0 <= i < |fs| => ZAt(imp, fs[i]))
  }

  /** `resistance_real(f_hz)`: the real part of each impedance. */
  function ResistanceReal(imp: ImpedanceSimulator, fs: seq<real>): (rs: seq<real>)
    requires WellFormed(imp)
    ensures |rs| == |fs|
    ensures forall i :: 0 <= i < |fs| ==> rs[i] == ZComplex(imp, fs)[i].re
  {
    var zs := ZComplex(imp, fs);
    seq(|zs|, i requires 0 <= i < |zs| => zs[i].re)
  }

  /** `reactance_imaginary(f_hz)`: the imaginary part of each impedance. */
  function ReactanceImaginary(imp: ImpedanceSimulator, fs: seq<real>): (xs: seq<real>)
    requires WellFormed(imp)
    ensures |xs| == |fs|
    ensures forall i :: 0 <= i < |fs| ==> xs[i] == ZComplex(imp, fs)[i].im
  {
    var zs := ZComplex(imp, fs);
    seq(|zs|, i requires 0 <= i < |zs| => zs[i].im)
  }

  /** Away from DC a series load keeps its resistance as real part, and its reactance is
      capacitive (`-1/(wC)`) for series-RC and `wL - 1/(wC)` for series-RLC. */
  lemma SeriesReactance(imp: ImpedanceSimulator, f: real)
    requires IsSeries(imp) && WellFormed(imp) && Abs(f) >= DcEpsilon
    ensures ResistanceReal(imp, [f])[0] == imp.R
    ensures imp.model == SeriesRc ==>
              ReactanceImaginary(imp, [f])[0] == -1.0 / (2.0 * Pi * f * imp.C) != 0.0
    ensures imp.model == SeriesRlc ==>
              ReactanceImaginary(imp, [f])[0] == 2.0 * Pi * f * imp.L - 1.0 / (2.0 * Pi * f * imp.C)
  {
    var w := Omega(f);
    assert w * imp.C == 2.0 * Pi * f * imp.C;
    assert ZComplex(imp, [f])[0] == ZAt(imp, f);
  }

  /** A parallel-RC load with `R > 0` is passive: its real part is
      `R/(1+(wRC)^2) > 0` and `|Z|^2 = R*Re(Z) <= R^2` at every frequency. */
  lemma ParallelRcPassive(imp: ImpedanceSimulator, f: real)
    requires imp.model == ParallelRc && imp.R > 0.0
    ensures var z := ZAt(imp, f); var k := OmegaRc(imp, f);
      && z.re == imp.R / (1.0 + k * k)
      && z.re > 0.0
      && NormSq(z) == imp.R * z.re
      && NormSq(z) <= imp.R * imp.R
  {
    ParallelQuotient(imp.R, OmegaRc(imp, f));
  }

  /** `R / (1 + jk)` for `R > 0`: real part `R/(1+k^2)`, positive, and `|z|^2 = R*Re(z) <= R^2`. */
  lemma ParallelQuotient(R: real, k: real)
    requires R > 0.0
    ensures var z := ParallelZ(R, k);
      && z.re == R / (1.0 + k * k)
      && z.re > 0.0
      && NormSq(z) == R * z.re
      && NormSq(z) <= R * R
  {
    var z := ParallelZ(R, k);
    var d := 1.0 + k * k;
    assert NormSq(Complex(1.0, k)) == d;
    assert z == Complex(R / d, -(R * k) / d);
    QuotientSquares(R, k, d);
    ShrinkBelow(R, d);
  }

  /** `current_from_voltage(voltage, t, f)`: the real part of `V / Z(f)` sample by sample
      (a single-tone approximation; `t` is not used), or all zeros when `|Z(f)| < 1e-18`,
      compared here as `|Z|^2 < 1e-36`. */
  function CurrentFromVoltage(imp: ImpedanceSimulator, voltage: seq<real>, t: seq<real>,
                              fExcitationHz: real): (current: seq<real>)
    requires WellFormed(imp)
    ensures |current| == |voltage|
    ensures NormSq(ZAt(imp, fExcitationHz)) < MinImpedance * MinImpedance ==>
              forall i :: 0 <= i < |current| ==> current[i] == 0.0
    ensures NormSq(ZAt(imp, fExcitationHz)) >= MinImpedance * MinImpedance ==>
              forall i :: 0 <= i < |current| ==>
                current[i] * NormSq(ZAt(imp, fExcitationHz)) == voltage[i] * ZAt(imp, fExcitationHz).re
  {
    var z := ZAt(imp, fExcitationHz);
    if NormSq(z) < MinImpedance * MinImpedance then
      seq(|voltage|, _ => 0.0)
    else
      seq(|voltage|, i requires 0 <= i < |voltage| => CDiv(Real(voltage[i]), z).re)
  }

  /** For a real, non-negligible `z`: `c * |z|^2 == v * Re(z)` means `c * Re(z) == v`. */
  lemma RealQuotient(c: real, v: real, z: Complex)
    requires z.im == 0.0 && Abs(z.re) >= MinImpedance
    requires c * NormSq(z) == v * z.re
    ensures c * z.re == v
  {
    SquareAtLeast(z.re, MinImpedance);
    assert NormSq(z) == z.re * z.re;
    CancelFactor(c, v, z.re);
  }

  /** The sample-wise form of `RealQuotient`, for any currents related to the voltages as
      `CurrentFromVoltage` relates them. */
  lemma RealQuotients(current: seq<real>, voltage: seq<real>, z: Complex)
    requires |current| == |voltage|
    requires z.im == 0.0 && Abs(z.re) >= MinImpedance
    requires forall i :: 0 <= i < |current| ==> current[i] * NormSq(z) == voltage[i] * z.re
    ensures forall i :: 0 <= i < |voltage| ==> current[i] * z.re == voltage[i]
  {
    forall i | 0 <= i < |voltage|
      ensures current[i] * z.re == voltage[i]
    {
      RealQuotient(current[i], voltage[i], z);
    }
  }

  /** Ohm's law through a purely resistive impedance: `I * R == V` for every sample. */
  lemma ResistiveOhmsLaw(imp: ImpedanceSimulator, voltage: seq<real>, t: seq<real>, f: real)
    requires WellFormed(imp)
    requires ZAt(imp, f).im == 0.0 && Abs(ZAt(imp, f).re) >= MinImpedance
    ensures forall i :: 0 <= i < |voltage| ==>
              CurrentFromVoltage(imp, voltage, t, f)[i] * ZAt(imp, f).re == voltage[i]
  {
    var z := ZAt(imp, f);
    SquareAtLeast(z.re, MinImpedance);
    assert NormSq(z) >= MinImpedance * MinImpedance;
    RealQuotients(CurrentFromVoltage(imp, voltage, t, f), voltage, z);
  }
}
