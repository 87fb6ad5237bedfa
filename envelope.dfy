/** Isolation of the largest pulse of the recorded envelope: find the sample that deviates
    most from the baseline, walk outwards until the signal is back within a margin of the
    baseline, then pad both ends by two milliseconds of samples and clamp to the array. */
module Envelope {
  import opened Results
  import opened Numerics

  /** Sample rate of the recorded test signal. */
  const TestSignalSampleRateHz: real := 14e3

  /** `int(0.002 * 14e3)`: two milliseconds of padding, 28 samples. */
  const ExtendSamples: int := (0.002 * TestSignalSampleRateHz).Floor

  /** Below this 5-95 percentile spread the signal is treated as flat. */
  const FlatSpan: real := 1e-30

  lemma ExtendSamplesIs28()
    ensures ExtendSamples == 28
  {
  }

  /** Deviation of sample `i` from the baseline. */
  function Deviation(signal: seq<real>, baseline: real, i: int): real
    requires 0 <= i < |signal|
  {
    Abs(signal[i] - baseline)
  }

  /** `argmax(|signal - baseline|)` over the prefix of length `n`: the FIRST index of a
      largest deviation, as numpy's argmax returns. */
  function PeakIndex(signal: seq<real>, baseline: real, n: nat): (p: nat)
    requires 0 < n <= |signal|
    ensures p < n
    ensures forall j :: 0 <= j < n ==> Deviation(signal, baseline, j) <= Deviation(signal, baseline, p)
    ensures forall j :: 0 <= j < p ==> Deviation(signal, baseline, j) < Deviation(signal, baseline, p)
  {
    if n == 1 then 0
    else
      var p := PeakIndex(signal, baseline, n - 1);
      if Deviation(signal, baseline, n - 1) > Deviation(signal, baseline, p) then n - 1 else p
  }

  /** Where the leftward walk from `k` stops: the nearest index at or below `k` whose
      deviation is within `margin`, or 0 when there is none. */
  function LeftEdge(signal: seq<real>, baseline: real, margin: real, k: nat): (l: nat)
    requires k < |signal|
    ensures l <= k
    ensures l == 0 || Deviation(signal, baseline, l) <= margin
    ensures forall j :: l < j <= k ==> Deviation(signal, baseline, j) > margin
  {
    if k > 0 && Deviation(signal, baseline, k) > margin then LeftEdge(signal, baseline, margin, k - 1)
    else k
  }

  /** Where the rightward walk from `k` stops: the nearest index at or above `k` whose
      deviation is within `margin`, or the last index when there is none. */
  function RightEdge(signal: seq<real>, baseline: real, margin: real, k: nat): (r: nat)
    requires k < |signal|
    ensures k <= r < |signal|
    ensures r == |signal| - 1 || Deviation(signal, baseline, r) <= margin
    ensures forall j :: k <= j < r ==> Deviation(signal, baseline, j) > margin
    decreases |signal| - k
  {
    if k < |signal| - 1 && Deviation(signal, baseline, k) > margin then
      RightEdge(signal, baseline, margin, k + 1)
    else k
  }

  /** The stopping rule determines the edge: any index that satisfies the three edge
      properties is the one `LeftEdge` returns. */
  lemma LeftEdgeUnique(signal: seq<real>, baseline: real, margin: real, k: nat, l: nat)
    requires k < |signal| && l <= k
    requires l == 0 || Deviation(signal, baseline, l) <= margin
    requires forall j :: l < j <= k ==> Deviation(signal, baseline, j) > margin
    ensures LeftEdge(signal, baseline, margin, k) == l
  {
  }

  /** The mirror image of `LeftEdgeUnique` for the rightward walk. */
  lemma RightEdgeUnique(signal: seq<real>, baseline: real, margin: real, k: nat, r: nat)
    requires k <= r < |signal|
    requires r == |signal| - 1 || Deviation(signal, baseline, r) <= margin
    requires forall j :: k <= j < r ==> Deviation(signal, baseline, j) > margin
    ensures RightEdge(signal, baseline, margin, k) == r
  {
  }

  /** How close to the baseline a sample must come to end the pulse. */
  function Margin(baselineFrac: real, span: real): real
  {
    baselineFrac * span
  }

  /** The window `find_largest_envelope` settles on, as indices `(left, right)`. */
  datatype Window = Window(left: nat, right: nat)

  /** The window of a non-flat signal: the two walks from the peak, each padded by
      `ExtendSamples` and clamped to the array. */
  function PaddedWindow(signal: seq<real>, baseline: real, margin: real): (w: Window)
    requires |signal| > 0
    ensures w.left <= PeakIndex(signal, baseline, |signal|) <= w.right < |signal|
  {
    var p := PeakIndex(signal, baseline, |signal|);
    var l := LeftEdge(signal, baseline, margin, p);
    var r := RightEdge(signal, baseline, margin, p);
    Window(Max0(l - ExtendSamples), MinIndex(r + ExtendSamples, |signal|))
  }

  /** The window by definition: the whole signal when it is flat, otherwise the padded walk
      with margin `baselineFrac * span`. */
  function EnvelopeWindow(signal: seq<real>, baseline: real, span: real, baselineFrac: real)
    : (w: Window)
    requires |signal| > 0
    ensures w.left <= w.right < |signal|
    ensures span < FlatSpan ==> w == Window(0, |signal| - 1)
    ensures span >= FlatSpan ==> w.left <= PeakIndex(signal, baseline, |signal|) <= w.right
  {
    if span < FlatSpan then Window(0, |signal| - 1)
    else PaddedWindow(signal, baseline, Margin(baselineFrac, span))
  }

  /** Every sample strictly inside the unpadded walk deviates by more than the margin, and
      the walk ends at the baseline or at the array's edge on each side. */
  lemma WindowCoversPulse(signal: seq<real>, baseline: real, span: real, baselineFrac: real)
    requires |signal| > 0 && span >= FlatSpan
    ensures var margin := Margin(baselineFrac, span);
            var p := PeakIndex(signal, baseline, |signal|);
            var l := LeftEdge(signal, baseline, margin, p);
            var r := RightEdge(signal, baseline, margin, p);
            var w := EnvelopeWindow(signal, baseline, span, baselineFrac);
            && w == Window(Max0(l - ExtendSamples), MinIndex(r + ExtendSamples, |signal|))
            && (forall j :: l < j < r ==> Deviation(signal, baseline, j) > margin)
            && (l == 0 || Deviation(signal, baseline, l) <= margin)
            && (r == |signal| - 1 || Deviation(signal, baseline, r) <= margin)
  {
    var margin := Margin(baselineFrac, span);
    var p := PeakIndex(signal, baseline, |signal|);
    var l := LeftEdge(signal, baseline, margin, p);
    var r := RightEdge(signal, baseline, margin, p);
    forall j | l < j < r ensures Deviation(signal, baseline, j) > margin {
      if j < p {
        assert l < j <= p;
      } else {
        assert p <= j < r;
      }
    }
  }

  /** `max(0, i)`. */
  function Max0(i: int): (r: nat)
    ensures r >= i && (r == 0 || r == i)
  {
    if i < 0 then 0 else i
  }

  /** `min(n - 1, i)`. */
  function MinIndex(i: int, n: nat): (r: int)
    requires n > 0
    ensures r <= i && r <= n - 1 && (r == i || r == n - 1)
  {
    if i > n - 1 then n - 1 else i
  }

  /** `find_largest_envelope(signal, t, baseline_frac)` with the baseline (the median) and
      the spread (95th minus 5th percentile) supplied by the caller. Returns the slices of
      the signal and of its time axis over the window, and the window's indices. */
  method FindLargestEnvelope(signal: seq<real>, t: seq<real>, baseline: real, span: real,
                             baselineFrac: real)
    returns (signalSlice: seq<real>, tSlice: seq<real>, left: nat, right: nat)
    requires |signal| > 0 && |t| == |signal|
    ensures Window(left, right) == EnvelopeWindow(signal, baseline, span, baselineFrac)
    ensures left <= right < |signal|
    ensures signalSlice == signal[left..right + 1] && tSlice == t[left..right + 1]
    ensures |signalSlice| == right - left + 1
  {
    if span < FlatSpan {
      return signal, t, 0, |signal| - 1;
    }
    var margin := Margin(baselineFrac, span);
    var peak := PeakIndex(signal, baseline, |signal|);
    left := WalkLeft(signal, baseline, margin, peak);
    right := WalkRight(signal, baseline, margin, peak);
    left := Max0(left - ExtendSamples);
    right := MinIndex(right + ExtendSamples, |signal|);
    signalSlice := signal[left..right + 1];
    tSlice := t[left..right + 1];
  }

  /** The leftward walk of `find_largest_envelope`: step left from `start` while the sample
      deviates from the baseline by more than the margin. */
  method WalkLeft(signal: seq<real>, baseline: real, margin: real, start: nat)
    returns (left: nat)
    requires start < |signal|
    ensures left == LeftEdge(signal, baseline, margin, start)
  {
    left := start;
    while left > 0 && Deviation(signal, baseline, left) > margin
      invariant left <= start
      invariant LeftEdge(signal, baseline, margin, left) == LeftEdge(signal, baseline, margin, start)
    {
      left := left - 1;
    }
  }

  /** The rightward walk of `find_largest_envelope`, the mirror image of `WalkLeft`. */
  method WalkRight(signal: seq<real>, baseline: real, margin: real, start: nat)
    returns (right: nat)
    requires start < |signal|
    ensures right == RightEdge(signal, baseline, margin, start)
  {
    right := start;
    while right < |signal| - 1 && Deviation(signal, baseline, right) > margin
      invariant start <= right < |signal|
      invariant RightEdge(signal, baseline, margin, right) == RightEdge(signal, baseline, margin, start)
    {
      right := right + 1;
    }
  }

  /** `load_and_isolate_envelope` after loading: fewer than 10 samples gives nothing;
      otherwise the window of the largest pulse with its time axis shifted to start at 0. */
  method IsolateEnvelope(signal: seq<real>, t: seq<real>, baseline: real, span: real)
    returns (r: Option<(seq<real>, seq<real>)>)
    requires |t| == |signal|
    ensures |signal| < 10 <==> r.None?
    ensures r.Some? ==>
              var w := EnvelopeWindow(signal, baseline, span, 0.1);
              && r.value.0 == signal[w.left..w.right + 1]
              && |r.value.1| == |r.value.0|
              && r.value.1[0] == 0.0
              && forall k :: 0 <= k < |r.value.1| ==> r.value.1[k] == t[w.left + k] - t[w.left]
  {
    if |signal| < 10 {
      return None;
    }
    var seg, tSeg, _, _ := FindLargestEnvelope(signal, t, baseline, span, 0.1);
    var t0 := tSeg[0];
    tSeg := seq(|tSeg|, k requires 0 <= k < |tSeg| => tSeg[k] - t0);
    r := Some((seg, tSeg));
  }
}
