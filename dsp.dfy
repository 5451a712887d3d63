/** The spectral pipeline of src/lib/dsp.ts: magnitude/phase extraction, ragged
    products, convolution by zero padding, octave smoothing, the correction curve
    and the FIR design around the (opaque) transforms of module Numerics. */
module Dsp {
  import opened Wrappers
  import opened Numerics
  import Vector

  // ---------------------------------------------------------------------------
  // Magnitude and phase

  function Magnitudes(kit: Numerics, re: seq<real>, im: seq<real>): (mag: seq<real>)
    requires |re| == |im|
    ensures |mag| == |re|
  {
    seq(|re|, k requires 0 <= k < |re| => kit.hypot(re[k], im[k]))
  }

  function Phases(kit: Numerics, re: seq<real>, im: seq<real>): (phase: seq<real>)
    requires |re| == |im|
    ensures |phase| == |re|
  {
    seq(|re|, k requires 0 <= k < |re| => kit.phase(re[k], im[k]))
  }

  /** `calcMagnitudes(real, imag)`: one `Math.hypot` per bin. */
  method CalcMagnitudes(kit: Numerics, re: seq<real>, im: seq<real>) returns (mag: seq<real>)
    requires |re| == |im|
    ensures |mag| == |re|
    ensures forall k :: 0 <= k < |re| ==> mag[k] == kit.hypot(re[k], im[k])
  {
    var a := new real[|re|](_ => 0.0);
    for k := 0 to |re|
      invariant forall j :: 0 <= j < k ==> a[j] == kit.hypot(re[j], im[j])
    {
      a[k] := kit.hypot(re[k], im[k]);
    }
    mag := a[..];
  }

  /** `calcPhase(real, imag)`: one single-quadrant `Math.atan(imag / real)` per bin. */
  method CalcPhase(kit: Numerics, re: seq<real>, im: seq<real>) returns (phase: seq<real>)
    requires |re| == |im|
    ensures |phase| == |re|
    ensures forall k :: 0 <= k < |re| ==> phase[k] == kit.phase(re[k], im[k])
  {
    var a := new real[|re|](_ => 0.0);
    for k := 0 to |re|
      invariant forall j :: 0 <= j < k ==> a[j] == kit.phase(re[j], im[j])
    {
      a[k] := kit.phase(re[k], im[k]);
    }
    phase := a[..];
  }

  // ---------------------------------------------------------------------------
  // Forward and inverse transform

  /** The four spectra `fft` returns. */
  datatype Spectrum = Spectrum(re: seq<real>, im: seq<real>, magnitude: seq<real>, phase: seq<real>)
  {
    /** All four buffers have the transform size `n`. */
    predicate HasSize(n: nat)
    {
      |re| == n && |im| == n && |magnitude| == n && |phase| == n
    }
  }

  /** The spectrum of a real buffer: the transform of (data, 0) with its derived
      magnitude and phase. */
  function SpectrumOf(kit: Numerics, data: seq<real>): (s: Spectrum)
    ensures s.HasSize(|data|)
  {
    var t := kit.transform(data, Zeros(|data|));
    Spectrum(t.0, t.1, Magnitudes(kit, t.0, t.1), Phases(kit, t.0, t.1))
  }

  /** `fft(data)`: transforms a copy of `data` with a zero imaginary part and
      derives magnitude and phase from the result. */
  method Fft(kit: Numerics, data: seq<real>) returns (s: Spectrum)
    ensures s.HasSize(|data|)
    ensures s == SpectrumOf(kit, data)
  {
    var t := kit.transform(data, Zeros(|data|));
    var magnitude := CalcMagnitudes(kit, t.0, t.1);
    var phase := CalcPhase(kit, t.0, t.1);
    s := Spectrum(t.0, t.1, magnitude, phase);
  }

  /** `ifft_c2r(real, imag)`: the real part of the inverse transform of copies of
      the inputs, as long as they are. */
  function InverseReal(kit: Numerics, re: seq<real>, im: seq<real>): (r: seq<real>)
    requires |re| == |im|
    ensures |r| == |re|
  {
    kit.inverseTransform(re, im).0
  }

  // ---------------------------------------------------------------------------
  // Ragged product

  /** Product of column `i` over the vectors that reach it; 1 when none does. */
  function ColumnProduct(vectors: seq<seq<real>>, i: nat): real
  {
    if |vectors| == 0 then 1.0
    else ColumnProduct(vectors[..|vectors| - 1], i)
         * (if |vectors[|vectors| - 1]| > i then vectors[|vectors| - 1][i] else 1.0)
  }

  /** The inner loop of `vectorMultiply`: multiplies `v` into `acc` entry by
      entry; entries past the end of `v` are left alone. */
  method MultiplyInto(acc: array<real>, v: seq<real>)
    requires |v| <= acc.Length
    modifies acc
    ensures forall j :: 0 <= j < acc.Length ==> acc[j] == old(acc[j]) * (if |v| > j then v[j] else 1.0)
  {
    for i := 0 to |v|
      invariant forall j :: 0 <= j < i ==> acc[j] == old(acc[j]) * v[j]
      invariant forall j :: i <= j < acc.Length ==> acc[j] == old(acc[j])
    {
      acc[i] := acc[i] * v[i];
    }
  }

  /** Multiplying in vector `k` scales column `j` by its entry there, if any. */
  lemma ProductStep(vectors: seq<seq<real>>, k: nat, j: nat)
    requires k < |vectors|
    ensures ColumnProduct(vectors[..k + 1], j)
         == ColumnProduct(vectors[..k], j) * (if |vectors[k]| > j then vectors[k][j] else 1.0)
  {
    assert vectors[..k + 1][..k] == vectors[..k];
  }

  /** A column no vector reaches stays at the fill value 1. */
  lemma {:induction false} ColumnProductBeyondAll(vectors: seq<seq<real>>, i: nat)
    requires i >= MaxLength(vectors)
    ensures ColumnProduct(vectors, i) == 1.0
  {
    if |vectors| > 0 {
      ColumnProductBeyondAll(vectors[..|vectors| - 1], i);
    }
  }

  /** Multiplying two vectors of one length is the pointwise product. */
  lemma ColumnProductOfPair(a: seq<real>, b: seq<real>, i: nat)
    requires i < |a| && i < |b|
    ensures ColumnProduct([a, b], i) == a[i] * b[i]
  {
    assert [a, b][..1] == [a];
    assert [a][..0] == [];
    assert ColumnProduct([a], i) == a[i];
  }

  const EmptyMultiply := "vectorMultiply expects at least one argument"

  /** `vectorMultiply(...vectors)`: throws for no argument, otherwise a vector as
      long as the longest input whose entry `i` multiplies the inputs that reach `i`. */
  method VectorMultiply(vectors: seq<seq<real>>) returns (r: Result<seq<real>>)
    ensures |vectors| == 0 <==> r.Err?
    ensures r.Err? ==> r.message == EmptyMultiply
    ensures r.Ok? ==> |r.value| == MaxLength(vectors)
    ensures r.Ok? ==> forall i :: 0 <= i < |r.value| ==> r.value[i] == ColumnProduct(vectors, i)
  {
    if |vectors| == 0 {
      return Err(EmptyMultiply);
    }
    var maxLen := MaxLength(vectors);
    var result := new real[maxLen](_ => 1.0);
    for k := 0 to |vectors|
      invariant forall j :: 0 <= j < maxLen ==> result[j] == ColumnProduct(vectors[..k], j)
    {
      MultiplyInto(result, vectors[k]);
      forall j | 0 <= j < maxLen
        ensures result[j] == ColumnProduct(vectors[..k + 1], j)
      {
        ProductStep(vectors, k, j);
      }
    }
    assert vectors[..|vectors|] == vectors;
    r := Ok(result[..]);
  }

  // ---------------------------------------------------------------------------
  // Convolution

  /** What `convolve(a, b)` holds: `convolveReal` of both inputs zero-padded to
      the longer length, each entry divided by that length. */
  function Convolution(kit: Numerics, a: seq<real>, b: seq<real>): (r: seq<real>)
    ensures |r| == if |a| < |b| then |b| else |a|
  {
    var n := if |a| < |b| then |b| else |a|;
    var c := kit.convolveReal(Vector.Resized(a, n), Vector.Resized(b, n));
    seq(n, i requires 0 <= i < n => c[i] / n as real)
  }

  /** Padding an input to the common length beforehand changes nothing. */
  lemma {:induction false} ConvolutionOfPadded(kit: Numerics, a: seq<real>, b: seq<real>)
    requires |a| <= |b|
    ensures Convolution(kit, Vector.Resized(a, |b|), b) == Convolution(kit, a, b)
  {
    var p := Vector.Resized(a, |b|);
    assert Vector.Resized(p, |b|) == Vector.Resized(a, |b|);
    Vector.ResizedSameSize(b);
  }

  /** `convolve(a, b)`. */
  method Convolve(kit: Numerics, a: seq<real>, b: seq<real>) returns (r: seq<real>)
    ensures r == Convolution(kit, a, b)
  {
    var maxLen := if |a| < |b| then |b| else |a|;
    var a2 := Vector.Resized(a, maxLen);
    var b2 := Vector.Resized(b, maxLen);
    var c := kit.convolveReal(a2, b2);
    var result := new real[maxLen](i requires 0 <= i < maxLen => c[i]);
    for i := 0 to maxLen
      invariant forall j :: 0 <= j < i ==> result[j] == c[j] / maxLen as real
      invariant forall j :: i <= j < maxLen ==> result[j] == c[j]
    {
      result[i] := result[i] / maxLen as real;
    }
    r := result[..];
  }

  // ---------------------------------------------------------------------------
  // average / min / max

  /** `average(values, start, end)` with JavaScript's outcomes: `None` stands for
      NaN (an empty range, or a non-empty one that reads past the buffer), and a
      reversed range divides 0 by a negative count. */
  method Average(values: seq<real>, start: Option<int>, end: Option<int>) returns (r: Option<real>)
    ensures var s, e := start.GetOr(0), end.GetOr(|values|);
      && (r.Some? <==> s > e || (s < e && 0 <= s && e <= |values|))
      && (s > e ==> r == Some(0.0))
      && (s < e && r.Some? ==> r.value == Sum(values[s..e]) / (e - s) as real)
  {
    var s := start.GetOr(0);
    var e := end.GetOr(|values|);
    var result: Option<real> := Some(0.0);
    var i := s;
    while i < e
      invariant s <= e ==> s <= i <= e
      invariant s > e ==> i == s
      invariant result.Some? <==> (i == s || (0 <= s && i <= |values|))
      invariant result.Some? ==> result.value == if i == s then 0.0 else Sum(values[s..i])
    {
      if result.Some? && 0 <= i < |values| {
        SumStep(values, s, i);
        result := Some(result.value + values[i]);
      } else {
        result := None;
      }
      i := i + 1;
    }
    if result.None? || e == s {
      return None;
    }
    r := Some(result.value / (e - s) as real);
  }

  /** Extending a range by one element adds that element to its sum. */
  lemma SumStep(values: seq<real>, s: int, i: int)
    requires 0 <= s <= i < |values|
    ensures Sum(values[s..i + 1]) == Sum(values[s..i]) + values[i]
  {
    assert values[s..i + 1] == values[s..i] + [values[i]];
    SumConcat(values[s..i], [values[i]]);
    assert Sum([values[i]]) == values[i];
  }

  /** `max(values, start, end)`: -Infinity on an empty range. */
  method Max(values: seq<real>, start: Option<int>, end: Option<int>) returns (r: Extended)
    requires start.GetOr(0) >= end.GetOr(|values|) || (0 <= start.GetOr(0) && end.GetOr(|values|) <= |values|)
    ensures var s, e := start.GetOr(0), end.GetOr(|values|);
      && (s >= e <==> r == NegInf)
      && (s < e ==> (&& r.Finite?
                     && (exists k :: s <= k < e && values[k] == r.value)
                     && (forall k :: s <= k < e ==> values[k] <= r.value)))
  {
    var s := start.GetOr(0);
    var e := end.GetOr(|values|);
    r := NegInf;
    var i := s;
    while i < e
      invariant s <= i <= e || i == s
      invariant i == s <==> r == NegInf
      invariant i > s ==> (&& r.Finite? && (exists k :: s <= k < i && values[k] == r.value)
                           && (forall k :: s <= k < i ==> values[k] <= r.value))
    {
      r := if r.Below(values[i]) then Finite(values[i]) else r;
      i := i + 1;
    }
  }

  /** `min(values, start, end)`: +Infinity on an empty range. */
  method Min(values: seq<real>, start: Option<int>, end: Option<int>) returns (r: Extended)
    requires start.GetOr(0) >= end.GetOr(|values|) || (0 <= start.GetOr(0) && end.GetOr(|values|) <= |values|)
    ensures var s, e := start.GetOr(0), end.GetOr(|values|);
      && (s >= e <==> r == PosInf)
      && (s < e ==> (&& r.Finite?
                     && (exists k :: s <= k < e && values[k] == r.value)
                     && (forall k :: s <= k < e ==> values[k] >= r.value)))
  {
    var s := start.GetOr(0);
    var e := end.GetOr(|values|);
    r := PosInf;
    var i := s;
    while i < e
      invariant s <= i <= e || i == s
      invariant i == s <==> r == PosInf
      invariant i > s ==> (&& r.Finite? && (exists k :: s <= k < i && values[k] == r.value)
                           && (forall k :: s <= k < i ==> values[k] >= r.value))
    {
      r := if r.Above(values[i]) then Finite(values[i]) else r;
      i := i + 1;
    }
  }

  // ---------------------------------------------------------------------------
  // Smoothing

  /** The averaging window of bin `i`: [floor(i / m), floor(i * m) + 1) clipped to
      the buffer, where `m` is the octave multiplier 2^octaves. */
  function SmoothWindow(len: nat, m: real, i: nat): (w: (int, int))
    requires m >= 1.0 && i < len
    ensures 0 <= w.0 <= i < w.1 <= len
  {
    var windowStart := (i as real / m).Floor;
    var windowEnd := (i as real * m).Floor + 1;
    assert 0.0 <= i as real / m <= i as real by { assert i as real / m * m == i as real; }
    assert i as real * m >= i as real by { assert i as real * m - i as real == i as real * (m - 1.0); }
    (if windowStart < 0 then 0 else windowStart, if windowEnd < len then windowEnd else len)
  }

  function Mean(s: seq<real>): real
    requires |s| > 0
  {
    Sum(s) / |s| as real
  }

  /** The mean of a constant buffer is that constant. */
  lemma {:induction false} MeanConstant(s: seq<real>, c: real)
    requires |s| > 0
    requires forall i :: 0 <= i < |s| ==> s[i] == c
    ensures Mean(s) == c
  {
    SumConstant(s, c);
    Vector.MeanOfMultiple(Sum(s), |s| as real, c);
  }

  /** `smooth` with the octave multiplier given directly: bin `i` becomes the mean
      of the data inside its window. */
  function Smoothed(data: seq<real>, m: real): (r: seq<real>)
    requires m >= 1.0
    ensures |r| == |data|
  {
    seq(|data|, i requires 0 <= i < |data| =>
      var w := SmoothWindow(|data|, m, i);
      Mean(data[w.0..w.1]))
  }

  /** Smoothing leaves a flat buffer unchanged. */
  lemma {:induction false} SmoothedConstant(data: seq<real>, m: real, c: real)
    requires m >= 1.0
    requires forall i :: 0 <= i < |data| ==> data[i] == c
    ensures forall i :: 0 <= i < |data| ==> Smoothed(data, m)[i] == c
  {
    forall i | 0 <= i < |data|
      ensures Smoothed(data, m)[i] == c
    {
      var w := SmoothWindow(|data|, m, i);
      MeanConstant(data[w.0..w.1], c);
    }
  }

  /** `smooth(data, octaves)` for `m = 2^octaves`: each bin is the `average` of its
      window, which always contains the bin itself. */
  method Smooth(data: seq<real>, m: real) returns (r: seq<real>)
    requires m >= 1.0
    ensures r == Smoothed(data, m)
  {
    var copy := new real[|data|](i requires 0 <= i < |data| => data[i]);
    for i := 0 to copy.Length
      invariant forall j :: 0 <= j < i ==> copy[j] == Smoothed(data, m)[j]
    {
      var w := SmoothWindow(|data|, m, i);
      var a := Average(data, Some(w.0), Some(w.1));
      copy[i] := a.value;
    }
    r := copy[..];
  }

  /** Element-wise maximum of two buffers of the same length: every entry is
      at least both inputs' entries and equal to one of them. */
  function MaxEach(a: seq<real>, b: seq<real>): (r: seq<real>)
    requires |a| == |b|
    ensures |r| == |a|
    ensures forall i :: 0 <= i < |a| ==> r[i] >= a[i] && r[i] >= b[i]
    ensures forall i :: 0 <= i < |a| ==> r[i] == a[i] || r[i] == b[i]
  {
    seq(|a|, i requires 0 <= i < |a| => MaxReal(a[i], b[i]))
  }

  /** What `psychoacousticSmooth` holds: per bin the larger of the input and its
      one-octave smoothing (multiplier 2^1). */
  function PsychoSmoothed(amp: seq<real>): (r: seq<real>)
    ensures |r| == |amp|
  {
    MaxEach(amp, Smoothed(amp, 2.0))
  }

  /** `psychoacousticSmooth(amp)`: the element-wise maximum of the input and
      its one-octave smoothing. */
  method PsychoacousticSmooth(amp: seq<real>) returns (r: seq<real>)
    ensures r == PsychoSmoothed(amp)
  {
    var smoothed := Smooth(amp, 2.0);
    var result := new real[|smoothed|](i requires 0 <= i < |smoothed| => smoothed[i]);
    RaiseTo(result, amp);
    r := result[..];
  }

  /** The loop of `psychoacousticSmooth`: raises every entry of `a` to at
      least the entry of `floor` at the same index. */
  method RaiseTo(a: array<real>, floor: seq<real>)
    requires a.Length == |floor|
    modifies a
    ensures a[..] == MaxEach(floor, old(a[..]))
  {
    ghost var target := MaxEach(floor, a[..]);
    for i := 0 to a.Length
      invariant forall j :: 0 <= j < i ==> a[j] == target[j]
      invariant forall j :: i <= j < a.Length ==> a[j] == old(a[j])
    {
      a[i] := MaxReal(floor[i], a[i]);
    }
  }

  /** A flat buffer is its own psychoacoustic smoothing. */
  lemma {:induction false} PsychoSmoothedConstant(amp: seq<real>, c: real)
    requires forall i :: 0 <= i < |amp| ==> amp[i] == c
    ensures PsychoSmoothed(amp) == amp
  {
    SmoothedConstant(amp, 2.0, c);
  }

  // ---------------------------------------------------------------------------
  // Correction curve

  /** Mean of a buffer over the band [low, high). */
  function BandMean(s: seq<real>, low: int, high: int): real
    requires 0 <= low < high <= |s|
  {
    Mean(s[low..high])
  }

  /** The target level: the mean over the channels of each channel's band mean. */
  function TargetLevel(smoothed: seq<seq<real>>, low: int, high: int): real
    requires |smoothed| > 0 && 0 <= low < high
    requires forall k :: 0 <= k < |smoothed| ==> high <= |smoothed[k]|
  {
    Mean(seq(|smoothed|, k requires 0 <= k < |smoothed| => BandMean(smoothed[k], low, high)))
  }

  /** The curve `generateCorrectionCurve2` builds for one channel: 1 outside the
      band, target / smoothed amplitude inside it (the boost/cut clamp is
      commented out in the source, so there is no clamp). */
  function CorrectionCurve(smoothed: seq<real>, len: nat, low: int, high: int, target: real): (c: seq<real>)
    requires low < high ==> 0 <= low && high <= len && high <= |smoothed|
    requires forall i :: low <= i < high && 0 <= i < |smoothed| ==> smoothed[i] != 0.0
    ensures |c| == len
  {
    seq(len, i requires 0 <= i < len =>
      if low <= i < high then target / smoothed[i] else 1.0)
  }

  /** Inside the band, the correction times the smoothed amplitude is the target:
      the curve flattens the smoothed response; outside it changes nothing. */
  lemma CorrectionFlattens(smoothed: seq<real>, len: nat, low: int, high: int, target: real, i: int)
    requires low < high ==> 0 <= low && high <= len && high <= |smoothed|
    requires forall j :: low <= j < high && 0 <= j < |smoothed| ==> smoothed[j] != 0.0
    requires 0 <= i < len
    ensures low <= i < high ==> CorrectionCurve(smoothed, len, low, high, target)[i] * smoothed[i] == target
    ensures !(low <= i < high) ==> CorrectionCurve(smoothed, len, low, high, target)[i] == 1.0
  {
    if low <= i < high {
      var c := CorrectionCurve(smoothed, len, low, high, target)[i];
      assert c == target / smoothed[i];
    }
  }

  /** A frequency in Hz as a (fractional) bin index of an `len`-bin spectrum. */
  function CutoffPosition(hz: real, len: nat, sampleRate: real): real
    requires sampleRate > 0.0
  {
    hz * len as real / sampleRate
  }

  /** What `generateCorrectionCurve2` demands beyond the data it reads: a positive
      sample rate, cutoffs that fall on whole bins, a band that every channel
      covers when it is not empty (the first channel's length sets the curve
      length and the band's bound) and positive amplitudes. */
  predicate CurveInputs(sampleRate: real, lowCutoffHz: real, highCutoffHz: real, amps: seq<seq<real>>)
  {
    && sampleRate > 0.0
    && (|amps| > 0 ==>
          var len := |amps[0]|;
          var low := CutoffPosition(lowCutoffHz, len, sampleRate);
          var high := CutoffPosition(highCutoffHz, len, sampleRate);
          && IsWhole(low) && IsWhole(high)
          && (low < high ==> 0.0 <= low && high <= len as real
                             && forall k :: 0 <= k < |amps| ==> high <= |amps[k]| as real)
          && (forall k, i :: 0 <= k < |amps| && 0 <= i < |amps[k]| ==> amps[k][i] > 0.0))
  }

  const NoAmplitudes := "Cannot read properties of undefined (reading 'length')"

  /** The curves `generateCorrectionCurve2` returns for a non-empty channel list. */
  function CorrectionCurves(sampleRate: real, lowCutoffHz: real, highCutoffHz: real, amps: seq<seq<real>>): (curves: seq<seq<real>>)
    requires CurveInputs(sampleRate, lowCutoffHz, highCutoffHz, amps) && |amps| > 0
    ensures |curves| == |amps| && forall k :: 0 <= k < |amps| ==> |curves[k]| == |amps[0]|
  {
    var len := |amps[0]|;
    var low := CutoffPosition(lowCutoffHz, len, sampleRate).Floor;
    var high := CutoffPosition(highCutoffHz, len, sampleRate).Floor;
    var smoothed := SmoothedAll(amps);
    PositiveAfterSmoothing(amps, smoothed);
    WholeBand(CutoffPosition(lowCutoffHz, len, sampleRate), CutoffPosition(highCutoffHz, len, sampleRate), len);
    var target := if low < high then TargetLevel(smoothed, low, high) else 0.0;
    seq(|amps|, k requires 0 <= k < |amps| => CorrectionCurve(smoothed[k], len, low, high, target))
  }

  /** `generateCorrectionCurve2(sampleRate, lowCutoffHz, highCutoffHz, maxBoost,
      maxCut, ...amps)`: fails as the source does when no channel is given;
      otherwise one curve per channel, each as long as the first channel, equal to
      1 outside [low, high) and to the target level over the channel's
      psychoacoustically smoothed amplitude inside. `maxBoost` and `maxCut` have
      no effect. */
  method GenerateCorrectionCurve2(sampleRate: real, lowCutoffHz: real, highCutoffHz: real,
                                  maxBoost: real, maxCut: real, amps: seq<seq<real>>)
    returns (r: Result<seq<seq<real>>>)
    requires CurveInputs(sampleRate, lowCutoffHz, highCutoffHz, amps)
    ensures |amps| == 0 <==> r.Err?
    ensures r.Err? ==> r.message == NoAmplitudes
    ensures r.Ok? ==> r.value == CorrectionCurves(sampleRate, lowCutoffHz, highCutoffHz, amps)
    ensures r.Ok? ==>
      var len := |amps[0]|;
      var low := CutoffPosition(lowCutoffHz, len, sampleRate).Floor;
      var high := CutoffPosition(highCutoffHz, len, sampleRate).Floor;
      && (low < high ==> 0 <= low && high <= len)
      && |r.value| == |amps|
      && (forall k :: 0 <= k < |amps| ==> |r.value[k]| == len)
      && (forall k, i :: 0 <= k < |amps| && 0 <= i < len && !(low <= i < high) ==> r.value[k][i] == 1.0)
      && (low < high ==>
            var smoothed := SmoothedAll(amps);
            forall k, i :: 0 <= k < |amps| && low <= i < high ==>
              r.value[k][i] == TargetLevel(smoothed, low, high) / smoothed[k][i])
  {
    if |amps| == 0 {
      return Err(NoAmplitudes);
    }
    var smoothed := SmoothAll(amps);
    assert forall k :: 0 <= k < |smoothed| ==> |smoothed[k]| == |amps[k]|;
    PositiveAfterSmoothing(amps, smoothed);

    var len := |amps[0]|;
    var lowCutoff := CutoffPosition(lowCutoffHz, len, sampleRate);
    var highCutoff := CutoffPosition(highCutoffHz, len, sampleRate);
    WholeBand(lowCutoff, highCutoff, len);
    var low, high := lowCutoff.Floor, highCutoff.Floor;
    var avg := TargetAverage(smoothed, low, high);
    var curves := FillCorrections(smoothed, len, low, high, avg);
    ghost var expected := CorrectionCurves(sampleRate, lowCutoffHz, highCutoffHz, amps);
    forall k | 0 <= k < |amps|
      ensures curves[k] == expected[k]
    {
      assert forall i :: 0 <= i < len ==> curves[k][i] == expected[k][i];
    }
    r := Ok(curves);
  }

  /** The loop over `amps` that builds one curve per channel. */
  method FillCorrections(smoothed: seq<seq<real>>, len: nat, low: int, high: int, avg: Option<real>)
    returns (results: seq<seq<real>>)
    requires |smoothed| > 0
    requires low < high ==> 0 <= low && high <= len && (forall k :: 0 <= k < |smoothed| ==> high <= |smoothed[k]|)
                            && avg == Some(TargetLevel(smoothed, low, high))
    requires forall k, i :: 0 <= k < |smoothed| && 0 <= i < |smoothed[k]| ==> smoothed[k][i] > 0.0
    ensures |results| == |smoothed|
    ensures forall k :: 0 <= k < |smoothed| ==> |results[k]| == len
    ensures forall k, i :: 0 <= k < |smoothed| && 0 <= i < len && !(low <= i < high) ==> results[k][i] == 1.0
    ensures low < high ==> forall k, i :: 0 <= k < |smoothed| && low <= i < high ==>
              results[k][i] == TargetLevel(smoothed, low, high) / smoothed[k][i]
  {
    results := [];
    for k := 0 to |smoothed|
      invariant |results| == k
      invariant forall j :: 0 <= j < k ==> |results[j]| == len
      invariant forall j, i :: 0 <= j < k && 0 <= i < len && !(low <= i < high) ==> results[j][i] == 1.0
      invariant low < high ==> forall j, i :: 0 <= j < k && low <= i < high ==>
                  results[j][i] == TargetLevel(smoothed, low, high) / smoothed[j][i]
    {
      var correction := FillCorrection(smoothed[k], len, low, high, avg);
      results := results + [correction];
    }
  }

  /** Whole-numbered cutoffs keep their order and bounds as bin indices. */
  lemma WholeBand(low: real, high: real, len: nat)
    requires IsWhole(low) && IsWhole(high)
    requires low < high ==> 0.0 <= low && high <= len as real
    ensures low.Floor < high.Floor ==> 0 <= low.Floor && high.Floor <= len
  {
  }

  function SmoothedAll(amps: seq<seq<real>>): (s: seq<seq<real>>)
    ensures |s| == |amps| && forall k :: 0 <= k < |amps| ==> |s[k]| == |amps[k]|
  {
    seq(|amps|, k requires 0 <= k < |amps| => PsychoSmoothed(amps[k]))
  }

  /** A flat response at any positive level needs no correction: every bin of
      every curve inside the band is 1. */
  lemma {:induction false} FlatResponseNeedsNoCorrection(amps: seq<seq<real>>, c: real, low: int, high: int)
    requires |amps| > 0 && c > 0.0 && 0 <= low < high
    requires forall k :: 0 <= k < |amps| ==> high <= |amps[k]|
    requires forall k, i :: 0 <= k < |amps| && 0 <= i < |amps[k]| ==> amps[k][i] == c
    ensures forall k, i :: 0 <= k < |amps| && low <= i < high ==>
              TargetLevel(SmoothedAll(amps), low, high) / SmoothedAll(amps)[k][i] == 1.0
  {
    SmoothedAllConstant(amps, c);
    TargetLevelConstant(amps, c, low, high);
    assert c / c == 1.0;
  }

  /** Flat channels are left unchanged by the psychoacoustic smoothing. */
  lemma {:induction false} SmoothedAllConstant(amps: seq<seq<real>>, c: real)
    requires forall k, i :: 0 <= k < |amps| && 0 <= i < |amps[k]| ==> amps[k][i] == c
    ensures SmoothedAll(amps) == amps
  {
    forall k | 0 <= k < |amps|
      ensures SmoothedAll(amps)[k] == amps[k]
    {
      PsychoSmoothedConstant(amps[k], c);
    }
  }

  /** Channels that are flat at `c` over the band have target level `c`. */
  lemma {:induction false} TargetLevelConstant(s: seq<seq<real>>, c: real, low: int, high: int)
    requires |s| > 0 && 0 <= low < high
    requires forall k :: 0 <= k < |s| ==> high <= |s[k]|
    requires forall k, i :: 0 <= k < |s| && 0 <= i < |s[k]| ==> s[k][i] == c
    ensures TargetLevel(s, low, high) == c
  {
    forall k | 0 <= k < |s|
      ensures BandMean(s[k], low, high) == c
    {
      MeanConstant(s[k][low..high], c);
    }
    var means := seq(|s|, k requires 0 <= k < |s| => BandMean(s[k], low, high));
    MeanConstant(means, c);
  }


  /** `amps.map(m => psychoacousticSmooth(m))` */
  method SmoothAll(amps: seq<seq<real>>) returns (smoothed: seq<seq<real>>)
    ensures smoothed == SmoothedAll(amps)
  {
    smoothed := [];
    for k := 0 to |amps|
      invariant |smoothed| == k
      invariant forall j :: 0 <= j < k ==> smoothed[j] == PsychoSmoothed(amps[j])
    {
      var s := PsychoacousticSmooth(amps[k]);
      smoothed := smoothed + [s];
    }
  }

  /** `amps.map(a => average(a, lowCutoff, highCutoff))` */
  method BandMeans(smoothed: seq<seq<real>>, low: int, high: int) returns (means: seq<Option<real>>)
    requires low < high ==> 0 <= low && forall k :: 0 <= k < |smoothed| ==> high <= |smoothed[k]|
    ensures |means| == |smoothed|
    ensures low < high ==> forall k :: 0 <= k < |smoothed| ==> means[k] == Some(BandMean(smoothed[k], low, high))
    ensures low == high ==> forall k :: 0 <= k < |smoothed| ==> means[k].None?
  {
    means := [];
    for k := 0 to |smoothed|
      invariant |means| == k
      invariant low < high ==> forall j :: 0 <= j < k ==> means[j] == Some(BandMean(smoothed[j], low, high))
      invariant low == high ==> forall j :: 0 <= j < k ==> means[j].None?
    {
      var m := Average(smoothed[k], Some(low), Some(high));
      means := means + [m];
    }
  }

  /** `average(amps.map(a => average(a, lowCutoff, highCutoff)))`: the target
      level for a non-empty band; NaN (`None`) for an empty one. */
  method TargetAverage(smoothed: seq<seq<real>>, low: int, high: int) returns (avg: Option<real>)
    requires |smoothed| > 0
    requires low < high ==> 0 <= low && forall k :: 0 <= k < |smoothed| ==> high <= |smoothed[k]|
    ensures low < high ==> avg == Some(TargetLevel(smoothed, low, high))
    ensures low == high ==> avg.None?
  {
    var means := BandMeans(smoothed, low, high);
    avg := None;
    if forall k :: 0 <= k < |means| ==> means[k].Some? {
      var values := seq(|means|, k requires 0 <= k < |means| => means[k].value);
      avg := Average(values, None, None);
      assert values[0..|values|] == values;
      assert avg == Some(Mean(values));
      if low < high {
        assert values == seq(|smoothed|, k requires 0 <= k < |smoothed| => BandMean(smoothed[k], low, high));
      }
    } else {
      // a NaN band mean makes the outer sum NaN
    }
  }

  /** One curve of `generateCorrectionCurve2`: a buffer of `len` ones
      (`correction.fill(1)`), then avg / amp[i] over the band. */
  method FillCorrection(amp: seq<real>, len: nat, low: int, high: int, avg: Option<real>) returns (c: seq<real>)
    requires low < high ==> 0 <= low && high <= len && high <= |amp| && avg.Some?
    requires forall i :: 0 <= i < |amp| ==> amp[i] > 0.0
    ensures |c| == len
    ensures forall i :: 0 <= i < len && !(low <= i < high) ==> c[i] == 1.0
    ensures forall i :: 0 <= i < len && low <= i < high ==> c[i] == avg.value / amp[i]
  {
    var correction := new real[len](_ => 1.0);
    var i := low;
    while i < high
      invariant low < high ==> low <= i <= high
      invariant low >= high ==> i == low
      invariant forall j :: 0 <= j < len && !(low <= j < i) ==> correction[j] == 1.0
      invariant low < high ==> forall j :: low <= j < i && 0 <= j < len ==> correction[j] == avg.value / amp[j]
    {
      correction[i] := avg.value / amp[i];
      i := i + 1;
    }
    c := correction[..];
  }

  /** Psychoacoustic smoothing keeps positive amplitudes positive. */
  lemma PositiveAfterSmoothing(amps: seq<seq<real>>, smoothed: seq<seq<real>>)
    requires |smoothed| == |amps|
    requires forall k :: 0 <= k < |amps| ==> smoothed[k] == PsychoSmoothed(amps[k])
    requires forall k, i :: 0 <= k < |amps| && 0 <= i < |amps[k]| ==> amps[k][i] > 0.0
    ensures forall k, i :: 0 <= k < |smoothed| && 0 <= i < |smoothed[k]| ==> smoothed[k][i] > 0.0
  {
  }

  // ---------------------------------------------------------------------------
  // FIR design

  datatype WindowingFunction = Hann | Hemming | Blackman

  /** The impulse response `generateFirFilter` starts from: the inverse transform
      of (amplitudes, 0), each sample divided by the transform size. */
  function ScaledInverse(kit: Numerics, amplitudes: seq<real>): (r: seq<real>)
    ensures |r| == |amplitudes|
  {
    var n := |amplitudes|;
    var inv := InverseReal(kit, amplitudes, Zeros(n));
    seq(n, i requires 0 <= i < n => inv[i] / n as real)
  }

  /** The half rotation into the filter buffer: the first `length / 2` samples of
      `r` go to the second half, the last `length / 2` samples of `r` to the first. */
  function HalfRotation(r: seq<real>, length: nat): (w: seq<real>)
    requires length % 2 == 0 && length / 2 <= |r|
    ensures |w| == length
    ensures forall i :: 0 <= i < length / 2 ==> w[length / 2 + i] == r[i] && w[i] == r[|r| - length / 2 + i]
  {
    var h := length / 2;
    seq(length, j requires 0 <= j < length => if j < h then r[|r| - h + j] else r[j - h])
  }

  /** Over the whole buffer the half rotation is its own inverse: it swaps the
      two halves. */
  lemma HalfRotationInvolution(r: seq<real>)
    requires |r| % 2 == 0
    ensures HalfRotation(HalfRotation(r, |r|), |r|) == r
  {
    var h := |r| / 2;
    var once := HalfRotation(r, |r|);
    var twice := HalfRotation(once, |r|);
    forall j | 0 <= j < |r|
      ensures twice[j] == r[j]
    {
      if j < h {
        assert twice[j] == once[h + j];
      } else {
        assert twice[j] == once[j - h];
      }
    }
  }

  /** The Hann taper `applyWindowInplace` applies, whatever mode it is given. */
  function Tapered(kit: Numerics, data: seq<real>): (t: seq<real>)
    ensures |t| == |data|
  {
    seq(|data|, n requires 0 <= n < |data| => data[n] * kit.hannTaper(n, |data|))
  }

  /** `applyWindowInplace(data, windowingFunction)`: multiplies every sample by
      sin^2(PI n / N); the mode argument is ignored. */
  method ApplyWindowInPlace(kit: Numerics, data: array<real>, windowingFunction: WindowingFunction)
    modifies data
    ensures data[..] == Tapered(kit, old(data[..]))
  {
    for n := 0 to data.Length
      invariant forall j :: 0 <= j < n ==> data[j] == old(data[j]) * kit.hannTaper(j, data.Length)
      invariant forall j :: n <= j < data.Length ==> data[j] == old(data[j])
    {
      data[n] := data[n] * kit.hannTaper(n, data.Length);
    }
    assert forall j :: 0 <= j < data.Length ==> data[..][j] == Tapered(kit, old(data[..]))[j];
  }

  /** What `generateFirFilter` returns. */
  function FirFilter(kit: Numerics, amplitudes: seq<real>, length: nat): (f: seq<real>)
    requires length % 2 == 0 && length / 2 <= |amplitudes|
    ensures |f| == length
  {
    Tapered(kit, HalfRotation(ScaledInverse(kit, amplitudes), length))
  }

  /** `generateFirFilter(amplitudes, length, windowFn)`: exactly `length` taps,
      the half-rotated, 1/N-scaled inverse transform of the amplitudes, tapered;
      the same for every windowing mode. */
  method GenerateFirFilter(kit: Numerics, amplitudes: seq<real>, length: nat, windowFn: WindowingFunction)
    returns (f: seq<real>)
    requires length % 2 == 0 && length / 2 <= |amplitudes|
    ensures f == FirFilter(kit, amplitudes, length)
  {
    var scaled := InverseScaled(kit, amplitudes);
    var windowedAndShifted := HalfRotate(scaled, length);
    ApplyWindowInPlace(kit, windowedAndShifted, windowFn);
    f := windowedAndShifted[..];
  }

  /** The inverse transform followed by `real[i] /= real.length`. */
  method InverseScaled(kit: Numerics, amplitudes: seq<real>) returns (scaled: seq<real>)
    ensures scaled == ScaledInverse(kit, amplitudes)
  {
    var n := |amplitudes|;
    var inv := InverseReal(kit, amplitudes, Zeros(n));
    var re := new real[n](i requires 0 <= i < n => inv[i]);
    for i := 0 to n
      invariant forall j :: 0 <= j < i ==> re[j] == inv[j] / n as real
      invariant forall j :: i <= j < n ==> re[j] == inv[j]
    {
      re[i] := re[i] / n as real;
    }
    scaled := re[..];
  }

  /** The loop that fills `windowedAndShifted`. */
  method HalfRotate(scaled: seq<real>, length: nat) returns (w: array<real>)
    requires length % 2 == 0 && length / 2 <= |scaled|
    ensures fresh(w) && w[..] == HalfRotation(scaled, length)
  {
    var n := |scaled|;
    w := new real[length](_ => 0.0);
    var h := length / 2;
    for i := 0 to h
      invariant forall j :: 0 <= j < i ==> w[h + j] == scaled[j] && w[j] == scaled[n - h + j]
    {
      w[h + i] := scaled[i];
      w[i] := scaled[n - h + i];
    }
  }
}
