/**
  The measurement list of the application: measured, combined, correction and
  calibration entries, each with per-channel spectra, and the operations that
  append derived entries to it (averaging, correction design, convolution of
  the selection and microphone-calibration import).
*/
module State {
  import opened Wrappers
  import opened Numerics
  import opened Seqs
  import Vector
  import Dsp

  // ---------------------------------------------------------------------------
  // Data model

  /** A channel: the impulse response and its spectrum. The reference channels
      of a correction carry only `fftAmp`. */
  datatype MeasurementChannel =
    | Channel(impulseResponse: seq<real>, fftReal: seq<real>, fftImag: seq<real>, fftAmp: seq<real>, fftPhase: seq<real>)
    | AmplitudeOnly(fftAmp: seq<real>)
  {
    /** All buffers of a full channel have one length. */
    predicate WellFormed()
    {
      Channel? ==> |impulseResponse| == |fftReal| == |fftImag| == |fftAmp| == |fftPhase|
    }
  }

  /** 'measurement' | 'combined-measurement' | 'house-curve' | 'mic-calibration' | 'correction' */
  datatype MeasurementType = Measured | CombinedMeasurement | HouseCurve | MicCalibration | Correction

  /** An entry of the list. The combined entry `convolveSelection` appends has
      neither a sample rate nor reference channels. */
  datatype Measurement = Measurement(
    selected: bool,
    kind: MeasurementType,
    name: string,
    sampleRate: Option<real>,
    referenceChannels: Option<seq<MeasurementChannel>>,
    channels: seq<MeasurementChannel>)

  /** `settings.correction` */
  datatype CorrectionSettings = CorrectionSettings(
    linearPhase: bool, filterLength: nat, lowCutoff: real, highCutoff: real, maxBoostDb: real, maxCutDb: real)

  const DefaultCorrection := CorrectionSettings(true, 512, 30.0, 20000.0, 10.0, -10.0)

  const NoMeasurements := "No measurements selected"
  const ChannelCountMismatch := "Channel count mismatch"
  /** The TypeError of reading a property of a missing entry or buffer. */
  const ReadOfUndefined := "Cannot read properties of undefined"

  /** The sample rate and length of a calibration curve. */
  const CalibrationRate := 48000

  predicate IsMeasured(m: Measurement)
  {
    m.kind == Measured
  }

  predicate IsSelected(m: Measurement)
  {
    m.selected
  }

  // ---------------------------------------------------------------------------
  // Complex division and channels

  /** `complexDivide(a, b, c, d)`: (a + bi) / (c + di), whose product with
      (c + di) is (a + bi). */
  function ComplexDivide(a: real, b: real, c: real, d: real): (q: (real, real))
    requires c * c + d * d != 0.0
    ensures q.0 * c - q.1 * d == a && q.0 * d + q.1 * c == b
  {
    var n := c * c + d * d;
    var q := ((a * c + b * d) / n, (b * c - a * d) / n);
    DivisionUndone(a, b, c, d, q.0, q.1);
    q
  }

  lemma DivisionUndone(a: real, b: real, c: real, d: real, x: real, y: real)
    requires c * c + d * d != 0.0
    requires x == (a * c + b * d) / (c * c + d * d) && y == (b * c - a * d) / (c * c + d * d)
    ensures x * c - y * d == a && x * d + y * c == b
  {
    var n := c * c + d * d;
    assert x * n == a * c + b * d;
    assert y * n == b * c - a * d;
    assert (x * c - y * d) * n == (x * n) * c - (y * n) * d;
    assert (x * c - y * d) * n == a * n;
    assert (x * d + y * c) * n == (x * n) * d + (y * n) * c;
    assert (x * d + y * c) * n == b * n;
  }

  /** `fromFFT(real, imag)`: a channel holding the given spectrum with the
      magnitude, phase and impulse response derived from it. */
  function FromFft(kit: Numerics, re: seq<real>, im: seq<real>): (ch: MeasurementChannel)
    requires |re| == |im|
    ensures ch.Channel? && ch.WellFormed() && |ch.fftAmp| == |re|
    ensures ch.fftReal == re && ch.fftImag == im
  {
    Channel(Dsp.InverseReal(kit, re, im), re, im, Dsp.Magnitudes(kit, re, im), Dsp.Phases(kit, re, im))
  }

  /** Bin `i` of a correction can divide: a full channel divides by
      `fftReal[i] + fftReal[i]·i`, an amplitude-only one by `fftAmp[i]`. */
  predicate Divides(c: MeasurementChannel, i: nat)
  {
    if c.Channel? then i < |c.fftReal| && c.fftReal[i] != 0.0 else i < |c.fftAmp| && c.fftAmp[i] != 0.0
  }

  /** Every bin the corrections divide (those below both lengths) can divide. */
  predicate CanDivide(cs: seq<MeasurementChannel>, n: nat)
  {
    forall k, i :: 0 <= k < |cs| && 0 <= i < |cs[k].fftAmp| && i < n ==> Divides(cs[k], i)
  }

  /** One bin divided by one correction, as `fromImpulseResponse` does it:
      `complexDivide` gets `fftReal[i]` as both parts of the divisor. */
  function DivideBin(re: real, im: real, c: MeasurementChannel, i: nat): (q: (real, real))
    requires Divides(c, i)
  {
    if c.Channel? then
      var r := c.fftReal[i];
      assert r * r > 0.0;
      ComplexDivide(re, im, r, r)
    else (re / c.fftAmp[i], im / c.fftAmp[i])
  }

  /** A spectrum divided by one correction over the bins both have. */
  function DividedBy(re: seq<real>, im: seq<real>, c: MeasurementChannel): (r: (seq<real>, seq<real>))
    requires |re| == |im|
    requires forall i :: 0 <= i < |c.fftAmp| && i < |re| ==> Divides(c, i)
    ensures |r.0| == |re| && |r.1| == |re|
  {
    (seq(|re|, i requires 0 <= i < |re| => if i < |c.fftAmp| then DivideBin(re[i], im[i], c, i).0 else re[i]),
     seq(|re|, i requires 0 <= i < |re| => if i < |c.fftAmp| then DivideBin(re[i], im[i], c, i).1 else im[i]))
  }

  /** A spectrum divided by each correction in turn. */
  function Corrected(re: seq<real>, im: seq<real>, cs: seq<MeasurementChannel>): (r: (seq<real>, seq<real>))
    requires |re| == |im| && CanDivide(cs, |re|)
    ensures |r.0| == |re| && |r.1| == |re|
  {
    if cs == [] then (re, im)
    else
      var before := Corrected(re, im, cs[..|cs| - 1]);
      DividedBy(before.0, before.1, cs[|cs| - 1])
  }

  /** What `fromImpulseResponse(data, ...corrections)` returns: the rest
      parameter is always an array, so every result goes through `fromFFT` of the
      corrected spectrum. */
  function ImpulseChannel(kit: Numerics, data: seq<real>, corrections: seq<MeasurementChannel>): (ch: MeasurementChannel)
    requires CanDivide(corrections, |data|)
    ensures ch.Channel? && ch.WellFormed() && |ch.fftAmp| == |data|
  {
    var sp := Dsp.SpectrumOf(kit, data);
    var cr := Corrected(sp.re, sp.im, corrections);
    FromFft(kit, cr.0, cr.1)
  }

  /** Corrected by one channel, a bin times the divisor is the original bin: for a
      full channel the divisor is r + r·i with r = `fftReal[i]` (the real part is
      passed twice), for an amplitude-only one it is `fftAmp[i]`; bins past the
      correction are untouched. */
  lemma {:induction false} CorrectionUndone(re: seq<real>, im: seq<real>, c: MeasurementChannel, i: nat)
    requires |re| == |im| && CanDivide([c], |re|) && i < |re|
    ensures var cr := Corrected(re, im, [c]);
      && (i < |c.fftAmp| && c.Channel? && i < |c.fftReal| ==>
            var r := c.fftReal[i];
            cr.0[i] * r - cr.1[i] * r == re[i] && cr.0[i] * r + cr.1[i] * r == im[i])
      && (i < |c.fftAmp| && c.AmplitudeOnly? ==> cr.0[i] * c.fftAmp[i] == re[i] && cr.1[i] * c.fftAmp[i] == im[i])
      && (i >= |c.fftAmp| ==> cr.0[i] == re[i] && cr.1[i] == im[i])
  {
    assert [c][..0] == [];
    assert Corrected(re, im, []) == (re, im);
    var cr := Corrected(re, im, [c]);
    assert cr == DividedBy(re, im, c);
    if i < |c.fftAmp| {
      assert Divides(c, i);
      var q := DivideBin(re[i], im[i], c, i);
      assert cr.0[i] == q.0 && cr.1[i] == q.1;
    }
  }

  /** `fromImpulseResponse(data, ...corrections)`. The spectrum is divided in
      place, correction by correction. */
  method FromImpulseResponse(kit: Numerics, data: seq<real>, corrections: seq<MeasurementChannel>)
    returns (ch: MeasurementChannel)
    requires CanDivide(corrections, |data|)
    ensures ch == ImpulseChannel(kit, data, corrections)
  {
    var freq := Dsp.Fft(kit, data);
    var re := new real[|data|](i requires 0 <= i < |data| => freq.re[i]);
    var im := new real[|data|](i requires 0 <= i < |data| => freq.im[i]);
    assert re[..] == freq.re && im[..] == freq.im;
    for k := 0 to |corrections|
      invariant re.Length == im.Length == |data|
      invariant (re[..], im[..]) == Corrected(freq.re, freq.im, corrections[..k])
    {
      assert corrections[..k + 1][..k] == corrections[..k];
      DivideInPlace(re, im, corrections[k]);
    }
    assert corrections[..|corrections|] == corrections;
    ch := FromFft(kit, re[..], im[..]);
  }

  /** The inner loop of `fromImpulseResponse` for one correction. */
  method DivideInPlace(re: array<real>, im: array<real>, c: MeasurementChannel)
    requires re != im && re.Length == im.Length
    requires forall i :: 0 <= i < |c.fftAmp| && i < re.Length ==> Divides(c, i)
    modifies re, im
    ensures (re[..], im[..]) == DividedBy(old(re[..]), old(im[..]), c)
  {
    var minLen := if |c.fftAmp| < re.Length then |c.fftAmp| else re.Length;
    ghost var expected := DividedBy(re[..], im[..], c);
    for i := 0 to minLen
      invariant forall j :: 0 <= j < i ==> re[j] == expected.0[j] && im[j] == expected.1[j]
      invariant forall j :: i <= j < re.Length ==> re[j] == old(re[j]) && im[j] == old(im[j])
    {
      var q := DivideBin(re[i], im[i], c, i);
      re[i], im[i] := q.0, q.1;
    }
    assert re[..] == expected.0 && im[..] == expected.1;
  }

  // ---------------------------------------------------------------------------
  // Averaging

  predicate SameSampleRate(ms: seq<Measurement>)
  {
    forall k :: 0 <= k < |ms| ==> ms[k].sampleRate == ms[0].sampleRate
  }

  predicate SameChannelCount(ms: seq<Measurement>)
  {
    forall k :: 0 <= k < |ms| ==> |ms[k].channels| == |ms[0].channels|
  }

  /** `fftAmp` of channel `i` of every measurement. */
  function Amplitudes(ms: seq<Measurement>, i: nat): (amps: seq<seq<real>>)
    requires forall k :: 0 <= k < |ms| ==> i < |ms[k].channels|
    ensures |amps| == |ms| && forall k :: 0 <= k < |ms| ==> amps[k] == ms[k].channels[i].fftAmp
  {
    seq(|ms|, k requires 0 <= k < |ms| => ms[k].channels[i].fftAmp)
  }

  /** Channel `i` of the average: `fromFFT` of the ragged average of the
      amplitudes, with a zero imaginary part. */
  function AveragedChannel(kit: Numerics, ms: seq<Measurement>, i: nat): MeasurementChannel
    requires forall k :: 0 <= k < |ms| ==> i < |ms[k].channels|
  {
    var avg := Vector.Averaged(Amplitudes(ms, i));
    FromFft(kit, avg, Zeros(|avg|))
  }

  /** The entry `averageMeasurements` appends. */
  function Averaged(kit: Numerics, ms: seq<Measurement>): (m: Measurement)
    requires |ms| > 0 && SameChannelCount(ms)
    ensures m.selected && m.kind == CombinedMeasurement && m.name == "Average"
    ensures m.sampleRate == ms[0].sampleRate && m.referenceChannels == Some([])
    ensures |m.channels| == |ms[0].channels|
  {
    Measurement(true, CombinedMeasurement, "Average", ms[0].sampleRate, Some([]),
      seq(|ms[0].channels|, i requires 0 <= i < |ms[0].channels| => AveragedChannel(kit, ms, i)))
  }

  /** The loop of `averageMeasurements`: one averaged channel per channel. */
  method AverageChannels(kit: Numerics, ms: seq<Measurement>, numChannels: nat) returns (channels: seq<MeasurementChannel>)
    requires |ms| > 0 && SameChannelCount(ms) && numChannels == |ms[0].channels|
    ensures channels == Averaged(kit, ms).channels
  {
    channels := [];
    for i := 0 to numChannels
      invariant |channels| == i
      invariant forall j :: 0 <= j < i ==> channels[j] == AveragedChannel(kit, ms, j)
    {
      var ampAverage := Vector.VectorAverage(Amplitudes(ms, i));
      var ampImag := Zeros(|ampAverage|);
      channels := channels + [FromFft(kit, ampAverage, ampImag)];
    }
  }

  /** Every entry with `selected` cleared. */
  function Deselected(ms: seq<Measurement>): (r: seq<Measurement>)
    ensures |r| == |ms|
  {
    seq(|ms|, k requires 0 <= k < |ms| => ms[k].(selected := false))
  }

  /** A filter no element passes is empty. */
  lemma {:induction false} FilterNone<T>(s: seq<T>, keep: T -> bool)
    requires forall k :: 0 <= k < |s| ==> !keep(s[k])
    ensures Filter(s, keep) == []
  {
    if s != [] {
      FilterNone(s[..|s| - 1], keep);
    }
  }

  /** After averaging, the average is the only selected entry. */
  lemma AverageIsTheSelection(ms: seq<Measurement>, avg: Measurement)
    requires avg.selected
    ensures Filter(Deselected(ms) + [avg], IsSelected) == [avg]
  {
    FilterNone(Deselected(ms), IsSelected);
    FilterConcat(Deselected(ms), [avg], IsSelected);
    assert [avg][..0] == [];
  }

  /** Averaging measurements whose channel `i` all have amplitude `v` gives a
      channel `i` whose real part is `v` and whose imaginary part is zero. */
  lemma AverageOfIdentical(kit: Numerics, ms: seq<Measurement>, i: nat, v: seq<real>)
    requires |ms| > 0
    requires forall k :: 0 <= k < |ms| ==> i < |ms[k].channels| && ms[k].channels[i].fftAmp == v
    ensures AveragedChannel(kit, ms, i).fftReal == v
    ensures AveragedChannel(kit, ms, i).fftImag == Zeros(|v|)
  {
    var amps := Amplitudes(ms, i);
    var avg := Vector.Averaged(amps);
    Vector.MaxLengthOfCopies(amps, v);
    forall j | 0 <= j < |v|
      ensures avg[j] == v[j]
    {
      Vector.AverageOfCopies(amps, v, j);
    }
  }

  /** The checks of `averageMeasurements` after the empty case: sample rates,
      then channel counts against the largest. */
  method CheckAverageInputs(ms: seq<Measurement>) returns (r: Result<nat>)
    requires |ms| > 0
    ensures r.Ok? <==> SameSampleRate(ms) && SameChannelCount(ms)
    ensures r.Ok? ==> r.value == |ms[0].channels|
    ensures r.Err? ==> r.message == ChannelCountMismatch
  {
    var sampleRate := ms[0].sampleRate;
    for k := 0 to |ms|
      invariant forall j :: 0 <= j < k ==> ms[j].sampleRate == sampleRate
    {
      if ms[k].sampleRate != sampleRate {
        return Err(ChannelCountMismatch);
      }
    }
    var numChannels := 0;
    for k := 0 to |ms|
      invariant forall j :: 0 <= j < k ==> |ms[j].channels| <= numChannels
      invariant k > 0 ==> exists j :: 0 <= j < k && |ms[j].channels| == numChannels
      invariant k == 0 ==> numChannels == 0
    {
      if |ms[k].channels| > numChannels {
        numChannels := |ms[k].channels|;
      }
    }
    for k := 0 to |ms|
      invariant forall j :: 0 <= j < k ==> |ms[j].channels| == numChannels
    {
      if |ms[k].channels| != numChannels {
        return Err(ChannelCountMismatch);
      }
    }
    r := Ok(numChannels);
  }

  // ---------------------------------------------------------------------------
  // Convolution of the selection

  /** What `convolveSelection` appends, or the error it throws: the first two
      selected entries `a` and `b` are combined channel by channel (as many as
      `a` has) into a selected entry named "a x b". */
  function Convolved(kit: Numerics, ms: seq<Measurement>): (r: Result<Measurement>)
    ensures r.Ok? ==> var sel := Filter(ms, IsSelected);
      && |sel| >= 2
      && r.value.selected && r.value.kind == CombinedMeasurement
      && r.value.name == sel[0].name + " x " + sel[1].name
      && r.value.sampleRate.None? && r.value.referenceChannels.None?
      && |r.value.channels| == |sel[0].channels|
  {
    var sel := Filter(ms, IsSelected);
    if |sel| < 2 then Err(ReadOfUndefined)
    else
      var a, b := sel[0], sel[1];
      var irs := PairConvolution(kit, a, b);
      if irs.Err? then Err(irs.message)
      else Ok(Measurement(true, CombinedMeasurement, a.name + " x " + b.name, None, None, irs.value))
  }

  /** Every channel of `a` has a full counterpart in `b`, so the convolution
      reads no missing channel and no amplitude-only one. */
  predicate Convolvable(a: Measurement, b: Measurement)
  {
    && |a.channels| <= |b.channels|
    && forall i :: 0 <= i < |a.channels| ==> a.channels[i].Channel? && b.channels[i].Channel?
  }

  /** The impulse-response channel of the convolution of two impulse responses. */
  function ConvolvedChannel(kit: Numerics, x: MeasurementChannel, y: MeasurementChannel): MeasurementChannel
    requires x.Channel? && y.Channel?
  {
    ImpulseChannel(kit, Dsp.Convolution(kit, x.impulseResponse, y.impulseResponse), [])
  }

  /** The channels of the convolution of `a` with `b`: channel `i` is the
      impulse-response channel of the convolution of their `i`-th impulse
      responses, for every channel of `a`; reading a channel `b` lacks or an
      amplitude-only channel throws. */
  function PairConvolution(kit: Numerics, a: Measurement, b: Measurement): (r: Result<seq<MeasurementChannel>>)
    ensures r.Err? <==> !Convolvable(a, b)
    ensures r.Err? ==> r.message == ReadOfUndefined
    ensures r.Ok? ==> |r.value| == |a.channels|
  {
    if !Convolvable(a, b) then Err(ReadOfUndefined)
    else
      Ok(seq(|a.channels|, i requires 0 <= i < |a.channels| => ConvolvedChannel(kit, a.channels[i], b.channels[i])))
  }

  /** One step of the loop: `fromImpulseResponse(convolve(x.impulseResponse, y.impulseResponse))`. */
  method ConvolveChannel(kit: Numerics, x: MeasurementChannel, y: MeasurementChannel) returns (ch: MeasurementChannel)
    requires x.Channel? && y.Channel?
    ensures ch == ConvolvedChannel(kit, x, y)
  {
    var ir := Dsp.Convolve(kit, x.impulseResponse, y.impulseResponse);
    ch := FromImpulseResponse(kit, ir, []);
  }

  /** The loop of `convolveSelection` over the channels of `a`. */
  method ConvolveChannels(kit: Numerics, a: Measurement, b: Measurement) returns (r: Result<seq<MeasurementChannel>>)
    ensures r == PairConvolution(kit, a, b)
  {
    var irs: seq<MeasurementChannel> := [];
    for i := 0 to |a.channels|
      invariant |irs| == i && i <= |b.channels|
      invariant forall j :: 0 <= j < i ==> a.channels[j].Channel? && b.channels[j].Channel?
      invariant forall j :: 0 <= j < i ==> irs[j] == ConvolvedChannel(kit, a.channels[j], b.channels[j])
    {
      if i >= |b.channels| || a.channels[i].AmplitudeOnly? || b.channels[i].AmplitudeOnly? {
        return Err(ReadOfUndefined);
      }
      var ch := ConvolveChannel(kit, a.channels[i], b.channels[i]);
      irs := irs + [ch];
    }
    assert irs == seq(|a.channels|, i requires 0 <= i < |a.channels| => ConvolvedChannel(kit, a.channels[i], b.channels[i]));
    r := Ok(irs);
  }

  /** Appending a selected entry keeps the earlier selection in front of it. */
  lemma SelectionGrows(ms: seq<Measurement>, m: Measurement)
    requires m.selected
    ensures Filter(ms + [m], IsSelected) == Filter(ms, IsSelected) + [m]
  {
    FilterConcat(ms, [m], IsSelected);
    assert [m][..0] == [];
  }

  // ---------------------------------------------------------------------------
  // Correction

  /** The selected entry's amplitude spectra, one per channel. */
  function ChannelAmplitudes(m: Measurement): (amps: seq<seq<real>>)
    ensures |amps| == |m.channels| && forall k :: 0 <= k < |m.channels| ==> amps[k] == m.channels[k].fftAmp
  {
    seq(|m.channels|, k requires 0 <= k < |m.channels| => m.channels[k].fftAmp)
  }

  /** What `generateCorrection` needs of the first selected entry: a sample rate,
      inputs the correction curve accepts, and a filter length the FIR design
      can fill. */
  predicate CorrectionInputs(settings: CorrectionSettings, ar: Measurement)
  {
    var amps := ChannelAmplitudes(ar);
    |amps| > 0 ==>
      && ar.sampleRate.Some?
      && Dsp.CurveInputs(ar.sampleRate.value, settings.lowCutoff, settings.highCutoff, amps)
      && settings.filterLength % 2 == 0 && settings.filterLength / 2 <= |amps[0]|
  }

  /** The entry `generateCorrection` appends: one correction curve per channel
      as amplitude-only reference channels, and per curve the FIR filter's
      channel. */
  function CorrectionFor(kit: Numerics, settings: CorrectionSettings, ar: Measurement): (m: Measurement)
    requires CorrectionInputs(settings, ar) && |ar.channels| > 0
    ensures m.selected && m.kind == Correction && m.name == "Correction Filter" + ar.name
    ensures m.sampleRate == ar.sampleRate
    ensures m.referenceChannels.Some? && |m.referenceChannels.value| == |ar.channels| == |m.channels|
  {
    var amps := ChannelAmplitudes(ar);
    var curves := Dsp.CorrectionCurves(ar.sampleRate.value, settings.lowCutoff, settings.highCutoff, amps);
    Measurement(true, Correction, "Correction Filter" + ar.name, ar.sampleRate,
      Some(seq(|curves|, k requires 0 <= k < |curves| => AmplitudeOnly(curves[k]))),
      seq(|curves|, k requires 0 <= k < |curves| =>
        ImpulseChannel(kit, Dsp.FirFilter(kit, curves[k], settings.filterLength), [])))
  }

  /** With a single entry selected, `generateCorrection`'s convolution pairs that
      entry with its own correction. */
  lemma CorrectionPairsWithSelection(ms: seq<Measurement>, corr: Measurement)
    requires corr.selected && |Filter(ms, IsSelected)| == 1
    ensures Filter(ms + [corr], IsSelected) == [Filter(ms, IsSelected)[0], corr]
  {
    SelectionGrows(ms, corr);
  }

  // ---------------------------------------------------------------------------
  // Calibration import

  /** A parsed line of a calibration file; `freq` is `None` where it is NaN. */
  datatype CalibrationLine = CalibrationLine(freq: Option<real>, gain: real)

  /** A line is kept when its frequency parses. */
  predicate FrequencyParses(l: CalibrationLine)
  {
    l.freq.Some?
  }

  /** The gain the fill writes to bin `j` of the segment from (f0, g0) to
      (f1, g1): it starts from g0 + (f0 - ceil f0)·step at ceil f0 and rises by
      `step` = (g1 - g0) / (floor f1 - ceil f0) per bin. */
  function SegmentGain(f0: real, g0: real, f1: real, g1: real, j: int): real
    requires f1.Floor > Ceil(f0)
  {
    var start := Ceil(f0);
    var step := (g1 - g0) / (f1.Floor - start) as real;
    g0 + (f0 - start as real) * step + (j - start) as real * step
  }

  /** One segment written into the curve: bins ceil f0 <= j < floor f1 inside
      the buffer take the segment's gain, all others keep their value. */
  function Segment(amp: seq<real>, f0: real, g0: real, f1: real, g1: real): (r: seq<real>)
    ensures |r| == |amp|
  {
    seq(|amp|, j requires 0 <= j < |amp| =>
      if Ceil(f0) <= j < f1.Floor then SegmentGain(f0, g0, f1, g1, j) else amp[j])
  }

  /** The calibration curve of the kept points: 1 everywhere, then each
      consecutive pair's segment written in order. */
  function CalibrationCurve(freqs: seq<real>, gains: seq<real>): (r: seq<real>)
    requires |freqs| == |gains|
    ensures |r| == CalibrationRate
  {
    if |freqs| < 2 then seq(CalibrationRate, _ => 1.0)
    else
      var n := |freqs|;
      Segment(CalibrationCurve(freqs[..n - 1], gains[..n - 1]), freqs[n - 2], gains[n - 2], freqs[n - 1], gains[n - 1])
  }

  /** A bin outside every segment keeps the initial 1. */
  lemma {:induction false} CalibrationUntouched(freqs: seq<real>, gains: seq<real>, j: nat)
    requires |freqs| == |gains| && j < CalibrationRate
    requires forall i :: 0 <= i < |freqs| - 1 ==> !(Ceil(freqs[i]) <= j < freqs[i + 1].Floor)
    ensures CalibrationCurve(freqs, gains)[j] == 1.0
  {
    if |freqs| >= 2 {
      var n := |freqs|;
      CalibrationUntouched(freqs[..n - 1], gains[..n - 1], j);
    }
  }

  /** The intended fill: the straight line through (f0, g0) and (f1, g1). */
  function InterpolatedGain(f0: real, g0: real, f1: real, g1: real, j: int): real
    requires f0 < f1
  {
    g0 + (j as real - f0) * ((g1 - g0) / (f1 - f0))
  }

  /** The straight line stays between its end gains over [f0, f1]. */
  lemma InterpolatedGainBetween(f0: real, g0: real, f1: real, g1: real, j: int)
    requires f0 < f1 && f0 <= j as real <= f1
    ensures MinReal(g0, g1) <= InterpolatedGain(f0, g0, f1, g1, j) <= MaxReal(g0, g1)
  {
    var x, y, d := j as real - f0, f1 - f0, g1 - g0;
    assert InterpolatedGain(f0, g0, f1, g1, j) == g0 + x * (d / y);
    UnitFraction(x, y);
    QuotientFactor(x, d, y);
    ScaledBetween(x / y, d);
    StepBetween(g0, g1, (x / y) * d);
  }

  /** A step from g0 towards g1 that does not pass g1 stays between them. */
  lemma StepBetween(g0: real, g1: real, e: real)
    requires g0 <= g1 ==> 0.0 <= e <= g1 - g0
    requires g1 < g0 ==> g1 - g0 <= e <= 0.0
    ensures MinReal(g0, g1) <= g0 + e <= MaxReal(g0, g1)
  {
  }

  /** Dividing the second factor is dividing the first: x * (d / y) == (x / y) * d. */
  lemma QuotientFactor(x: real, d: real, y: real)
    requires y != 0.0
    ensures x * (d / y) == (x / y) * d
  {
    var p, q := x / y, d / y;
    assert p * y == x && q * y == d;
    calc {
      x * q;
      (p * y) * q;
      p * (q * y);
      p * d;
    }
  }

  /** 0 <= x <= y with y > 0 puts x / y in [0, 1]. */
  lemma UnitFraction(x: real, y: real)
    requires 0.0 <= x <= y && y > 0.0
    ensures 0.0 <= x / y <= 1.0
  {
  }

  /** Scaling by a factor in [0, 1] stays between 0 and the scaled value. */
  lemma ScaledBetween(t: real, d: real)
    requires 0.0 <= t <= 1.0
    ensures d >= 0.0 ==> 0.0 <= t * d <= d
    ensures d < 0.0 ==> d <= t * d <= 0.0
  {
    assert d - t * d == (1.0 - t) * d;
  }

  function MinReal(a: real, b: real): real
  {
    if a <= b then a else b
  }

  /** When both frequencies are whole numbers the fill as written is the
      straight line. */
  lemma SegmentGainOnWholeFrequencies(f0: real, g0: real, f1: real, g1: real, j: int)
    requires IsWhole(f0) && IsWhole(f1) && f1.Floor > Ceil(f0)
    ensures SegmentGain(f0, g0, f1, g1, j) == InterpolatedGain(f0, g0, f1, g1, j)
  {
    assert Ceil(f0) as real == f0 by {
      assert (-f0).Floor == -(f0.Floor);
    }
    assert f1.Floor as real == f1;
  }

  /** With a fractional first frequency the fill as written leaves the segment's
      range: from (0.5, 0) to (3, 2.5) bin 1 gets -0.625, below both end gains,
      where the line through the two points passes 0.5. */
  lemma SegmentGainOvershoots()
    ensures SegmentGain(0.5, 0.0, 3.0, 2.5, 1) == -0.625
    ensures InterpolatedGain(0.5, 0.0, 3.0, 2.5, 1) == 0.5
  {
    assert Ceil(0.5) == 1 by {
      assert (-0.5).Floor == -1;
    }
    assert 3.0.Floor == 3;
  }

  /** The line loop: frequencies and gains of the lines whose frequency parses. */
  method KeepParsed(lines: seq<CalibrationLine>) returns (frequencies: seq<real>, gains: seq<real>)
    ensures |frequencies| == |gains| == |Filter(lines, FrequencyParses)|
    ensures forall k :: 0 <= k < |frequencies| ==>
      frequencies[k] == Filter(lines, FrequencyParses)[k].freq.value && gains[k] == Filter(lines, FrequencyParses)[k].gain
  {
    frequencies := [];
    gains := [];
    for k := 0 to |lines|
      invariant |frequencies| == |gains| == |Filter(lines[..k], FrequencyParses)|
      invariant forall m :: 0 <= m < |frequencies| ==>
        frequencies[m] == Filter(lines[..k], FrequencyParses)[m].freq.value && gains[m] == Filter(lines[..k], FrequencyParses)[m].gain
    {
      assert lines[..k + 1][..k] == lines[..k];
      if lines[k].freq.Some? {
        frequencies := frequencies + [lines[k].freq.value];
        gains := gains + [lines[k].gain];
      }
    }
    assert lines[..|lines|] == lines;
  }

  /** The inner loop for one segment: `gain` starts at the segment's first
      value and grows by `step`; writes outside the buffer have no effect. */
  method FillSegment(amplitude: array<real>, f0: real, g0: real, f1: real, g1: real)
    modifies amplitude
    ensures amplitude[..] == Segment(old(amplitude[..]), f0, g0, f1, g1)
  {
    var start := Ceil(f0);
    var end := f1.Floor;
    if start >= end {
      assert amplitude[..] == Segment(old(amplitude[..]), f0, g0, f1, g1);
      return;
    }
    var startError := f0 - start as real;
    var step := (g1 - g0) / (end - start) as real;
    var gain := g0 + startError * step;
    var j := start;
    while j < end
      invariant start <= j <= end
      invariant gain == g0 + startError * step + (j - start) as real * step
      invariant forall i :: 0 <= i < amplitude.Length ==>
        amplitude[i] == if start <= i < j then SegmentGain(f0, g0, f1, g1, i) else old(amplitude[i])
    {
      if 0 <= j < amplitude.Length {
        amplitude[j] := gain;
      }
      gain := gain + step;
      j := j + 1;
    }
  }

  /** The segment loop: 1 everywhere, then every consecutive pair in order. */
  method FillCalibration(frequencies: seq<real>, gains: seq<real>) returns (amplitude: seq<real>)
    requires |frequencies| == |gains|
    ensures amplitude == CalibrationCurve(frequencies, gains)
  {
    var a := new real[CalibrationRate](_ => 1.0);
    if |frequencies| == 0 {
      assert a[..] == CalibrationCurve(frequencies, gains);
      return a[..];
    }
    assert a[..] == CalibrationCurve(frequencies[..1], gains[..1]);
    for i := 0 to |frequencies| - 1
      invariant a[..] == CalibrationCurve(frequencies[..i + 1], gains[..i + 1])
    {
      assert frequencies[..i + 2][..i + 1] == frequencies[..i + 1];
      assert gains[..i + 2][..i + 1] == gains[..i + 1];
      FillSegment(a, frequencies[i], gains[i], frequencies[i + 1], gains[i + 1]);
    }
    assert frequencies[..|frequencies|] == frequencies && gains[..|gains|] == gains;
    amplitude := a[..];
  }

  // ---------------------------------------------------------------------------
  // The application state

  class AppState {
    /** The transforms and maths the application links against. */
    const kit: Numerics
    var measurements: seq<Measurement>
    var correction: CorrectionSettings

    constructor(kit: Numerics)
      ensures this.kit == kit && measurements == [] && correction == DefaultCorrection
    {
      this.kit := kit;
      measurements := [];
      correction := DefaultCorrection;
    }

    /** `averageMeasurements`: fails before any change when there is no
        'measurement' entry (selected or not) or their sample rates or channel
        counts differ; otherwise clears every selection and appends the selected
        average. */
    method AverageMeasurements() returns (r: Result<()>)
      modifies this
      ensures var measmts := Filter(old(measurements), IsMeasured);
        && (measmts == [] ==> r == Err(NoMeasurements))
        && (measmts != [] && !(SameSampleRate(measmts) && SameChannelCount(measmts)) ==> r == Err(ChannelCountMismatch))
        && (measmts != [] && SameSampleRate(measmts) && SameChannelCount(measmts) ==>
              r == Ok(()) && measurements == Deselected(old(measurements)) + [Averaged(kit, measmts)])
        && (r.Err? ==> measurements == old(measurements))
      ensures correction == old(correction)
    {
      var measmts := Filter(measurements, IsMeasured);
      if |measmts| == 0 {
        return Err(NoMeasurements);
      }
      var check := CheckAverageInputs(measmts);
      if check.Err? {
        return Err(check.message);
      }
      var channels := AverageChannels(kit, measmts, check.value);
      measurements := Deselected(measurements) + [Measurement(true, CombinedMeasurement, "Average", measmts[0].sampleRate, Some([]), channels)];
      r := Ok(());
    }

    /** `convolveSelection`: appends the convolution of the first two selected
        entries, or throws without changing anything. */
    method ConvolveSelection() returns (r: Result<()>)
      modifies this
      ensures Convolved(kit, old(measurements)).Err? ==>
        r == Err(Convolved(kit, old(measurements)).message) && measurements == old(measurements)
      ensures Convolved(kit, old(measurements)).Ok? ==>
        r == Ok(()) && measurements == old(measurements) + [Convolved(kit, old(measurements)).value]
      ensures correction == old(correction)
    {
      var sel := Filter(measurements, IsSelected);
      if |sel| < 2 {
        return Err(ReadOfUndefined);
      }
      var a, b := sel[0], sel[1];
      var irs := ConvolveChannels(kit, a, b);
      if irs.Err? {
        return Err(irs.message);
      }
      var m := Measurement(true, CombinedMeasurement, a.name + " x " + b.name, None, None, irs.value);
      measurements := measurements + [m];
      r := Ok(());
    }

    /** `generateCorrection`: nothing when nothing is selected; otherwise the
        correction of the first selected entry is appended (selected) and the
        selection is convolved. */
    method GenerateCorrection() returns (r: Result<()>)
      requires Filter(measurements, IsSelected) != [] ==> CorrectionInputs(correction, Filter(measurements, IsSelected)[0])
      modifies this
      ensures var sel := Filter(old(measurements), IsSelected);
        && (sel == [] ==> r == Ok(()) && measurements == old(measurements))
        && (sel != [] && |sel[0].channels| == 0 ==> r == Err(Dsp.NoAmplitudes) && measurements == old(measurements))
        && (sel != [] && |sel[0].channels| > 0 ==>
              var ms := old(measurements) + [CorrectionFor(kit, old(correction), sel[0])];
              && (Convolved(kit, ms).Err? ==> r == Err(Convolved(kit, ms).message) && measurements == ms)
              && (Convolved(kit, ms).Ok? ==> r == Ok(()) && measurements == ms + [Convolved(kit, ms).value]))
      ensures correction == old(correction)
    {
      var sel := Filter(measurements, IsSelected);
      if |sel| == 0 {
        return Ok(());
      }
      var ar := sel[0];
      var corr := BuildCorrection(kit, correction, ar);
      if corr.Err? {
        return Err(corr.message);
      }
      measurements := measurements + [corr.value];
      r := ConvolveSelection();
    }

    /** `parseCalibrationFile(name, file)` on the parsed lines: appends a
        selected 48 kHz calibration entry whose two channels are the same. */
    method ParseCalibrationFile(name: string, lines: seq<CalibrationLine>)
      modifies this
      ensures var kept := Filter(lines, FrequencyParses);
        var ch := FromFft(kit, CalibrationCurve(seq(|kept|, k requires 0 <= k < |kept| => kept[k].freq.value),
                                                seq(|kept|, k requires 0 <= k < |kept| => kept[k].gain)),
                          Zeros(CalibrationRate));
        measurements == old(measurements) + [Measurement(true, MicCalibration, name, Some(CalibrationRate as real), Some([]), [ch, ch])]
      ensures correction == old(correction)
    {
      var frequencies, gains := KeepParsed(lines);
      ghost var kept := Filter(lines, FrequencyParses);
      assert frequencies == seq(|kept|, k requires 0 <= k < |kept| => kept[k].freq.value);
      assert gains == seq(|kept|, k requires 0 <= k < |kept| => kept[k].gain);
      var amplitude := FillCalibration(frequencies, gains);
      var imag := Zeros(|amplitude|);
      var ch := FromFft(kit, amplitude, imag);
      measurements := measurements + [Measurement(true, MicCalibration, name, Some(CalibrationRate as real), Some([]), [ch, ch])];
    }
  }

  /** The correction entry of `generateCorrection` for the selected entry `ar`:
      the curve design throws when `ar` has no channels. */
  method BuildCorrection(kit: Numerics, settings: CorrectionSettings, ar: Measurement) returns (r: Result<Measurement>)
    requires CorrectionInputs(settings, ar)
    ensures |ar.channels| == 0 <==> r.Err?
    ensures r.Err? ==> r.message == Dsp.NoAmplitudes
    ensures r.Ok? ==> r.value == CorrectionFor(kit, settings, ar)
  {
    var amps := ChannelAmplitudes(ar);
    assert |amps| > 0 ==> ar.sampleRate.Some? && Dsp.CurveInputs(ar.sampleRate.value, settings.lowCutoff, settings.highCutoff, amps);
    // Without channels the design throws before it reads the sample rate.
    var curvesOr := Dsp.GenerateCorrectionCurve2(
      if |amps| > 0 then ar.sampleRate.value else 1.0,
      settings.lowCutoff, settings.highCutoff,
      kit.dbToGain(settings.maxBoostDb), kit.dbToGain(settings.maxCutDb), amps);
    if curvesOr.Err? {
      return Err(curvesOr.message);
    }
    var curves := curvesOr.value;
    var channels := CorrectionChannels(kit, curves, settings.filterLength);
    r := Ok(Measurement(true, Correction, "Correction Filter" + ar.name, ar.sampleRate,
      Some(seq(|curves|, k requires 0 <= k < |curves| => AmplitudeOnly(curves[k]))), channels));
  }

  /** `correctionCurves.map(c => fromImpulseResponse(generateFirFilter(c, filterLength)))` */
  method CorrectionChannels(kit: Numerics, curves: seq<seq<real>>, filterLength: nat) returns (channels: seq<MeasurementChannel>)
    requires filterLength % 2 == 0 && forall k :: 0 <= k < |curves| ==> filterLength / 2 <= |curves[k]|
    ensures |channels| == |curves|
    ensures forall k :: 0 <= k < |curves| ==> channels[k] == ImpulseChannel(kit, Dsp.FirFilter(kit, curves[k], filterLength), [])
  {
    channels := [];
    for k := 0 to |curves|
      invariant |channels| == k
      invariant forall j :: 0 <= j < k ==> channels[j] == ImpulseChannel(kit, Dsp.FirFilter(kit, curves[j], filterLength), [])
    {
      var fir := Dsp.GenerateFirFilter(kit, curves[k], filterLength, Dsp.Hann);
      var ch := FromImpulseResponse(kit, fir, []);
      channels := channels + [ch];
    }
  }
}
