# Room correction — a verified model of its core

This project models the core of the `room-correction` web application in Dafny. The application:

- plays test signals through the loudspeakers and records them back through a microphone;
- turns the recordings into frequency responses;
- averages and combines those responses;
- imports a microphone calibration file;
- derives FIR correction filters from the responses;
- plots the results.

The model covers seven source files. Each is modelled in the form it has in the source.

- **`Processor`** (`src/audio/worklet/MeasurementProcessor.ts`) models the audio-thread command scheduler.
  - It is a class with `playbacks`, `recordings` and `outbox` fields.
  - `HandleMessage` installs play, record and cancel commands.
  - `Process` runs one render block: it mixes every playback into the host's output arrays in place, copies the input into the recording buffers, advances every cursor, and retires the finished commands with one completion message each.
  - Lemmas state the properties of the message handler and of the schedule. These include exact cancellation, split-invariance of mixing and recording, and a playback finishing after exactly ⌈(L − cursor)/B⌉ blocks.
- **`Vector`** (`src/lib/vector.ts`) models `resize`, which pads or truncates an array, and `vectorAverage`, a column mean over arrays of different lengths.
- **`Dsp`** (`src/lib/dsp.ts`) models the spectrum helpers, the ragged product, convolution, the range mean, minimum and maximum, octave smoothing, the correction curve, and the FIR design.
  - The design first rotates the scaled inverse transform by half a filter length, then applies the taper.
- **`Audio`** (`src/audio/Audio.ts`) models the client side of the command protocol.
  - `BatchCommand` holds the batch's commands and the set of ids still pending. `Respond` models its response handler as a state machine.
  - It also models the click schedule of `measureDelay`, the batches built by `playClicks` and `playAndRecord`, and the greedy peak picker `findNPeaks`.
- **`State`** (`src/State.ts`) models the measurement list of `AppState`. The list only grows, and each entry carries a `selected` flag.
  - The list operations are averaging, correction-filter generation, convolution of the selection and calibration import.
  - It also models the spectrum constructors `fromFFT` and `fromImpulseResponse`, and `complexDivide`.
- **`DiagramMath`** (`src/components/diagram/DiagramMath.ts`) models the SVG path builder and the plot decimation.
  - The decimation sorts points into buckets, keeping each bucket's first minimum and first maximum and its mean. It then compacts the non-empty buckets in place.
- **`DiagramTypes`** (`src/components/diagram/DiagramTypes.ts`) models the plot `Grid` and its maps from data coordinates to the unit square. The maps are defined on `Axes`, a value holding the grid's ranges and modes. The loops of `transformPoints` and `samplesToPoints` run on a snapshot of the grid's current axes; neither changes the grid.

Some shared modules support these:

- `Wrappers` holds `Option` and `Result`. `Err` carries the message of the exception the source throws.
- `Numerics` holds the `Numerics` record of the numeric collaborators, the `Extended` reals (±∞), sums and `Ceil`.
  - The collaborators are the FFT module `./fft`, `Math.hypot`, the phase, the Hann taper, and the dB and log2 maps.
- `Seqs` holds an order-preserving `Filter`.

Modelling conventions:

- Samples are `real`.
- A read-only `Float32Array` is a `seq<real>`.
- A buffer the source fills in a loop is a local `array<real>`, returned as its contents.
- A buffer the source mutates in place is an `array<real>` named in `modifies`.
- The FFT module is not part of this model. Its functions are fields of `Numerics` whose types only promise to preserve length.

Where the design documentation and the code disagree, the model follows the code:

- Calibration import leaves the bins outside the listed frequencies at 1. The documentation says the first and last values are held.
- Calibration import stores the gains in dB, unconverted.
- Averaging uses every entry of type `measurement`, selected or not.
- The phase-correcting branch of `fromImpulseResponse` divides by `fftReal[i] + i·fftReal[i]`, because the real part is passed twice.
- The boost and cut limits of the correction curve are not applied.
- The window function argument is ignored: every mode applies the Hann taper.

## Model

| member | source | states |
|---|---|---|
| Processor.Destination | src/audio/worklet/MeasurementProcessor.ts:47-51 | a record command with a numeric size gets a zero-filled buffer of that size; a given buffer is kept |
| Processor.InstallConcat | src/audio/worklet/MeasurementProcessor.ts:39-59 | a batch is installed command by command in order: installing a + b is installing a and then b |
| Processor.InstallAppends | src/audio/worklet/MeasurementProcessor.ts:44-52 | 'play' appends the command as given to the playbacks; 'record' appends it with its destination buffer to the recordings |
| Processor.CancelRemovesExactly | src/audio/worklet/MeasurementProcessor.ts:53-56 | after 'cancel' a playback or recording is queued iff it was queued before and has a different id |
| Processor.CancelIdempotent | src/audio/worklet/MeasurementProcessor.ts:53-56 | cancelling the same id twice leaves the queues as cancelling it once |
| Processor.MixOne | src/audio/worklet/MeasurementProcessor.ts:73-79 | a channel whose source is undefined, or that the playback has no source for, is left untouched |
| Processor.MixChannelSplit | src/audio/worklet/MeasurementProcessor.ts:80-84 | mixing a source into two consecutive output blocks at cursors c and c + the first block's length equals mixing it into their concatenation at c |
| Processor.MixedSilentChannel | src/audio/worklet/MeasurementProcessor.ts:71-87 | an output channel that no playback has a source for keeps its contents |
| Processor.RecordSplit | src/audio/worklet/MeasurementProcessor.ts:96-104 | recording two input blocks one after the other equals recording their concatenation |
| Processor.RecordDelayed | src/audio/worklet/MeasurementProcessor.ts:96-104 | a recording started at cursor −k captures exactly the input stream from sample k on |
| Processor.AfterRecord | src/audio/worklet/MeasurementProcessor.ts:96-104 | one block moves a recording's cursor by the input length and keeps its id, channel and buffer length |
| Processor.RecordBlocks | src/audio/worklet/MeasurementProcessor.ts:95-105 | a sequence of blocks records their concatenation and advances the cursor by its total length |
| Processor.PlaybackResponses | src/audio/worklet/MeasurementProcessor.ts:88-92 | one completion message per retired playback, in order, with no payload |
| Processor.RecordingResponses | src/audio/worklet/MeasurementProcessor.ts:106-111 | one completion message per retired recording, in order, carrying its buffer |
| Processor.PlaybackRetiredOnce | src/audio/worklet/MeasurementProcessor.ts:86-92 | after a block every advanced playback is either kept or signalled, never both and never lost |
| Processor.SilentPlaybackRetiresAtOnce | src/audio/worklet/MeasurementProcessor.ts:88-92 | a playback whose sources are all undefined is signalled and removed after its first block |
| Processor.BlocksCover | src/audio/worklet/MeasurementProcessor.ts:86 | BlocksToCover(n, B) is ⌈n/B⌉: (k − 1)·B < n ≤ k·B |
| Processor.SingleBlock | src/audio/worklet/MeasurementProcessor.ts:86-92 | one block advances a playback by B; it stays queued iff the new cursor is inside its source, else it is signalled once |
| Processor.PlaybackRunning | src/audio/worklet/MeasurementProcessor.ts:86-92 | a playback of one source of length L at cursor c is still queued, at cursor c + kB, after k < ⌈(L − c)/B⌉ blocks, and nothing is signalled |
| Processor.PlaybackFinished | src/audio/worklet/MeasurementProcessor.ts:86-92 | after k ≥ ⌈(L − c)/B⌉ blocks the playback is gone and has been signalled exactly once |
| Processor.PlaybackLastBlock | src/audio/worklet/MeasurementProcessor.ts:86-92 | the completion message is sent after exactly ⌈(L − c)/B⌉ blocks |
| Processor.MeasurementProcessor.constructor | src/audio/worklet/MeasurementProcessor.ts:29-37 | both queues and the outbox start empty |
| Processor.MeasurementProcessor.HandleMessage | src/audio/worklet/MeasurementProcessor.ts:39-59 | the queues become the old queues with the message's commands installed in order; nothing is posted |
| Processor.MeasurementProcessor.SendDone | src/audio/worklet/MeasurementProcessor.ts:61-63 | appends one response with the id and payload to the outbox and changes nothing else |
| Processor.MeasurementProcessor.Process | src/audio/worklet/MeasurementProcessor.ts:65-117 | when there are outputs, each channel becomes its old contents plus the mix of every playback, and the playbacks are advanced and filtered; when there are inputs, the recordings are written, advanced and filtered; playback signals precede recording signals; the result is always true |
| Processor.MixChannelInto | src/audio/worklet/MeasurementProcessor.ts:80-84 | the output array becomes the windowed mix of the source at the cursor |
| Processor.MixPlayback | src/audio/worklet/MeasurementProcessor.ts:72-85 | every output channel becomes its mix with that channel's source |
| Processor.MixPlaybacks | src/audio/worklet/MeasurementProcessor.ts:71-87 | every output channel becomes the mix of all playbacks; each playback's cursor advances by the length of output channel 0 |
| Processor.RetirePlaybacks | src/audio/worklet/MeasurementProcessor.ts:88-92 | keeps exactly the active playbacks in order and signals exactly the finished ones |
| Processor.RecordBlock | src/audio/worklet/MeasurementProcessor.ts:97-103 | writes input[i] to dest[cursor + i] exactly where that index is inside the buffer |
| Processor.RecordAll | src/audio/worklet/MeasurementProcessor.ts:96-105 | every recording takes one block of its own input channel |
| Processor.RetireRecordings | src/audio/worklet/MeasurementProcessor.ts:106-111 | keeps exactly the recordings with cursor < length and signals the others with their buffers |
| Vector.Resized | src/lib/vector.ts:3-22 | exactly `size` elements: the input's prefix, then zeros |
| Vector.ResizedSameSize | src/lib/vector.ts:8-13 | resizing to the current size gives the same contents |
| Vector.ResizedRoundTrip | src/lib/vector.ts:14-22 | padding and then truncating back gives the input |
| Vector.Resize | src/lib/vector.ts:3-22 | returns the resized contents; at equal size under 'copy-if-necessary' it returns the input itself, otherwise a fresh array |
| Vector.CopyInto | src/lib/vector.ts:19-20 | copies the first n elements and leaves the rest of the target untouched |
| Vector.ColumnCountPositive | src/lib/vector.ts:27-35 | column i has a contributing input iff i is below the longest length |
| Vector.ColumnOfCopies | src/lib/vector.ts:29-34 | over k copies of one vector, column i has k entries summing to k·v[i] |
| Vector.VectorAverage | src/lib/vector.ts:25-38 | the result has the longest input's length, and entry i is the mean of d[i] over exactly the inputs longer than i |
| Vector.MaxLengthOfCopies | src/lib/vector.ts:26 | the longest of k copies of one vector is that vector's length |
| Vector.AverageOfCopies | src/lib/vector.ts:25-38 | averaging k copies of one vector gives that vector back |
| Dsp.CalcMagnitudes | src/lib/dsp.ts:5-11 | same length; entry k is hypot(re[k], im[k]) |
| Dsp.CalcPhase | src/lib/dsp.ts:13-19 | same length; entry k is the phase of (re[k], im[k]) |
| Dsp.Fft | src/lib/dsp.ts:21-30 | the four spectra all have the input's length |
| Dsp.InverseReal | src/lib/dsp.ts:32-37 | the inverse transform keeps the length |
| Dsp.ColumnProductBeyondAll | src/lib/dsp.ts:45-50 | where no input reaches index i, the product is 1 |
| Dsp.ColumnProductOfPair | src/lib/dsp.ts:46-50 | for two inputs that both reach i, the product is a[i]·b[i] |
| Dsp.VectorMultiply | src/lib/dsp.ts:39-52 | with no inputs it fails with the source's message; otherwise the length is the longest input's, and entry i is the product over the inputs longer than i |
| Dsp.MultiplyInto | src/lib/dsp.ts:48-49 | entry i of the accumulator is multiplied by v[i] for every i below |v|, and every other entry is unchanged |
| Dsp.ProductStep | src/lib/dsp.ts:47-50 | multiplying in one more input scales column j by that input's entry j when it has one, and by 1 otherwise |
| Dsp.Convolve | src/lib/dsp.ts:54-68 | the result is the convolution of both inputs padded to the longer length, divided by that length; its length is max(|a|, |b|) |
| Dsp.ConvolutionOfPadded | src/lib/dsp.ts:55-58 | padding the shorter input beforehand does not change the result |
| Dsp.Average | src/lib/dsp.ts:145-158 | the sum over [start, end) divided by end − start, defaulting to the whole array; an empty range gives NaN (None), a reversed one 0 |
| Dsp.Max | src/lib/dsp.ts:160-169 | −∞ iff the range is empty; otherwise an element of the range that bounds all of it from above |
| Dsp.Min | src/lib/dsp.ts:171-180 | +∞ iff the range is empty; otherwise an element of the range that bounds all of it from below |
| Dsp.SmoothWindow | src/lib/dsp.ts:82-85 | for m ≥ 1 the clamped window [max(0, ⌊i/m⌋), min(len, ⌊i·m⌋ + 1)) contains i and lies within the data |
| Dsp.SmoothedConstant | src/lib/dsp.ts:77-93 | smoothing a constant signal leaves it unchanged |
| Dsp.Smooth | src/lib/dsp.ts:77-93 | entry i is the mean of the data over its window |
| Dsp.PsychoacousticSmooth | src/lib/dsp.ts:95-104 | the result is the element-wise maximum of the input and its one-octave smoothing |
| Dsp.RaiseTo | src/lib/dsp.ts:97-102 | the loop raises every entry of the smoothed copy to at least the input at that index, in place |
| Dsp.MaxEach | src/lib/dsp.ts:98-101 | each entry is at least both inputs and equal to one of them, so never below the input nor below the smoothing |
| Dsp.PsychoSmoothedConstant | src/lib/dsp.ts:95-104 | a constant signal is left unchanged |
| Dsp.PositiveAfterSmoothing | src/lib/dsp.ts:95-104 | a positive amplitude stays positive after smoothing |
| Dsp.CorrectionFlattens | src/lib/dsp.ts:126-132 | inside the band the corrected amplitude curve·amp equals the target level; outside the band the curve is 1 |
| Dsp.FlatResponseNeedsNoCorrection | src/lib/dsp.ts:114-132 | for responses that are all the same positive constant the curve is 1 everywhere in the band |
| Dsp.SmoothedAllConstant | src/lib/dsp.ts:114 | smoothing every channel leaves channels that are flat at one level unchanged |
| Dsp.TargetLevelConstant | src/lib/dsp.ts:119-121 | channels flat at c over the band have target level c |
| Dsp.GenerateCorrectionCurve2 | src/lib/dsp.ts:106-143 | with no amplitudes it fails by reading `amps[0].length`; otherwise one curve per input, each of length amps[0].length, 1 outside [low, high) and the target over the smoothed amplitude inside, with no clamping |
| Dsp.SmoothAll | src/lib/dsp.ts:114 | every amplitude is psychoacoustically smoothed |
| Dsp.BandMeans | src/lib/dsp.ts:119-121 | per input, the band mean; NaN for an empty band |
| Dsp.TargetAverage | src/lib/dsp.ts:119-121 | the mean of the band means |
| Dsp.FillCorrections | src/lib/dsp.ts:124-134 | each curve has the first channel's length, is 1 outside the band and target / smoothed amplitude inside |
| Dsp.FillCorrection | src/lib/dsp.ts:126-132 | one curve of the given length, filled with 1 and then overwritten inside the band |
| Dsp.HalfRotation | src/lib/dsp.ts:189-193 | out[L/2 + i] = r[i] and out[i] = r[N − L/2 + i] for i < L/2 |
| Dsp.HalfRotationInvolution | src/lib/dsp.ts:189-193 | rotating a full-length buffer by half twice gives it back |
| Dsp.InverseScaled | src/lib/dsp.ts:183-187 | the real inverse transform divided by its length |
| Dsp.HalfRotate | src/lib/dsp.ts:189-193 | a fresh buffer holding the half rotation |
| Dsp.ApplyWindowInPlace | src/lib/dsp.ts:200-207 | the buffer is tapered in place by the Hann window, whatever the mode |
| Dsp.GenerateFirFilter | src/lib/dsp.ts:182-197 | exactly `length` taps: the tapered half rotation of the scaled inverse transform |
| Audio.Respond | src/audio/Audio.ts:41-49 | a response to a pending id records its result and removes the id; the batch resolves when none are left; other responses change nothing |
| Audio.BatchResolution | src/audio/Audio.ts:38-55 | after distinct responses the pending set has lost exactly their ids, every result is recorded, and the batch has resolved iff every pending id was answered |
| Audio.BatchCommand.constructor | src/audio/Audio.ts:7-11 | no commands and no pending ids |
| Audio.BatchCommand.AwaitCommand | src/audio/Audio.ts:12-16 | registers exactly one pending id |
| Audio.BatchCommand.Play | src/audio/Audio.ts:17-26 | appends one 'play' command with cursor −(delay ?? 0) and the sources, and registers its id |
| Audio.BatchCommand.Record | src/audio/Audio.ts:27-37 | appends one 'record' command with cursor −(delay ?? 0), the channel and a sample count, and registers its id |
| Audio.BatchCommand.Submit | src/audio/Audio.ts:38-55 | posts all commands as one array and starts listening |
| Audio.BatchCommand.OnMessage | src/audio/Audio.ts:41-50 | applies one response to the bookkeeping |
| Audio.ClickSchedule | src/audio/Audio.ts:95-107 | rounds·channels clicks: the k-th at k·clickDistance on channel k mod channels, with totalTime = count·clickDistance |
| Audio.ChannelOfClick | src/audio/Audio.ts:101-106 | click (round, channel) lands on that channel |
| Audio.ClickSources | src/audio/Audio.ts:114-115 | the click on its channel, undefined on all earlier channels |
| Audio.MeasureDelayBatch | src/audio/Audio.ts:94-120 | one play command per click, delayed by its time, then one recording of totalTime + max delay samples from channel 0 with no delay; every id is pending |
| Audio.PlayClicksBatch | src/audio/Audio.ts:137-146 | two stereo clicks, the second delayed by one second of samples |
| Audio.PlayCursor | src/audio/Audio.ts:154 | the play cursor −max(0, −delay) is never positive |
| Audio.RecordCursor | src/audio/Audio.ts:155 | the record cursor −max(0, delay) is never positive |
| Audio.PlayAndRecordAlignment | src/audio/Audio.ts:151-155 | the two cursors differ by exactly the delay, and one of them is 0 |
| Audio.LongestSource | src/audio/Audio.ts:149 | the length of the longest defined source, or 0 |
| Audio.PlayAndRecord | src/audio/Audio.ts:148-158 | posts a play and a recording as long as the longest source with cursors aligned by a whole-sample delay, and returns the recording's id |
| Audio.BestUnpickedUnique | src/audio/Audio.ts:195-203 | at most one index is the first strict maximum of the unpicked magnitudes |
| Audio.PickPeak | src/audio/Audio.ts:195-203 | the first index in scan order whose magnitude is above 0 and above every other unpicked one, or 0 when none qualifies |
| Audio.FindNPeaks | src/audio/Audio.ts:191-208 | exactly n indices, each the round's pick given the earlier ones |
| State.ComplexDivide | src/State.ts:297-303 | multiplied back by c + di the quotient gives a + bi |
| State.FromFft | src/State.ts:246-258 | a full channel that keeps the spectrum as given, with magnitudes, phases and impulse response of its length |
| State.CorrectionUndone | src/State.ts:266-285 | per bin, the corrected value times the divisor gives the input bin: the divisor is fftReal[i]·(1 + i) for a full channel and fftAmp[i] otherwise; bins beyond the correction are unchanged |
| State.FromImpulseResponse | src/State.ts:260-295 | the channel built from the spectrum after dividing by every correction in turn |
| State.DivideInPlace | src/State.ts:267-283 | both spectrum arrays become their division by one correction |
| State.Amplitudes | src/State.ts:121 | the fftAmp of channel i of every measurement |
| State.Averaged | src/State.ts:119-140 | a selected 'combined-measurement' named "Average" with the first sample rate, no reference channels and one channel per index |
| State.AverageIsTheSelection | src/State.ts:130-140 | after averaging, the new entry is the only selected one |
| State.AverageOfIdentical | src/State.ts:120-127 | averaging identical amplitudes gives them back as fftReal, with an all-zero fftImag |
| State.CheckAverageInputs | src/State.ts:112-117 | succeeds iff all sample rates and channel counts agree; otherwise it fails with the source's message |
| State.Convolved | src/State.ts:182-200 | with at least two selected entries: a selected 'combined-measurement' named "a x b" with one channel per channel of a |
| State.PairConvolution | src/State.ts:185-193 | fails exactly when some channel of a has no full counterpart in b (a missing channel or an amplitude-only one), with the TypeError; otherwise one channel per channel of a |
| State.ConvolveChannel | src/State.ts:187-192 | one loop step: the impulse-response channel of the convolution of the two impulse responses |
| State.ConvolveChannels | src/State.ts:185-193 | the loop yields exactly PairConvolution: the convolved channels, or the TypeError |
| State.AverageChannels | src/State.ts:118-128 | the loop yields exactly the channels of Averaged: channel i is the amplitude average of every entry's channel i |
| State.SelectionGrows | src/State.ts:195-200 | appending a selected entry adds it at the end of the selection and keeps the earlier ones selected |
| State.ChannelAmplitudes | src/State.ts:148-155 | the fftAmp of every channel |
| State.CorrectionFor | src/State.ts:143-177 | a selected 'correction' named "Correction Filter" + name, with the response's sample rate and one channel and one reference channel per response channel |
| State.CorrectionPairsWithSelection | src/State.ts:170-183 | with one entry selected, the appended correction makes the selection exactly that entry and the correction |
| State.CalibrationCurve | src/State.ts:216-230 | 48000 bins |
| State.CalibrationUntouched | src/State.ts:216-230 | a bin that no pair's range [⌈f_i⌉, ⌊f_{i+1}⌋) covers stays 1 |
| State.SegmentGainOnWholeFrequencies | src/State.ts:219-229 | at whole-number frequencies the fill agrees with straight-line interpolation |
| State.SegmentGainOvershoots | src/State.ts:220-228 | a fractional start frequency makes the fill leave the range of its two gains |
| State.InterpolatedGainBetween | src/State.ts:219-229 | straight-line interpolation stays between the two gains |
| State.KeepParsed | src/State.ts:206-214 | keeps exactly the lines whose frequency parses, whatever their gain |
| State.FillSegment | src/State.ts:226-229 | writes the bins of one pair with the source's gain formula |
| State.FillCalibration | src/State.ts:216-230 | the 48000-bin curve of the parsed pairs |
| State.AppState.constructor | src/State.ts:31-50 | no measurements and the default correction settings |
| State.AppState.AverageMeasurements | src/State.ts:108-141 | fails with the source's messages, changing nothing, when there is no 'measurement' entry or rates or channel counts differ; when there is one and they agree, succeeds, deselects every entry and appends the average; the correction settings are never touched |
| State.AppState.ConvolveSelection | src/State.ts:182-201 | appends the convolution of the first two selected entries, or fails and changes nothing; the correction settings are kept |
| State.AppState.GenerateCorrection | src/State.ts:143-180 | does nothing when nothing is selected; otherwise appends the correction for the first selected entry and then convolves the selection; the correction settings are kept |
| State.AppState.ParseCalibrationFile | src/State.ts:203-243 | appends one selected 'mic-calibration' at 48000 Hz with two identical channels holding the calibration curve; the correction settings are kept |
| State.BuildCorrection | src/State.ts:144-177 | fails iff the response has no channels; otherwise returns the correction measurement |
| State.CorrectionChannels | src/State.ts:161-168 | one channel per curve, built from its FIR filter |
| DiagramMath.PathOf | src/components/diagram/DiagramMath.ts:6-13 | one segment per point |
| DiagramMath.PathRoundTrip | src/components/diagram/DiagramMath.ts:6-13 | the first segment is the only MoveTo, and dividing the coordinates by width and height recovers the points |
| DiagramMath.PointsToPath | src/components/diagram/DiagramMath.ts:1-14 | fails iff the length is odd; otherwise returns the path |
| DiagramMath.BucketIndex | src/components/diagram/DiagramMath.ts:45-47 | a point with 0 ≤ x < 1 lands in a bucket below `points` |
| DiagramMath.Bucketed | src/components/diagram/DiagramMath.ts:29-59 | one bucket per point slot |
| DiagramMath.BucketTotals | src/components/diagram/DiagramMath.ts:30-58 | a bucket's count and sum are those of its members, and its x is bucket/points |
| DiagramMath.BucketExtremes | src/components/diagram/DiagramMath.ts:49-56 | a bucket keeps the first member with the smallest y and the first with the largest y, or ±∞ when empty |
| DiagramMath.MinimumAdded | src/components/diagram/DiagramMath.ts:49-52 | a new point replaces the minimum only when strictly smaller |
| DiagramMath.MaximumAdded | src/components/diagram/DiagramMath.ts:53-56 | a new point replaces the maximum only when strictly larger |
| DiagramMath.ExtremesSkipped | src/components/diagram/DiagramMath.ts:45-47 | a point outside the bucket changes neither extreme |
| DiagramMath.EmptyHasNoMembers | src/components/diagram/DiagramMath.ts:63-64 | an empty bucket has no members |
| DiagramMath.NonEmptyBuckets | src/components/diagram/DiagramMath.ts:62-79 | the survivors are exactly the non-empty buckets, in increasing order |
| DiagramMath.NonEmptySurvivors | src/components/diagram/DiagramMath.ts:63-64 | every surviving index is a bucket whose count is positive |
| DiagramMath.NonEmptyIncreasing | src/components/diagram/DiagramMath.ts:63-64 | the surviving indices are strictly increasing |
| DiagramMath.NonEmptyComplete | src/components/diagram/DiagramMath.ts:63-64 | every bucket with a positive count survives |
| DiagramMath.Compacted | src/components/diagram/DiagramMath.ts:62-79 | all three outputs have two entries per non-empty bucket |
| DiagramMath.CompactedEntries | src/components/diagram/DiagramMath.ts:64-71 | survivor k holds its bucket's minimum, maximum, x and mean y |
| DiagramMath.DecimatedEntry | src/components/diagram/DiagramMath.ts:16-80 | output entry k is the k-th non-empty bucket: its first minimum and first maximum are input points, and its average is (bucket/points, mean of its ys) |
| DiagramMath.NewBuckets | src/components/diagram/DiagramMath.ts:25-39 | the arrays hold the empty buckets |
| DiagramMath.AddPoint | src/components/diagram/DiagramMath.ts:49-58 | the arrays hold the old buckets with one point added to its bucket |
| DiagramMath.Accumulate | src/components/diagram/DiagramMath.ts:41-59 | the arrays hold the buckets of all pairs |
| DiagramMath.MoveBucket | src/components/diagram/DiagramMath.ts:65-70 | copies one bucket's slots down and divides its sum by its count |
| DiagramMath.Compact | src/components/diagram/DiagramMath.ts:62-73 | the first 2N slots become the compaction of the buckets |
| DiagramMath.DecimatePoints | src/components/diagram/DiagramMath.ts:16-80 | returns the decimation: empty for empty input |
| DiagramTypes.Grid.constructor | src/components/diagram/DiagramTypes.ts:6-14 | the default axis ranges and modes |
| DiagramTypes.Grid.ScaledBack | src/components/diagram/DiagramTypes.ts:16-31 | transformX times the axis span is the distance of x from minX (of log2(1 + x) from log2(minX) on a logarithmic axis); one minus the linear y map times the span is the distance of y from minY |
| DiagramTypes.Grid.LinearRoundTrip | src/components/diagram/DiagramTypes.ts:16-31 | on linear axes both maps are undone by the inverse maps |
| DiagramTypes.Grid.TransformXLinear | src/components/diagram/DiagramTypes.ts:16-21 | minX ↦ 0, maxX ↦ 1, and the map is monotone when maxX > minX |
| DiagramTypes.Grid.TransformYLinear | src/components/diagram/DiagramTypes.ts:22-31 | minY ↦ 1, maxY ↦ 0, and the map reverses order when maxY > minY |
| DiagramTypes.MapPoints | src/components/diagram/DiagramTypes.ts:33-40 | the loop, on the grid's current axes, yields exactly the mapped buffer |
| DiagramTypes.MapSamples | src/components/diagram/DiagramTypes.ts:41-50 | the loop, on the grid's current axes, yields exactly the sampled points |
| DiagramTypes.Axes.Mapped | src/components/diagram/DiagramTypes.ts:33-40 | the length is kept |
| DiagramTypes.Axes.Sampled | src/components/diagram/DiagramTypes.ts:41-50 | two values per sample |
| DiagramTypes.Grid.Transformed | src/components/diagram/DiagramTypes.ts:33-40 | the length is kept |
| DiagramTypes.Grid.TransformPoints | src/components/diagram/DiagramTypes.ts:33-40 | even slots go through transformX, odd slots through transformY |
| DiagramTypes.Grid.SamplePoints | src/components/diagram/DiagramTypes.ts:41-50 | two values per sample |
| DiagramTypes.Grid.DefaultRateIsIndex | src/components/diagram/DiagramTypes.ts:42-47 | without a sample rate, point i is (transformX(i), transformY(samples[i])) |
| DiagramTypes.Grid.SamplesToPoints | src/components/diagram/DiagramTypes.ts:41-50 | point i is (transformX(i·rate/n), transformY(samples[i])) |

## Left out

- The FFT module `./fft` (`transform`, `inverseTransform`, `convolveReal`) is not part of this model. It appears as opaque fields of `Numerics` that preserve length, and nothing is proved about transform round trips or convolution identities.
- The transcendental maths are opaque fields of `Numerics`. This covers `Math.hypot`, `atan`, `sin`, `pow`, `log10` and `log2`, and the dB maps `db` and `to_db`.
- IEEE semantics are not modelled: no NaN, no infinities from division by zero, no Float32 rounding.
  - Samples are unbounded reals.
  - NaN appears only as `None` from `Dsp.Average` and as the unparsed frequency.
  - ±∞ appear only as the empty-range `Dsp.Min`/`Dsp.Max` results and in the decimation buckets.
- Wavegen (click and sine-sweep synthesis) is not part of this model. Clicks are parameters.
- Device and Web Audio plumbing is left out: `start`, `stop`, `createAudioWorklet`, `connectChain`, `delay`, `saveWav`, `registerProcessor`, console logging, and the delay report of `measureDelay` (lines 122-131).
- `AppState.measure` and `download` are left out. They drive audio hardware and file export.
- `pingAndSweep` is left out. It needs the sine sweep, and builds batches in the same way as `playClicks`.
- Promise and message-port mechanics are left out. `submit` posts and listens; a response runs the handler once; the per-command promises are the recorded results.
  - A batch submitted with no commands never resolves. The model keeps it unresolved.
- The worker RPC (`src/lib/worker.ts`), `DiagramWorker.ts` and `main.ts` are left out.
- `Math.random` command ids are parameters.
- Calibration text parsing (`split` and `parseFloat`) is left out. The input is the parsed lines, with `None` for a frequency that does not parse. A NaN gain is not modelled.
- Aliasing is not modelled:
  - Recording buffers are values. Two recordings sharing one buffer, and a caller holding the buffer, are not modelled.
  - The two channels of a calibration measurement are one shared object in the source, and two equal values here.
- Vector.Resize: shrinking returns a fresh copy, where the source returns a view that shares storage with the input.
- Processor.MeasurementProcessor.Process: requires the output channels to be distinct arrays and every recording's input channel to exist. A missing input channel is a TypeError in the source.
- Dsp.Max, Dsp.Min: require an in-bounds range, because out-of-range reads are `undefined` in the source.
- Dsp.GenerateCorrectionCurve2: requires whole-number cutoff bins, a band that every channel covers, and positive amplitudes. Channels may differ in length. Fractional cutoffs make the source index with fractions, which writes nothing and reads `undefined`. A channel shorter than the band also reads `undefined`, which gives NaN.
- Dsp.GenerateFirFilter: requires an even length with length/2 ≤ |amplitudes|. Other lengths read `undefined`.
- Audio.PlayAndRecord: an empty `samples` list records 0 samples, where `_.max([])` gives `undefined` in the source.
- Audio.PlayAndRecord: delaySeconds · sampleRate is taken as a whole sample count `delaySamples`. A fractional product gives fractional cursors in the source, which read `undefined` (NaN) in the mix and drop every recorded write. The only caller's 0.3 s delay is whole at 44100 and 48000 Hz.
- Sample rates, cursors and delays are whole numbers throughout (`Audio.PlayClicksBatch` takes a `nat` sample rate). The source's numbers are floats, and a fractional rate or cursor indexes typed arrays with fractions.
- Audio.MeasureDelayBatch: click distance and maximum delay are whole sample counts.
- State.FromImpulseResponse: the division of `freq.magnitude` (line 271) is not modelled, because `fromFFT` recomputes the magnitude from the divided spectrum and the divided values are never read. The model requires every divisor to be non-zero.
- State.AppState.GenerateCorrection: requires the first selected entry to meet `CorrectionInputs`. It needs a sample rate, whole-number cutoff bins, positive amplitudes, channels that all cover the band, and a filter length the FIR design can fill.
- State.AppState.ConvolveSelection: every TypeError of the source (fewer than two selected entries, a channel b lacks, a channel with no impulse response) is one error message.
- State.FillCalibration: the source's writes outside the 48000 bins are ignored, as Float32Array writes out of range are.
- DiagramMath.DecimatePoints: requires an even-length input and a whole number of points. With an odd length the source reads `undefined` for the last y.
- DiagramMath.PointsToPath: the segments are kept as data. The space-joined string and the number formatting are not modelled.
- DiagramTypes.Grid: `Valid` requires non-zero axis spans (and non-zero log2 spans on a logarithmic x axis). A zero span divides by zero in the source.

## Findings

| source | as written | input that shows it | evidently intended | confidence | as-written member | corrected member |
|---|---|---|---|---|---|---|
| src/State.ts:220-228 | The fill starts at ⌈f_i⌉ with gain g_i + (f_i − ⌈f_i⌉)·step, and step = (g_{i+1} − g_i)/(⌊f_{i+1}⌋ − ⌈f_i⌉). The offset has the wrong sign, and the step is over the whole-bin span rather than the frequency span, so a fractional frequency makes the curve leave the range of its two gains. | f = (0.5, 3), g = (0, 2.5): bin 1 gets −0.625, below both gains, where the straight line gives 0.5 | straight-line interpolation g_i + (j − f_i)·(g_{i+1} − g_i)/(f_{i+1} − f_i) | not executed; high | State.SegmentGainOvershoots | State.InterpolatedGainBetween |

`State.SegmentGain` models the fill as written, and `State.AppState.ParseCalibrationFile` uses it. `State.SegmentGainOnWholeFrequencies` proves that it agrees with `State.InterpolatedGain` whenever both frequencies are whole numbers, which is the common case in calibration files.
