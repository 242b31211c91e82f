# SoundVis analysis core in Dafny

SoundVis turns live audio into a tempo, a beat phase and a set of tracked
"voices" (persistent frequency regions), which drive a visualisation. This
project models its analysis core and proves properties of the model:

- **The macOS app** (`SoundVis/Audio`):
  - the spectral transform (`FFTProcessor`);
  - the beat tracker, which uses spectral-flux onsets, an autocorrelation tempo search, a median filter over estimates and a wall-clock beat phase (`BeatTracker`);
  - the calibrated voice tracker, which collects spectra, finds peaks, selects voice regions greedily, and then matches voices frame by frame (`VoiceTracker`);
  - the coordinator that feeds every block through the three and publishes their values (`AudioAnalyzer`).
- **The command-line tool** (`main.swift`): its own transform, beat tracker and voice tracker, which differ from the app's in several details. The differences are stated as lemmas.
- **The web client**:
  - the noise gate and normalisation of `AudioEngine.processSpectrum`;
  - the noise-floor averaging;
  - the band energies and the continuous voice tracker of `FeatureExtractor`;
  - the `lerp` smoothing of the vibe store.

There is one Dafny module per source unit:

| Module | Source unit |
|---|---|
| `FFT` | The app's transform |
| `Beat` | The app's beat tracker |
| `Voices` | The app's `Voice` record and its hue |
| `VoicePeaks`, `VoiceRegions`, `VoiceTracking` | The app's voice tracker: peaks, region selection, the tracker itself |
| `Analyzer` | The app's coordinator |
| `CliFFT`, `CliBeat`, `CliVoices` | The tool's transform, beat tracker and voice tracker |
| `AudioEngine` | The web audio engine |
| `FeatureBands`, `FeatureVoices`, `Features` | The web feature extractor: bands, voices, the extractor class |
| `Vibe` | The vibe store |
| `Numeric` | Shared conversions, sums, sorts and filters |

How the source is represented:

- **Numbers:**
  - Magnitudes and times are `real`.
  - Swift's `Int(x)` is truncation toward zero (`Numeric.Trunc`), and `truncatingRemainder(dividingBy: 1)` is `Numeric.FracTowardZero`.
  - JavaScript's `Math.round` is `Numeric.RoundHalfUp`.
- **Library operations:** the library sorts are a stable insertion sort (`Numeric.SortBy`), and `filter`/`removeAll` are `Numeric.Filter`.
- **Foreign and environmental inputs:**
  - The Fourier transform is a function parameter `dft`, constrained by `FFT.IsTransform`.
  - The square root is a parameter `root`, constrained by `Numeric.IsSqrt`.
  - The Hann window coefficients are a constructor argument.
  - The wall clock `Date()` is a parameter `now`.
  - `UUID()` is a counter `nextVoiceId`.
- **State:** classes hold the state that the sources update in place.
  - Swift arrays are values, so they become `seq` fields.
  - The persistent `Float32Array`s of the web client and the app transform's buffers become `array`s.

Three behaviours of the code that its declared constants and comments do not make obvious:

- `minBPM = 60` and `maxBPM = 180` (SoundVis/Audio/BeatTracker.swift:16-17) bound the app's lag search (lines 74-75). `lagForBPM` truncates the shortest lag to 15 frames, so the fastest estimate is 187.5 BPM, above `maxBPM` (`Beat.EstimateRangeExceedsBpmBounds`).
- On a wrap the app moves the anchor to `now - beatPhase * beatInterval` (SoundVis/Audio/BeatTracker.swift:162). That is the start of the current beat, a whole number of beats after the old anchor, and more than one beat when a frame arrives late (`Beat.WrapIsContinuous`). The tool sets the anchor to `now` instead (SoundVisCLI/Sources/SoundVisCLI/main.swift:124), dropping the fraction (`CliBeat.ResetDropsFraction`).
- Both trackers search for a tempo only when the history holds more than 256 onsets (`> 256`, SoundVis/Audio/BeatTracker.swift:42 and SoundVisCLI/Sources/SoundVisCLI/main.swift:73); exactly 256 onsets are not enough.

## Model

| member | source | states |
|---|---|---|
| Numeric.Trunc | SoundVis/Audio/FFTProcessor.swift:72 | `Int(x)` is the integer toward zero: `n <= x < n+1` for `x >= 0` and `n-1 < x <= n` below 0 |
| Numeric.FracTowardZero | SoundVis/Audio/BeatTracker.swift:158 | `truncatingRemainder(dividingBy: 1)` lies in [0,1) for non-negative input and in (-1,0] for negative input; `x` minus it is whole |
| Numeric.RoundHalfUp | src/lib/audio/FeatureExtractor.js:142 | `Math.round(x)` is within half a unit of `x`: `x - 0.5 < n <= x + 0.5` |
| Numeric.Clamp | src/lib/audio/AudioEngine.js:149 | `max(lo, min(hi, x))` lies in [lo,hi], is `x` inside it, and is the nearer bound outside it |
| Numeric.LerpEndpoints | src/lib/stores/vibe.js:17-19 | `lerp(c,t,0) = c` and `lerp(c,t,1) = t` |
| Numeric.LerpBetween | src/lib/stores/vibe.js:17-19 | for a factor in [0,1], `lerp(c,t,f)` lies between `c` and `t` |
| Numeric.LerpDistance | src/lib/stores/vibe.js:17-19 | `abs(lerp(c,t,f) - t) = (1 - f) * abs(c - t)` for a factor in [0,1] |
| Numeric.MaxOrZero | SoundVis/Audio/VoiceTracker.swift:133-137 | the running maximum that starts at 0 is never negative |
| Numeric.MaxOrZeroBounds | SoundVis/Audio/VoiceTracker.swift:132-140 | the running maximum that starts at 0 bounds every element, and when positive it is one of them |
| Numeric.PushBounded | SoundVis/Audio/BeatTracker.swift:33-36 | append-then-`removeFirst` on overflow: the new entry is last, the length is `min(n+1, cap)`, and the result is the newest suffix of `s + [x]` |
| Numeric.PushBoundedMembers | SoundVis/Audio/VoiceTracker.swift:37-49 | every entry of an updated rolling buffer was already in it or is the new one |
| Numeric.ColumnMean | src/lib/audio/AudioEngine.js:93-98 | the averaged spectrum has one entry per bin |
| Numeric.ColumnSumBounds | src/lib/audio/AudioEngine.js:93-98 | a bin's sum over the captured spectra lies between their count times the bin's lower and upper bounds |
| Numeric.ColumnMeanBounds | src/lib/audio/AudioEngine.js:93-98 | the per-bin mean of the captured spectra lies within the bounds of that bin's values |
| Numeric.MeanBetween | src/lib/audio/FeatureExtractor.js:86 | a total between `count` times two bounds gives a mean between those bounds |
| Numeric.SortByPermutes | SoundVis/Audio/BeatTracker.swift:96 | the library sort returns a permutation of its input (same multiset, same length) |
| Numeric.SortBySorted | SoundVis/Audio/BeatTracker.swift:96 | the sort's result is in ascending key order |
| Numeric.SortByDistinct | SoundVis/Audio/VoiceTracker.swift:154 | sorting keeps a duplicate-free list duplicate-free |
| Numeric.SortByMembers | SoundVis/Audio/VoiceTracker.swift:154 | sorting neither adds nor loses an element |
| Numeric.InsertByPermutes | SoundVis/Audio/BeatTracker.swift:96 | one insertion step adds exactly the inserted element |
| Numeric.InsertBySorted | SoundVis/Audio/BeatTracker.swift:96 | inserting into a sorted list keeps it sorted |
| Numeric.InsertByDistinct | SoundVis/Audio/VoiceTracker.swift:154 | inserting a new element into a duplicate-free list keeps it duplicate-free |
| Numeric.FilterMembers | SoundVis/Audio/VoiceTracker.swift:237-239 | `filter`/`removeAll` keeps exactly the present elements that satisfy the predicate, and never lengthens the list |
| Numeric.FilterKeepsOrder | SoundVis/Audio/VoiceTracker.swift:237-239 | survivors keep their relative order: any relation between earlier and later elements still holds |
| Vibe.UpdateVibeSmoothContracts | src/lib/stores/vibe.js:21-27 | each field is `lerp` with factor 0.12, and its distance to the target shrinks to 0.88 of what it was |
| Vibe.UpdateVibeSmoothFixedPoint | src/lib/stores/vibe.js:21-27 | a smoothed state equal to its target stays unchanged |
| Vibe.SmoothedFieldwise | src/lib/stores/vibe.js:21-27 | over `n` frames the three fields are smoothed independently of each other |
| Vibe.IteratedConverges | src/lib/stores/vibe.js:15-27 | after `n` frames toward a fixed target, a field's distance is `0.88^n` times its starting distance |
| Vibe.SmoothedConverges | src/lib/stores/vibe.js:15-27 | after `n` frames, each field of the smoothed state is at `0.88^n` of its starting distance |
| FFT.BinFrequencyRoundTrip | SoundVis/Audio/FFTProcessor.swift:67-73 | in exact arithmetic, `binForFrequency(frequencyForBin(b))` is `b` |
| FFT.BinForFrequencyIsFloor | SoundVis/Audio/FFTProcessor.swift:71-73 | for a non-negative frequency, truncation picks the highest bin whose centre is not above it |
| FFT.FrequencyForBinMonotone | SoundVis/Audio/FFTProcessor.swift:67-69 | the frequency of a bin grows with the bin |
| FFT.Staged | SoundVis/Audio/FFTProcessor.swift:33-38 | the staging buffer keeps its length 2048 |
| FFT.Windowed | SoundVis/Audio/FFTProcessor.swift:41-42 | the windowed input has the input's length |
| FFT.Zeros | SoundVis/Audio/FFTProcessor.swift:17-21 | a buffer of `n` zeros |
| FFT.MagnitudeNonNegative | SoundVis/Audio/FFTProcessor.swift:57 | every magnitude `sqrt(re^2 + im^2) / 2048` is non-negative |
| FFT.FFTProcessor.constructor | SoundVis/Audio/FFTProcessor.swift:14-25 | the buffers start as zeros (2048 input slots and 1024 magnitudes), and the window is the platform's Hann window |
| FFT.FFTProcessor.Process | SoundVis/Audio/FFTProcessor.swift:31-61 | the input buffer becomes `Staged(old buffer, samples)`; the transform receives the windowed buffer and zero imaginary parts; the result is the 1024 magnitudes, all non-negative |
| FFT.FFTProcessor.StageInput | SoundVis/Audio/FFTProcessor.swift:33-38 | the last `min(n, 2048)` samples go in order into the buffer's tail, and earlier slots keep their previous values |
| FFT.FFTProcessor.PrepareTransform | SoundVis/Audio/FFTProcessor.swift:41-48 | before the transform, the real part is the windowed input and the imaginary part is all zeros |
| FFT.FFTProcessor.ComputeMagnitudes | SoundVis/Audio/FFTProcessor.swift:54-58 | each of the first 1024 bins gets the scaled magnitude of its transform value, which is non-negative |
| FFT.FFTProcessor.BinCountOf | SoundVis/Audio/FFTProcessor.swift:63-65 | `binCount` is half the transform size |
| AudioEngine.NormalizeDbRange | src/lib/audio/AudioEngine.js:148-150 | the normalised value lies in [0,1]; it is 1 at and above -10 dB and 0 at and below -90 dB |
| AudioEngine.NormalizeDbMonotone | src/lib/audio/AudioEngine.js:148-150 | louder input never gives a smaller normalised value |
| AudioEngine.GatedBinIsSilent | src/lib/audio/AudioEngine.js:144-150 | a bin below its floor level plus 10 dB comes out as exactly 0 |
| AudioEngine.AudioEngine.constructor | src/lib/audio/AudioEngine.js:19-21 | there is no noise floor before calibration |
| AudioEngine.AudioEngine.ProcessSpectrum | src/lib/audio/AudioEngine.js:134-154 | the output has the input's length; each entry is the gated, clamped and normalised value, in [0,1]; a bin below its floor plus 10 dB is 0 |
| AudioEngine.AudioEngine.CalibrateNoiseFloor | src/lib/audio/AudioEngine.js:92-100 | `noiseFloorMagnitudes[bin]` is the mean of the captured spectra at that bin, and the threshold is -60 |
| Beat.FluxUpTo | SoundVis/Audio/BeatTracker.swift:57-64 | the summed positive change over the first `n` bins is non-negative |
| Beat.FluxPositiveIffRise | SoundVis/Audio/BeatTracker.swift:57-64 | the flux is positive exactly when some bin rose |
| Beat.OnsetProperties | SoundVis/Audio/BeatTracker.swift:50-67 | the onset is at least 0; it is 0 without a previous spectrum and 0 for a repeated spectrum; it is positive exactly when some bin rose |
| Beat.SquaredDeviation | SoundVis/Audio/BeatTracker.swift:115-118 | the variance sum is non-negative |
| Beat.Standardized | SoundVis/Audio/BeatTracker.swift:123 | the z-score map keeps the length |
| Beat.NormalizeOnsets | SoundVis/Audio/BeatTracker.swift:111-124 | normalisation keeps the length, and it returns an empty or nearly constant (std < 0.0001) history unchanged |
| Beat.SumStandardized | SoundVis/Audio/BeatTracker.swift:123 | the sum of the shifted and scaled entries times the scale is the sum less `n` times the shift |
| Beat.SquaredDeviationStandardized | SoundVis/Audio/BeatTracker.swift:115-123 | the sum of squares of the standardised history, times `d^2`, is the history's sum of squared deviations |
| Beat.MeanTimesCount | SoundVis/Audio/BeatTracker.swift:114 | `count * mean = sum` |
| Beat.NormalizedHasZeroMean | SoundVis/Audio/BeatTracker.swift:111-124 | when normalisation applies, the result sums to 0 |
| Beat.StandardizedHasZeroSum | SoundVis/Audio/BeatTracker.swift:114-123 | deviations from the mean sum to 0, whatever the divisor |
| Beat.NormalizedHasUnitPower | SoundVis/Audio/BeatTracker.swift:111-124 | when normalisation applies, the sum of squares of the result equals its length (unit variance) |
| Beat.LagSumAtZeroNonNegative | SoundVis/Audio/BeatTracker.swift:129-133 | at lag 0 the lagged product sum is a sum of squares, so it is non-negative |
| Beat.AutocorrAtZeroNonNegative | SoundVis/Audio/BeatTracker.swift:126-135 | at lag 0 the autocorrelation is the mean power, which is non-negative |
| Beat.LagRange | SoundVis/Audio/BeatTracker.swift:137-142 | there are 46.875 frames per second; `lagForBPM(180)` is 15 and `lagForBPM(60)` is 46 |
| Beat.EstimateRangeExceedsBpmBounds | SoundVis/Audio/BeatTracker.swift:74-86 | the fastest estimate, at lag 15, is 187.5 BPM, above the 180 BPM bound; the slowest is above 60 |
| Beat.BpmForLagAntitone | SoundVis/Audio/BeatTracker.swift:144-148 | longer lags give slower tempi |
| Beat.ExtremeEstimates | SoundVis/Audio/BeatTracker.swift:74-86 | lags 46 and 15 give the slowest estimate (about 61.14 BPM) and the fastest (187.5 BPM) |
| Beat.EstimateInRange | SoundVis/Audio/BeatTracker.swift:74-86 | every lag in 15..46 gives a positive estimate in [61.14, 187.5] |
| Beat.BeatIntervalPositive | SoundVis/Audio/BeatTracker.swift:106 | `60 / bpm` is positive for every in-range tempo |
| Beat.LagBpmRoundTrip | SoundVis/Audio/BeatTracker.swift:137-148 | in exact arithmetic, a positive lag survives the round trip through its tempo |
| Beat.ScanProperties | SoundVis/Audio/BeatTracker.swift:78-86 | the lag scan keeps the first lag of greatest correlation above the running best |
| Beat.BestLagProperties | SoundVis/Audio/BeatTracker.swift:74-86 | the search returns (0, 0) when no lag correlates positively; otherwise it returns the first lag in range whose correlation is greatest and positive |
| Beat.Median | SoundVis/Audio/BeatTracker.swift:96-97 | `sorted[count/2]` is an element of the buffer |
| Beat.MedianSplits | SoundVis/Audio/BeatTracker.swift:96-97 | the median splits the buffer: `count/2` entries at or below it and the rest at or above it, as a permutation of the buffer |
| Beat.SmoothedBpmStep | SoundVis/Audio/BeatTracker.swift:100-104 | the first update takes the median; later ones close exactly a tenth of the gap, `abs(new - old) = 0.1 * abs(median - old)`, and stay between old and median |
| Beat.SmoothedInEstimateRange | SoundVis/Audio/BeatTracker.swift:100-104 | blending tempi of the estimate range stays in that range |
| Beat.PushedEstimatesInRange | SoundVis/Audio/BeatTracker.swift:90-97 | pushing an in-range estimate keeps every buffered estimate, and hence the median, in range |
| Beat.PhaseBounds | SoundVis/Audio/BeatTracker.swift:154-166 | with time moving forward, the phase lies in [0,1) and the time to the next beat in (0, interval] |
| Beat.WrapIsContinuous | SoundVis/Audio/BeatTracker.swift:161-164 | on a wrap the new anchor gives the same phase at that instant; it advances the anchor by a whole, non-zero number of beats; it never passes `now` |
| Beat.WholeBeats | SoundVis/Audio/BeatTracker.swift:157-162 | elapsed time less the fraction of the current beat is a whole number of beats |
| Beat.PhaseOfPhase | SoundVis/Audio/BeatTracker.swift:157-163 | a phase measured back in time and converted again is unchanged |
| Beat.TempoIntervalPositive | SoundVis/Audio/BeatTracker.swift:106 | in every valid tempo state the beat interval is positive: 0.5 s before the first estimate (line 23), `60/bpm` for an in-range tempo afterwards |
| Beat.TempoAfter | SoundVis/Audio/BeatTracker.swift:69-109 | a tempo search keeps the tempo state valid, and it either leaves the state unchanged or records a positive confidence and an in-range newest estimate |
| Beat.Recorded | SoundVis/Audio/BeatTracker.swift:89-108 | recording an in-range estimate keeps the state valid, makes it the newest entry of the buffer, makes the tempo non-zero and sets the confidence to the correlation |
| Beat.BeatTracker.constructor | SoundVis/Audio/BeatTracker.swift:5-29 | the tempo is 0, the buffers are empty, the interval is 0.5 s and the anchor is `now` |
| Beat.BeatTracker.Process | SoundVis/Audio/BeatTracker.swift:31-48 | the whole new state. The frame's onset is pushed into a history of at most 512; `previousSpectrum` is the input; the frame is counted. On every eighth frame with more than 256 onsets the tempo state becomes `TempoAfter` of the normalised history, otherwise it is unchanged. The phase, time to next beat, anchor and accumulator are `PhaseAfter` of the old anchor and the new interval. With time moving forward the phase lies in [0,1) and the time to next beat in (0, interval] |
| Beat.BeatTracker.Advance | SoundVis/Audio/BeatTracker.swift:32-44 | the onset push, the remembered spectrum, the frame count and the gated tempo update of one frame, with the phase fields untouched |
| Beat.BeatTracker.EstimateTempoWhenDue | SoundVis/Audio/BeatTracker.swift:42-44 | the tempo search runs exactly on every eighth frame whose history holds more than 256 onsets; otherwise the tempo state is unchanged |
| Beat.BeatTracker.RecordOnset | SoundVis/Audio/BeatTracker.swift:32-39 | the onset history gets the new onset, the spectrum is remembered, the frame is counted, and the tempo state is untouched |
| Beat.BeatTracker.ComputeOnset | SoundVis/Audio/BeatTracker.swift:50-67 | the flux loop computes the onset function |
| Beat.BeatTracker.EstimateTempo | SoundVis/Audio/BeatTracker.swift:69-109 | the new tempo state is `TempoAfter` of the normalised history: without a positively correlated lag nothing changes; otherwise the lag's tempo is pushed into the 16 estimates, the tempo is blended toward their median, the interval is `60/bpm`, and the confidence is the winning correlation (> 0) |
| Beat.BeatTracker.RecordEstimate | SoundVis/Audio/BeatTracker.swift:89-108 | the new tempo state is `Recorded`: buffer push, median blend, interval and confidence of an accepted estimate, keeping the tracker's invariant |
| Beat.BeatTracker.UpdatePhase | SoundVis/Audio/BeatTracker.swift:150-167 | the phase fields are `PhaseAfter` of the old anchor: the phase is the fractional beat since the anchor; on a wrap the anchor moves to `now - phase * interval` and the accumulator becomes the phase; with time moving forward the phase lies in [0,1) and the time to next beat in (0, interval] |
| Beat.PhaseAfter | SoundVis/Audio/BeatTracker.swift:150-167 | with time moving forward the phase of the update lies in [0,1), the time to next beat in (0, interval], and the new anchor is not after `now` |
| Beat.BeatTracker.PredictBeatTimes | SoundVis/Audio/BeatTracker.swift:174-181 | returns `count` times: the first is `timeToNextBeat` from now, and the rest are spaced exactly one interval apart |
| Beat.SearchLags | SoundVis/Audio/BeatTracker.swift:78-86 | the lag loop computes `BestLag` |
| Beat.Autocorrelation | SoundVis/Audio/BeatTracker.swift:126-135 | the accumulating loop computes the mean lagged product, and 0 when the lag is not shorter than the signal |
| Voices.HueRange | SoundVis/Audio/AudioAnalyzer.swift:14-19 | the hue lies in [0,1] and is exactly `0.6 - 0.5 * (centroid - 100) / 4000` between its clamping points |
| Voices.HueNonIncreasing | SoundVis/Audio/AudioAnalyzer.swift:14-19 | a higher centroid never gets a larger hue |
| VoicePeaks.BandwidthFromCharacterised | SoundVis/Audio/VoiceTracker.swift:170-177 | the scan from an offset stops at the first offset where both sides are below half the peak, or at 19 |
| VoicePeaks.BandwidthCharacterised | SoundVis/Audio/VoiceTracker.swift:170-177 | the bandwidth lies in [0,19]; no offset up to it is narrowed, and the next one is narrowed unless the limit was reached |
| VoicePeaks.PeaksBelowProperties | SoundVis/Audio/VoiceTracker.swift:157-189 | the scan up to `n` reports exactly the local maxima, in ascending bin order |
| VoicePeaks.PeaksProperties | SoundVis/Audio/VoiceTracker.swift:157-189 | every peak has `2 <= bin < count - 2` and magnitude above 0.02, strictly above the bins at ±1 and ±2; its bandwidth is in [0,19]; the peaks are in ascending bin order; no local maximum is missed |
| VoicePeaks.ComputeBandwidth | SoundVis/Audio/VoiceTracker.swift:170-177 | the loop with its early `break` computes the bandwidth |
| VoicePeaks.FindPeaks | SoundVis/Audio/VoiceTracker.swift:157-189 | the scan appends exactly the peaks of the spectrum |
| VoicePeaks.Candidates | SoundVis/Audio/VoiceTracker.swift:101-108 | at most 8 candidates are offered |
| VoicePeaks.CandidatesProperties | SoundVis/Audio/VoiceTracker.swift:101-108 | the candidates are peaks above 0.05, strongest first, and any such peak left out is no stronger than all 8 chosen |
| VoiceRegions.WindowMembers | SoundVis/Audio/VoiceTracker.swift:127-129 | the claimed window set is exactly the bins `lo...hi` |
| VoiceRegions.NormalizedShape | SoundVis/Audio/VoiceTracker.swift:132-140 | the template has the window's length |
| VoiceRegions.NormalizedShapeRange | SoundVis/Audio/VoiceTracker.swift:132-140 | over non-negative values the template lies in [0,1] and reaches exactly 1 when the maximum is positive |
| VoiceRegions.MaxOrZeroAppend | SoundVis/Audio/VoiceTracker.swift:134-136 | the running maximum takes one more value |
| VoiceRegions.RegionForProperties | SoundVis/Audio/VoiceTracker.swift:113-144 | a region's window is `[bin - bw - 2, bin + bw + 2]` clamped to the spectrum and contains its peak; its shape has `highBin - lowBin + 1` entries; with a non-negative rate, `lowFreq <= centroid <= highFreq` |
| VoiceRegions.RegionForIs | SoundVis/Audio/VoiceTracker.swift:113-144 | the region assembled by the loop is the one `RegionFor` describes |
| VoiceRegions.SelectStep | SoundVis/Audio/VoiceTracker.swift:110-129 | one step skips a candidate whose bin or window touches a claimed bin, and otherwise claims the window and accepts the region |
| VoiceRegions.FreshWindow | SoundVis/Audio/VoiceTracker.swift:117-129 | a window with no claimed bin is disjoint from every accepted window |
| VoiceRegions.SelectProperties | SoundVis/Audio/VoiceTracker.swift:108-146 | the greedy selection keeps its accepted regions well-formed and pairwise disjoint, each built from a candidate |
| VoiceRegions.ForwardMembers | SoundVis/Audio/VoiceTracker.swift:108-146 | every region the selection accepts comes from one of its candidates |
| VoiceRegions.CandidatesInSpectrum | SoundVis/Audio/VoiceTracker.swift:101-108 | every candidate lies at a bin with `2 <= bin < count - 2` |
| VoiceRegions.VoiceRegionsProperties | SoundVis/Audio/VoiceTracker.swift:99-155 | at most 8 regions; their windows are pairwise disjoint; each is built around one of the 8 strongest peaks above 0.05; each is well-formed; they are sorted by centroid |
| VoiceRegions.VoiceRegionsProvenance | SoundVis/Audio/VoiceTracker.swift:99-155 | every region is built around some bin of the spectrum |
| VoiceRegions.VoiceRegionsFrequencies | SoundVis/Audio/VoiceTracker.swift:142-144 | with a non-negative rate, every region has `lowFreq <= centroid <= highFreq` |
| VoiceRegions.VoiceRegionsShapes | SoundVis/Audio/VoiceTracker.swift:132-140 | over a non-negative spectrum, every template lies in [0,1] |
| VoiceRegions.RegionShapeRange | SoundVis/Audio/VoiceTracker.swift:132-140 | one region's template lies in [0,1] over a non-negative spectrum |
| VoiceRegions.HasClaimedBin | SoundVis/Audio/VoiceTracker.swift:117-124 | the overlap scan reports exactly whether a window bin is claimed |
| VoiceRegions.ClaimBins | SoundVis/Audio/VoiceTracker.swift:127-129 | the claimed set grows by exactly the window |
| VoiceRegions.ExtractShape | SoundVis/Audio/VoiceTracker.swift:132-140 | the copy-and-divide loop yields the normalised template of the window |
| VoiceRegions.IdentifyVoiceRegions | SoundVis/Audio/VoiceTracker.swift:99-155 | the loop over the candidates, with its set of claimed bins, computes the regions described above |
| VoiceTracking.NameForFrequencyOrdered | SoundVis/Audio/VoiceTracker.swift:270-282 | every name is one of the eight; for non-negative frequencies, a higher frequency never gets a lower-ranked name |
| VoiceTracking.DotSelfNonNegative | SoundVis/Audio/VoiceTracker.swift:247-252 | a vector's dot product with itself is non-negative |
| VoiceTracking.CorrelationDegenerate | SoundVis/Audio/VoiceTracker.swift:242-258 | an empty input, or one whose common prefix has zero norm, correlates to 0 |
| VoiceTracking.Correlate | SoundVis/Audio/VoiceTracker.swift:242-258 | the accumulating loop computes the cosine similarity of the common prefix |
| VoiceTracking.SumRange | SoundVis/Audio/VoiceTracker.swift:202-207 | the loop sums the magnitudes of `lowBin...highBin` |
| VoiceTracking.MatchedProperties | SoundVis/Audio/VoiceTracker.swift:191-234 | matching changes only energy, activity and last-active time; an active voice was heard now and has energy above 0.15; a voice with an empty template or an unusable range is never active |
| VoiceTracking.FrameEnergyIsMean | SoundVis/Audio/VoiceTracker.swift:196-207 | over a usable range the energy is the range's mean, and otherwise it is 0 |
| VoiceTracking.EvictProperties | SoundVis/Audio/VoiceTracker.swift:237-239 | exactly the voices silent for more than 180 s go, and the survivors keep their relative order |
| VoiceTracking.MatchedAll | SoundVis/Audio/VoiceTracker.swift:193-234 | matching keeps the number of voices |
| VoiceTracking.MatchThenEvict | SoundVis/Audio/VoiceTracker.swift:191-240 | a voice active in this frame is never evicted in it, and matching keeps ids and their order |
| VoiceTracking.MatchedIdsBelow | SoundVis/Audio/VoiceTracker.swift:191-240 | matching and eviction hand out no new id |
| VoiceTracking.VoicesFrom | SoundVis/Audio/VoiceTracker.swift:74-85 | one voice per region |
| VoiceTracking.VoicesFromProperties | SoundVis/Audio/VoiceTracker.swift:74-85 | new voices are inactive with energy 0, with fresh ascending ids, in the regions' centroid order |
| VoiceTracking.MeanSpectrum | SoundVis/Audio/VoiceTracker.swift:58-68 | the summing and dividing loops compute the bin-by-bin mean of the history |
| VoiceTracking.VoiceTracker.constructor | SoundVis/Audio/VoiceTracker.swift:4-18 | calibrating, with no voices and empty histories, at 48 kHz |
| VoiceTracking.VoiceTracker.Process | SoundVis/Audio/VoiceTracker.swift:27-35 | while calibrating, `voices` is unchanged and both histories get the frame; afterwards, no data is collected and the voices are matched then evicted |
| VoiceTracking.VoiceTracker.CollectCalibrationData | SoundVis/Audio/VoiceTracker.swift:37-49 | both histories get the new entry last and never exceed 1024, dropping the oldest first |
| VoiceTracking.VoiceTracker.FinalizeCalibration | SoundVis/Audio/VoiceTracker.swift:51-90 | calibration ends and both histories are empty; with an empty history only the flag changes; otherwise the voices are those of the mean spectrum's regions, at most 8, all inactive with energy 0 |
| VoiceTracking.VoiceTracker.MatchVoices | SoundVis/Audio/VoiceTracker.swift:191-240 | every voice is matched against the frame, then the expired ones are removed |
| VoiceTracking.VoiceTracker.MatchVoice | SoundVis/Audio/VoiceTracker.swift:193-234 | one voice's update is `Matched`: active iff energy > 0.15 and shape match > 0.7 |
| VoiceTracking.VoiceTracker.MeasureVoice | SoundVis/Audio/VoiceTracker.swift:194-223 | the voice's mean energy and shape match in this frame, each 0 when the range is not usable |
| Analyzer.Progress | SoundVis/Audio/AudioAnalyzer.swift:94-95 | `min(1, elapsed/30)` is at most 1, non-negative for non-negative elapsed time, and 1 exactly from 30 s on |
| Analyzer.AudioAnalyzer.constructor | SoundVis/Audio/AudioAnalyzer.swift:26-40 | nothing is published yet; it is calibrating; there are no components |
| Analyzer.AudioAnalyzer.Start | SoundVis/Audio/AudioAnalyzer.swift:42-62 | fresh transform and trackers; when capture starts, the calibration clock starts at `now`; otherwise the error is published |
| Analyzer.AudioAnalyzer.Install | SoundVis/Audio/AudioAnalyzer.swift:46-48 | the three components are fresh and valid |
| Analyzer.AudioAnalyzer.ProcessAudio | SoundVis/Audio/AudioAnalyzer.swift:70-107 | nothing happens without all three components. Otherwise the beat tracker's remembered spectrum is the magnitudes of the transform of the staged, windowed block. The published tempo, phase, confidence and voices equal the trackers' values. After calibration the voices are the matched and evicted old voices. While calibrating the history gains the spectrum and there are no voices. At the 30 s mark the voices are those finalised from the history including this frame, numbered from the tracker's next id. Progress follows the clock, and calibration never restarts |
| Analyzer.AudioAnalyzer.Frame | SoundVis/Audio/AudioAnalyzer.swift:79-106 | one spectrum through both trackers and the publication step, with the voices as in `ProcessAudio` stated against that spectrum |
| Analyzer.AudioAnalyzer.Publish | SoundVis/Audio/AudioAnalyzer.swift:85-106 | copies the beat values and the voices and advances the calibration; while still calibrating the voice tracker is untouched, and when calibration ends its voices are those finalised from its old history (or its old voices for an empty history) |
| Analyzer.AudioAnalyzer.AdvanceCalibration | SoundVis/Audio/AudioAnalyzer.swift:92-102 | while calibrating with a start time, progress is `min(1, elapsed/30)`. From 30 s on the voice tracker is finalised and calibration ends: its histories are emptied, its rate is kept, and its voices are `Finalized` from the old history with ids from the old next id, or the old voices when nothing was collected |
| Analyzer.Track | SoundVis/Audio/AudioAnalyzer.swift:79-82 | the beat tracker's whole new state as its `Process` states it (onset push, spectrum, count, gated tempo, phase and anchor), and the voice tracker's rate and either the calibration push or the matched and evicted voices |
| Analyzer.Finalized | SoundVis/Audio/VoiceTracker.swift:57-85 | finalising a non-empty history of transform spectra yields at most eight voices, all inactive with zero energy |
| Analyzer.NewComponents | SoundVis/Audio/AudioAnalyzer.swift:46-48 | fresh, valid, separate components |
| Analyzer.KeepsTransformSpectra | SoundVis/Audio/AudioAnalyzer.swift:76-82 | the voice tracker's history only ever holds spectra of the transform's 1024 bins |
| FeatureBands.BinFrequencyMonotone | src/lib/audio/FeatureExtractor.js:14-17 | the frequency table starts at 0 and rises with the bin |
| FeatureBands.BinFrequencyBelowNyquist | src/lib/audio/FeatureExtractor.js:14-17 | every table entry lies below the Nyquist frequency |
| FeatureBands.BinFrequencyStep | src/lib/audio/FeatureExtractor.js:14-17 | neighbouring bins are `nyquist / frequencyBins` apart |
| FeatureBands.BandFrom | src/lib/audio/FeatureExtractor.js:178-183 | the loop from band `i` on returns a valid band index |
| FeatureBands.BandFor | src/lib/audio/FeatureExtractor.js:176-184 | the band of a frequency is a valid index |
| FeatureBands.BandForBin | src/lib/audio/FeatureExtractor.js:176-184 | `getBandForBin` returns a valid index |
| FeatureBands.BandFromCharacterised | src/lib/audio/FeatureExtractor.js:178-183 | the loop returns the first band from `i` holding the frequency, or the last band when none does |
| FeatureBands.BandForCharacterised | src/lib/audio/FeatureExtractor.js:176-184 | the result is the first band with `min <= f < max`; every frequency in [40, 14000) has a band; outside that range the result is the last band (5) |
| FeatureBands.BandsDisjoint | src/lib/audio/FeatureExtractor.js:19-26 | no frequency lies in two bands |
| FeatureBands.BandSumBounds | src/lib/audio/FeatureExtractor.js:78-84 | a band's sum lies between its bin count times the lower and upper bounds of the spectrum |
| FeatureBands.BandSumAbove | src/lib/audio/FeatureExtractor.js:78-84 | lower half of the bound above |
| FeatureBands.BandSumBelow | src/lib/audio/FeatureExtractor.js:78-84 | upper half of the bound above |
| FeatureBands.BandMeanBounds | src/lib/audio/FeatureExtractor.js:86 | a band without bins reads 0; otherwise its energy lies within the spectrum's bounds |
| FeatureBands.BandSumLocal | src/lib/audio/FeatureExtractor.js:78-84 | only the band's own bins contribute to its energy |
| FeatureVoices.LocalPeaksBelowProperties | src/lib/audio/FeatureExtractor.js:110-120 | the scan reports exactly the local maxima above 0.18 |
| FeatureVoices.LocalPeaksSound | src/lib/audio/FeatureExtractor.js:110-120 | every reported peak is above 0.18 and strictly above its neighbours at ±1 and ±2, with its own energy |
| FeatureVoices.LocalPeaksComplete | src/lib/audio/FeatureExtractor.js:110-120 | no such local maximum is missed |
| FeatureVoices.TopPeaks | src/lib/audio/FeatureExtractor.js:122-123 | at most 5 peaks are considered |
| FeatureVoices.TopPeaksProperties | src/lib/audio/FeatureExtractor.js:107-123 | the considered peaks are local maxima above 0.18, strongest first; any local maximum left out is no stronger than all 5 kept |
| FeatureVoices.TopPeaksSound | src/lib/audio/FeatureExtractor.js:107-123 | every considered peak is a local maximum of the spectrum |
| FeatureVoices.TopPeaksRanked | src/lib/audio/FeatureExtractor.js:122 | the considered peaks come strongest first |
| FeatureVoices.TopPeaksOmitted | src/lib/audio/FeatureExtractor.js:122-123 | a local maximum left out means 5 peaks at least as strong were kept |
| FeatureVoices.NearestBelow | src/lib/audio/FeatureExtractor.js:131-138 | the scan's best index is among those scanned |
| FeatureVoices.Nearest | src/lib/audio/FeatureExtractor.js:128-138 | the claimed voice is an index of the list |
| FeatureVoices.NearestBelowProperties | src/lib/audio/FeatureExtractor.js:131-138 | the scan picks an unclaimed voice strictly nearer than any earlier best, with ties to the earlier voice |
| FeatureVoices.NearestProperties | src/lib/audio/FeatureExtractor.js:128-138 | no voice is claimed iff every unclaimed voice is 6 or more bins away; otherwise the claimed voice is unclaimed, within 6 bins, nearest, and the first among equals |
| FeatureVoices.RefreshedCenterBetween | src/lib/audio/FeatureExtractor.js:142 | `round(0.85 * old + 0.15 * peak)` lies between the old centre and the peak |
| FeatureVoices.HushedAll | src/lib/audio/FeatureExtractor.js:95-98 | quiet fading keeps the number of voices |
| FeatureVoices.SettledAll | src/lib/audio/FeatureExtractor.js:164-170 | loud-frame fading keeps the number of voices |
| FeatureVoices.MatchStepEffect | src/lib/audio/FeatureExtractor.js:127-161 | a peak either claims the nearest unclaimed voice within 6 bins, refreshing it and adding exactly its id; or, when there is none, founds a voice with the next id, heard now, if there are fewer than 5 and its energy is above 0.24; or changes nothing |
| FeatureVoices.MatchStepKeeps | src/lib/audio/FeatureExtractor.js:127-161 | one peak keeps the matching invariant and never lowers the next id |
| FeatureVoices.ClaimKeeps | src/lib/audio/FeatureExtractor.js:140-146 | claiming a voice keeps the matching invariant |
| FeatureVoices.FoundKeeps | src/lib/audio/FeatureExtractor.js:147-160 | founding a voice with the next id keeps the matching invariant |
| FeatureVoices.MatchPeaksKeeps | src/lib/audio/FeatureExtractor.js:125-162 | the whole peak loop keeps at most 5 voices with ascending fresh ids, and every id is claimed at most once |
| FeatureVoices.SurvivorsProperties | src/lib/audio/FeatureExtractor.js:164-173 | a voice stays iff its smoothed energy is above 0.015 or it was heard within 900 frames; the list never grows and keeps its id order |
| FeatureVoices.FadingKeepsTracked | src/lib/audio/FeatureExtractor.js:164-170 | fading keeps ids, bands and centres |
| FeatureVoices.SurvivorsKeepTracked | src/lib/audio/FeatureExtractor.js:164-173 | dropping voices keeps the tracker's invariant |
| FeatureVoices.VoicesAfterKeeps | src/lib/audio/FeatureExtractor.js:91-174 | `updateVoices` keeps at most 5 voices with strictly increasing ids below the next id, and never reuses an id; a quiet frame hands out no id and adds no voice |
| FeatureVoices.QuietFrame | src/lib/audio/FeatureExtractor.js:92-105 | in a quiet frame nothing is matched or created; every voice fades by 0.985 (smoothed) and 0.96 (instant); exactly the surviving faded voices remain |
| FeatureVoices.SettleProperties | src/lib/audio/FeatureExtractor.js:164-173 | a voice claimed this frame always survives, and an unclaimed one stays exactly when its faded form passes the survival condition |
| FeatureVoices.LoudFrame | src/lib/audio/FeatureExtractor.js:107-173 | in a loud frame, a voice matched in it is never dropped in it; an unmatched voice fades by 0.94 and 0.92 and stays iff it then passes the survival condition |
| Features.Views | src/lib/audio/FeatureExtractor.js:52-60 | one published view per voice |
| Features.ViewsProperties | src/lib/audio/FeatureExtractor.js:52-60 | every view keeps its voice's id and order, sits at a table frequency below Nyquist, and has a relative position in [0,1) |
| Features.FeatureExtractor.constructor | src/lib/audio/FeatureExtractor.js:7-36 | the table is `i * nyquist / bins`; all buffers are zero; there are no voices; the counters are 0 |
| Features.FeatureExtractor.Extract | src/lib/audio/FeatureExtractor.js:38-62 | counts the frame; each band energy is the band mean and its smoothed copy moves 12% toward it; the voices follow `updateVoices`; the spectrum is remembered; the frame publishes the smoothed energies and the voice views |
| Features.FeatureExtractor.CalculateBandEnergies | src/lib/audio/FeatureExtractor.js:72-89 | `bandEnergies[b]` is the band's mean (0 without bins), and `bandEnergiesSmooth[b]` moves 12% of the way to it |
| Features.FeatureExtractor.BandTotal | src/lib/audio/FeatureExtractor.js:78-84 | the inner loop sums the band's bins and counts them |
| Features.FeatureExtractor.UpdateVoices | src/lib/audio/FeatureExtractor.js:91-174 | the voices and next id after the frame are `VoicesAfter`, and the invariant is kept |
| Features.FeatureExtractor.HushAll | src/lib/audio/FeatureExtractor.js:95-98 | the quiet fading loop |
| Features.FeatureExtractor.FindLocalPeaks | src/lib/audio/FeatureExtractor.js:110-120 | the scan over bins `2..length-3` yields exactly the local peaks, in bin order |
| Features.FeatureExtractor.MatchAll | src/lib/audio/FeatureExtractor.js:127-162 | the loop over the top peaks computes `MatchPeaks` |
| Features.FeatureExtractor.FindNearest | src/lib/audio/FeatureExtractor.js:128-138 | the nearest-voice loop computes `Nearest` |
| CliFFT.CliStaged | SoundVisCLI/Sources/SoundVisCLI/main.swift:27-31 | the tool's staged buffer has 2048 slots |
| CliFFT.CliStagedVersusApp | SoundVisCLI/Sources/SoundVisCLI/main.swift:27-31 | a block that fits is staged as the app stages it into a cleared buffer; a longer block keeps its first 2048 samples where the app keeps its last |
| CliFFT.FFTProcessor.constructor | SoundVisCLI/Sources/SoundVisCLI/main.swift:14-20 | the window is the platform's Hann window, and the buffers are fresh |
| CliFFT.FFTProcessor.Process | SoundVisCLI/Sources/SoundVisCLI/main.swift:26-48 | the transform receives the windowed staged buffer with a zero imaginary part; the result is 1024 non-negative magnitudes |
| CliFFT.FFTProcessor.Magnitudes | SoundVisCLI/Sources/SoundVisCLI/main.swift:43-47 | each of the 1024 bins gets its scaled, non-negative magnitude |
| CliFFT.Stage | SoundVisCLI/Sources/SoundVisCLI/main.swift:27-31 | the buffer is zero except its last `min(n, 2048)` slots, which hold the first `min(n, 2048)` samples in order |
| CliBeat.LagBpmIsAppConversion | SoundVisCLI/Sources/SoundVisCLI/main.swift:104 | `60 * 46.875 / lag` is the app's lag-to-tempo conversion |
| CliBeat.LagBpmInRange | SoundVisCLI/Sources/SoundVisCLI/main.swift:91-106 | every lag in 20..60 gives an estimate in [46.875, 140.625], which is below 60 BPM at one end and short of 180 at the other |
| CliBeat.SmoothedInCliRange | SoundVisCLI/Sources/SoundVisCLI/main.swift:110-113 | blending tempi of that range stays in it |
| CliBeat.PushedInCliRange | SoundVisCLI/Sources/SoundVisCLI/main.swift:108-110 | pushing an in-range estimate keeps the buffer and its median in range |
| CliBeat.ResetDropsFraction | SoundVisCLI/Sources/SoundVisCLI/main.swift:119-126 | on a wrap the tool's anchor `now` differs from the app's continuous anchor by the phase already under way, so the next frame's phase restarts at 0 |
| CliBeat.BeatTracker.IntervalPositive | SoundVisCLI/Sources/SoundVisCLI/main.swift:113-115 | the beat interval is always positive |
| CliBeat.BeatTracker.constructor | SoundVisCLI/Sources/SoundVisCLI/main.swift:54-64 | the tempo is 0, the buffers are empty, the interval is 0.5 s and the anchor is `now` |
| CliBeat.BeatTracker.Process | SoundVisCLI/Sources/SoundVisCLI/main.swift:66-77 | the whole new state. The onset is pushed into a history of at most 512; the spectrum is remembered; the frame is counted. On every eighth frame with more than 256 onsets the tempo state becomes `CliTempoAfter` of the raw history, otherwise it is unchanged. The interval stays positive. The phase and anchor are `CliPhaseAfter` of the old anchor. With time moving forward the phase lies in [0,1) |
| CliBeat.BeatTracker.Advance | SoundVisCLI/Sources/SoundVisCLI/main.swift:67-75 | the onset push, the remembered spectrum, the frame count and the gated tempo update of one frame |
| CliBeat.BeatTracker.ComputeOnset | SoundVisCLI/Sources/SoundVisCLI/main.swift:79-87 | the flux loop computes the onset function (non-negative, and 0 on the first frame) |
| CliBeat.BeatTracker.EstimateTempo | SoundVisCLI/Sources/SoundVisCLI/main.swift:89-117 | the new tempo state is `CliTempoAfter` of the raw onsets, searched over lags 20..60. Without a positive correlation nothing changes. Otherwise: the estimate `60 * 46.875 / lag` is pushed into 16; the tempo is blended toward the median; the interval is `60/bpm`; the confidence is the correlation |
| CliBeat.BeatTracker.RecordEstimate | SoundVisCLI/Sources/SoundVisCLI/main.swift:108-116 | the new tempo state is `CliRecorded`: buffer push, median blend, interval and confidence of an accepted estimate |
| CliBeat.BeatTracker.UpdatePhase | SoundVisCLI/Sources/SoundVisCLI/main.swift:119-126 | the phase fields are `CliPhaseAfter` of the old anchor: the phase is the fractional beat since the anchor, in [0,1) for forward time; on a wrap the anchor becomes `now` |
| CliBeat.CliPhaseAfter | SoundVisCLI/Sources/SoundVisCLI/main.swift:119-126 | with time moving forward the tool's phase lies in [0,1) and its new anchor is not after `now` |
| CliVoices.NameFor | SoundVisCLI/Sources/SoundVisCLI/main.swift:224-234 | negative frequencies and those from 4 kHz up are "Air" |
| CliVoices.NameForAgreesWithApp | SoundVisCLI/Sources/SoundVisCLI/main.swift:224-234 | below 8 kHz the tool names frequencies as the app does; from 8 kHz up the tool says "Air" and the app "Ultra" |
| CliVoices.PeaksBelowProperties | SoundVisCLI/Sources/SoundVisCLI/main.swift:173-180 | the scan reports exactly the local maxima above 0.02, in ascending bin order |
| CliVoices.PeaksBelowSound | SoundVisCLI/Sources/SoundVisCLI/main.swift:173-180 | every reported peak is such a maximum, with its own magnitude |
| CliVoices.PeaksBelowComplete | SoundVisCLI/Sources/SoundVisCLI/main.swift:173-180 | no such maximum is missed |
| CliVoices.PeaksBelowAscending | SoundVisCLI/Sources/SoundVisCLI/main.swift:173-180 | reported bins strictly ascend |
| CliVoices.TopPeaks | SoundVisCLI/Sources/SoundVisCLI/main.swift:182-185 | at most 6 peaks are offered |
| CliVoices.TopPeaksProperties | SoundVisCLI/Sources/SoundVisCLI/main.swift:173-185 | the offered peaks are maxima of the mean spectrum, strongest first, at distinct bins; any maximum left out is no stronger than all 6 offered |
| CliVoices.TopPeaksSound | SoundVisCLI/Sources/SoundVisCLI/main.swift:173-185 | every offered peak is a maximum with its own magnitude |
| CliVoices.TopPeaksRanked | SoundVisCLI/Sources/SoundVisCLI/main.swift:182 | the offered peaks come strongest first, at distinct bins |
| CliVoices.TopPeaksOmitted | SoundVisCLI/Sources/SoundVisCLI/main.swift:182-185 | a maximum left out means 6 peaks at least as strong were offered |
| CliVoices.FoundedProperties | SoundVisCLI/Sources/SoundVisCLI/main.swift:186-199 | a founded voice covers `[bin - 5, bin + 5]` clamped to the spectrum, with a range of positive width; it is inactive with energy 0 |
| CliVoices.SelectAllProperties | SoundVisCLI/Sources/SoundVisCLI/main.swift:183-200 | the selection founds voices with consecutive fresh ids, each well-formed and last heard now, at most one per offered peak, and no accepted peak's bin lies in an earlier window |
| CliVoices.SelectStepEffect | SoundVisCLI/Sources/SoundVisCLI/main.swift:185-199 | a peak whose bin is claimed is skipped; otherwise it founds a voice with the next id and claims its window |
| CliVoices.WindowsMayOverlap | SoundVisCLI/Sources/SoundVisCLI/main.swift:185-189 | peaks at bins 10 and 16 both found voices, whose windows overlap |
| CliVoices.FinalizedProperties | SoundVisCLI/Sources/SoundVisCLI/main.swift:162-205 | from no voices: at most 6 voices, sorted by lower frequency, with distinct fresh ids, inactive with energy 0, last heard now |
| CliVoices.SortedSelection | SoundVisCLI/Sources/SoundVisCLI/main.swift:202 | sorting the founded voices by lower bound keeps them all, in ascending lower-frequency order |
| CliVoices.IdsOfSorted | SoundVisCLI/Sources/SoundVisCLI/main.swift:202 | sorting keeps the ids distinct and fresh |
| CliVoices.MatchedAll | SoundVisCLI/Sources/SoundVisCLI/main.swift:207-222 | matching keeps the number of voices |
| CliVoices.MatchedFounded | SoundVisCLI/Sources/SoundVisCLI/main.swift:209-219 | a founded voice reads back exactly its window's bins: its energy is their mean, and it is active iff that mean exceeds 0.08 |
| CliVoices.MatchedAllProperties | SoundVisCLI/Sources/SoundVisCLI/main.swift:207-222 | matching keeps every voice in order, with identity and range; active iff energy > 0.08; active voices heard now |
| CliVoices.VoiceTracker.constructor | SoundVisCLI/Sources/SoundVisCLI/main.swift:140-145 | calibrating, with no voices and an empty history |
| CliVoices.VoiceTracker.CalibrationProgress | SoundVisCLI/Sources/SoundVisCLI/main.swift:158-160 | `count / 1400` lies in [0,1) while calibrating and is 0 once the history is cleared |
| CliVoices.VoiceTracker.Process | SoundVisCLI/Sources/SoundVisCLI/main.swift:147-156 | while calibrating, the spectrum is appended, and calibration lasts exactly until 1400 are held, when the voices are fixed; afterwards the voices are matched and nothing else changes |
| CliVoices.VoiceTracker.FinalizeCalibration | SoundVisCLI/Sources/SoundVisCLI/main.swift:162-205 | calibration ends with an empty history; with nothing collected the voices are unchanged; otherwise they are `Finalized`; ids stay below the next id |
| CliVoices.VoiceTracker.MatchVoices | SoundVisCLI/Sources/SoundVisCLI/main.swift:207-222 | every voice is matched; none is added or removed |
| CliVoices.FinalizedIds | SoundVisCLI/Sources/SoundVisCLI/main.swift:183-202 | ids stay below the next fresh id through the calibration |
| CliVoices.FindPeaks | SoundVisCLI/Sources/SoundVisCLI/main.swift:173-180 | the scan over bins `2..<(count - 2)` yields exactly the peaks |
| CliVoices.SelectVoices | SoundVisCLI/Sources/SoundVisCLI/main.swift:183-200 | the loop over the offered peaks, claiming window bins one by one, computes the selection |
| CliVoices.MeasureVoice | SoundVisCLI/Sources/SoundVisCLI/main.swift:209-216 | the mean magnitude of the voice's bins, or 0 when the range is not usable |

## Left out

- The Fourier transform, the Hann window and the square root are parameters, as the platform library computes them. The transform is only assumed to map 2048 real and imaginary values to 2048 each; the square root only to be the non-negative root.
- Single- and double-precision rounding is not modelled: all arithmetic is exact. The bin/frequency round trips and the 187.5 BPM bound hold in exact arithmetic only.
- Capture and I/O are not part of this model:
  - `AudioCaptureManager`;
  - the tool's microphone capture and its print loop;
  - the web engine's `initialize`, `analysisLoop` and `stop`;
  - `requestAnimationFrame`;
  - the timing of the noise-floor capture.
- `Analyzer.AudioAnalyzer.Start`: the asynchronous `Task` and capture start are replaced by a `captureError` argument.
- `Analyzer.AudioAnalyzer.ProcessAudio`: the main-actor hand-off is modelled as taking place right after the trackers, so no interleaving with another block is captured.
- `stop()` of the app is not modelled: it only stops capture.
- `Date()` is a `now` argument and `UUID()` a counter. Distinct ids are proved; randomness is not modelled.
- The user interface, the renderer, the stores other than the vibe store, and the build configuration are not part of this model.
- `Features.FeatureExtractor.Extract`: the frame's RMS level is an argument, and `calculateRMS` is not modelled (it needs a square root).
- `Features.FeatureExtractor.Extract`: JavaScript hands out `bandEnergiesSmooth` itself, so later frames change a frame already published. The model returns a copy.
- `FeatureVoices.VoicesAfterKeeps`: a voice founded in a loud frame is unclaimed in that frame, so it decays by 0.94 in the same frame. The model reproduces this and states no stronger property.
- `VoiceTracking.VoiceTracker.Process` requires four bins while calibrating and a non-zero rate afterwards. The source traps (a range of negative length, a division by zero) where the model requires these.
- `VoiceTracking.VoiceTracker.FinalizeCalibration` requires every stored spectrum to be as long as the first. The source traps on a shorter one.
- `CliVoices.VoiceTracker.Process` requires the same of every spectrum after the first, for the same reason.
- `CliBeat.BeatTracker.EstimateTempo` requires a history longer than 60, which the call site guarantees (more than 256 entries).
- `Beat.BeatTracker.PredictBeatTimes` takes a natural `count`. For a negative count the source's `0..<count` traps, and that trap is not modelled.
- `VoiceTracking.Correlation` is not shown to lie in [-1,1], since Cauchy–Schwarz is not proved. Only the degenerate cases are proved.
- Library sorts are modelled as a stable insertion sort. Where keys tie, the library's order may differ.

The command-line tool's behaviour is modelled as written:

- `CliBeat.LagBpmInRange`: the tool's comment promises about 180 BPM, but lags 20..60 give 46.875–140.625 BPM.
- `CliFFT.CliStagedVersusApp`: a long block keeps its oldest 2048 samples.
- `CliVoices.WindowsMayOverlap`: only a peak's own bin is checked against earlier windows, so windows may overlap.
- `CliBeat.ResetDropsFraction`: the phase anchor jumps to `now` on a wrap.
- `CliVoices.VoiceTracker.MatchVoices`: the tool never evicts voices.
- `CliVoices.NameFor`: frequencies from 4 kHz up, and negative ones, are "Air".
- `CliVoices.VoiceTracker.CalibrationProgress`: the progress reads 0 after calibration, because the history is cleared.
