# InstrumentSoundPlayback in Dafny

This project models how the InstrumentSoundPlayback instruments build their
sound buffers. Every instrument is an `Instrument` holding two things: a colour
group, and an append-only list of buffers. An instrument's `makeSound` runs one
physical model per fundamental of its colour's scale. Each model is a
waveguide, meaning a fixed-length delay line updated every sample, or a
hammer, reed, lip or bow driving such a line. Each run writes a one-second
buffer of 44100 samples. The buffer is then divided by its peak and
appended.

Modules follow the source files:

- `Returner` holds the shared tables and builders: sound-wave data, the four
  frequency scales, the time axis, the ADSR envelope layout and the
  piano's two-pole resonator.
- `Instrument` holds the base class and its collection.
- There is one module per instrument: `ElectronicGuitar`, `JapaneseGuitar`,
  `Ukulele`, `Violin`, `Oboe`, `Trumpet`, `Flute`, `Piano`, `Vibraphone` and
  `ReggaeOrgan`.
- Two helper modules hold what the instruments share: `Signal` (numpy's
  element-wise vector operations, `int()` truncation, the three
  normalisations, the `Buffer` result) and `Waveguide` (`np.roll` and the
  delay-line advance forms).

Each instrument's loops are methods. Each method is proved equal to a
recursive specification function: `BoreOutput`, `HornOutput`, `PipeRun`,
`PianoRun`, `AveragingRun` and the others. The properties of the instrument
are proved about those functions.

How the model stands in for what it cannot compute:

- Samples are `real`.
- Transcendental functions (`pi`, `sin`, `cos`, `exp`, `tanh`, `sqrt`,
  `np.hanning`) are fields of a `Transcendental` value passed in.
- Random draws are a `Draws` function from (note, index) to a real.
- The scipy body filters are a `ModeFilter` parameter that keeps length.
- numpy's division by a zero peak does not raise. It produces NaN, which the
  model writes as `Buffer.NonFinite`.

Where the written description of the system and its code differ, the model
follows the code:

- The ADSR release starts at the sustain level and ends at `sustain / r`,
  not at zero. With the ukulele parameters the sustain count is `-441`, the
  sustain slice is empty, and the release overwrites the end of the decay.
- The reggae organ divides by `max(output)`, not by the peak magnitude.
- An all-zero buffer is divided by zero and becomes NaN; it is not
  rejected.
- In the electric guitar, the pickup guard's `else` branch can never run
  for lines of two or more samples.
- The trumpet table lists `blowing_pressure` twice; the later value, 2000,
  is the one used.
- The Japanese guitar averages the first two samples of its buffer.
- The vibraphone's noise is not scaled by `mallet_force`.

## Model

| member | source | states |
|---|---|---|
| Signal.Trunc | Returner/Returner.py:226-229 | `int()` truncates toward zero: for `x >= 0` the result is the floor of `x`, for `x < 0` the ceiling |
| Signal.Max | Instrument/ReggaeOrgan.py:77 | `max(output)` bounds every sample from above and is one of them |
| Signal.MaxAbs | Instrument/Violin.py:90 | `max(abs(output))` is non-negative, bounds every magnitude and is attained |
| Signal.ZeroPeakIsSilence | Instrument/Piano.py:136 | a peak magnitude of zero means every sample is zero, the only case in which the division fails |
| Signal.DivideByPeakBounded | Instrument/Violin.py:90 | dividing by the attained peak magnitude leaves every sample in [-1, 1] and the peak sample at magnitude 1 |
| Signal.NormalizeByPeak | Instrument/Oboe.py:90 | `output /= max(abs(output))` keeps the length; it gives finite samples exactly when some sample is non-zero; those samples lie in [-1, 1] and one has magnitude 1 |
| Signal.DivideByFlooredPeakBounded | Instrument/ElectronicGuitar.py:124 | dividing by a value strictly above every magnitude leaves every sample strictly inside (-1, 1) |
| Signal.NormalizeWithFloor | Instrument/ElectronicGuitar.py:124 | `output /= max(abs(output) + eps)` with `eps > 0` never divides by zero, keeps the length and leaves every sample strictly inside (-1, 1) |
| Signal.DivideByMaxBounded | Instrument/ReggaeOrgan.py:77 | dividing by a positive attained maximum leaves every sample at most 1 and the maximum sample at exactly 1 |
| Signal.NormalizeByMax | Instrument/ReggaeOrgan.py:77 | `output /= np.max(output)` keeps the length; it is finite exactly when the maximum is non-zero; with a positive maximum every sample is at most 1 and one is exactly 1 |
| Signal.NormalizeByMaxLeavesNegativePeak | Instrument/ReggaeOrgan.py:77 | division by the maximum does not bound the negative side: `[1, -2]` becomes `[1, -2]`, below -1 |
| Signal.BodyFilters | Instrument/JapaneseGuitar.py:77-78 | running the body filters one after another keeps the buffer's length |
| Signal.ApplyBodyFilters | Instrument/Ukulele.py:71-72 | the loop over the body resonances applies each filter in order, as the fold `BodyFilters` does |
| Waveguide.DelayLength | Instrument/JapaneseGuitar.py:56 | `int(fs / f)` for positive `fs / f` is the whole number of samples in one period: at most `fs / f` and within one sample of it |
| Waveguide.DelayAtLeast | Instrument/JapaneseGuitar.py:56 | `int(fs / f)` is at least `m` whenever `m * f <= fs` |
| Waveguide.ScaleDelayLengths | Instrument/JapaneseGuitar.py:56 | every fundamental of a scale is positive and gets a delay line of at least 36 samples at 44100 Hz |
| Waveguide.Roll | Instrument/JapaneseGuitar.py:100 | `np.roll(a, shift)` keeps the length and puts `a[(i - shift) mod L]` at index `i` |
| Waveguide.RollLeftOne | Instrument/ElectronicGuitar.py:102 | `np.roll(a, -1)` is `a[1..] + [a[0]]` |
| Waveguide.RollRightOne | Instrument/Trumpet.py:85 | `np.roll(a, 1)` is `[a[L-1]] + a[..L-1]` |
| Waveguide.RollLeftWriteLast | Instrument/ElectronicGuitar.py:102-103 | rolling left and then writing `[-1]` gives `a[1..] + [v]` |
| Waveguide.RollRightWriteFirst | Instrument/Trumpet.py:85-88 | rolling right and then writing `[0]` gives `[v] + a[..L-1]`: the old last sample is lost |
| Waveguide.WriteFirstRollLeft | Instrument/Violin.py:86-87 | writing `[0]` and then rolling left also gives `a[1..] + [v]` |
| Waveguide.WriteFirstRollRight | Instrument/Oboe.py:81-82 | writing `[0]` and then rolling right puts `v` at index 1 and wraps the old last sample to index 0 |
| Waveguide.RollLeftWriteFirst | Instrument/Flute.py:75-76 | rolling left and then writing `[0]` gives `[v] + a[2..] + [a[0]]`: the old second sample is lost |
| Waveguide.AppendPopLeft | Instrument/Ukulele.py:67-68 | a deque `append` followed by `popleft` keeps the length and gives `d[1..] + [y]` |
| Waveguide.AveragingRun | Instrument/JapaneseGuitar.py:68-75 | the averaging line keeps its length and writes one output per step |
| Waveguide.AveragingRunStep | Instrument/JapaneseGuitar.py:69-75 | one more step drops the front of the line and appends the new average both to the line and to the output |
| Waveguide.AveragingWindow | Instrument/JapaneseGuitar.py:68-75 | after `n` steps the line is the window `n .. n+L` of the initial line followed by the outputs |
| Waveguide.AveragingOutputAt | Instrument/JapaneseGuitar.py:75 | output `i` is the average of the line's first two samples after `i` steps, times that step's gain |
| Waveguide.AveragingPrefix | Instrument/JapaneseGuitar.py:68-75 | later steps never change earlier outputs |
| Waveguide.KarplusStrong | Instrument/Ukulele.py:65-69 | over the initial line followed by the outputs, `x[L+i] = gain(i) * (x[i] + x[i+1]) / 2`, the Karplus-Strong recurrence |
| Waveguide.AveragingAtRest | Instrument/JapaneseGuitar.py:68-75 | a line that starts silent stays silent and writes only zeros |
| Returner.SoundWaveData | Returner/Returner.py:170-181 | the sampling rate and speed of sound are positive, `num_samples = sampling_rate * duration` and `dt * sampling_rate = 1` |
| Returner.BlueFrequencies | Returner/Returner.py:136-142 | the blue scale has seven positive, strictly increasing fundamentals |
| Returner.GreenFrequencies | Returner/Returner.py:144-150 | the green scale has seven positive, strictly increasing fundamentals |
| Returner.RedFrequencies | Returner/Returner.py:152-158 | the red scale has seven positive, strictly increasing fundamentals |
| Returner.YellowFrequencies | Returner/Returner.py:160-166 | the yellow scale has seven positive, strictly increasing fundamentals |
| Returner.ReturnTimeData | Returner/Returner.py:183-192 | the time axis has 44100 points `t[k] = k / 44100` (endpoint excluded), starting at 0 and staying below the duration |
| Returner.SegmentCounts | Returner/Returner.py:226-229 | `a`, `d` and `r` are the truncated products of rate and time, and `a + d + s + r = N` always, even when `s < 0` |
| Returner.SliceBound | Returner/Returner.py:231-242 | a Python slice bound is clamped into `[0, N]`; a negative bound counts from the end |
| Returner.PySlice | Returner/Returner.py:231-242 | a Python slice `[i:j]` selects an interval `lo <= hi <= N` |
| Returner.Assign | Returner/Returner.py:231-242 | a numpy slice assignment succeeds exactly when the value has the slice's length or is a single value; on success it writes the slice and leaves every other sample unchanged |
| Returner.Linspace | Returner/Returner.py:231-242 | `np.linspace(start, stop, num, endpoint=False)` has `num` points and starts at `start` |
| Returner.LinPoint | Returner/Returner.py:231-242 | point 0 is `start`, and the excluded endpoint `num` would be `stop` |
| Returner.SliceOf | Returner/Returner.py:231-242 | each of the four writes targets an interval inside the envelope |
| Returner.Written | Returner/Returner.py:224-242 | the envelope after the first `k` writes keeps the time axis's length |
| Returner.SliceBounds | Returner/Returner.py:231-242 | the four writes target `[0, a)`, `[a, a+d)`, `[a+d, max(a+d, N-r))` and the last `r` samples (the whole buffer when `r = 0`), clamped to `N` |
| Returner.WrittenStep | Returner/Returner.py:231-242 | write `k` succeeds exactly when the earlier ones did and its value fits its slice |
| Returner.FailureStays | Returner/Returner.py:231-242 | once a write fails, the whole layout fails |
| Returner.EnvelopeDefinedIff | Returner/Returner.py:214-243 | the layout succeeds exactly when the segment counts fit the buffer (`AdsrFits`) |
| Returner.AttackStage | Returner/Returner.py:231-233 | after the attack write, the first `a` samples ramp from 0 toward 1 and the rest are zero |
| Returner.DecayStage | Returner/Returner.py:234-237 | after the decay write, the next `d` samples ramp from 1 toward the sustain level |
| Returner.SustainStage | Returner/Returner.py:238 | after the sustain write, the samples up to `N - r` hold the sustain level |
| Returner.ReleaseWrite | Returner/Returner.py:239-242 | the release write replaces the last `r` samples with the release ramp and keeps the others |
| Returner.ReleaseStage | Returner/Returner.py:239-242 | each finished sample is the closed-form `EnvelopeAt`, with the release written last |
| Returner.LevelsAgree | Returner/Returner.py:231-242 | the value after the sustain and release writes equals the closed-form `EnvelopeAt` |
| Returner.WrittenDefinedIff | Returner/Returner.py:231-242 | with no negative count, the four slice writes all succeed exactly when the counts fit the buffer |
| Returner.EnvelopeLayout | Returner/Returner.py:214-243 | a layout that succeeds has the time axis's length; a negative attack, decay or release count gives none |
| Returner.EnvelopeAt | Returner/Returner.py:231-242 | the release starts at the sustain level, the attack at 0, the decay at 1, and between decay and release the level is the sustain |
| Returner.EnvelopeShape | Returner/Returner.py:214-243 | a successful layout has `0 < r <= N` and `0 <= a <= N`, and every sample is `EnvelopeAt` |
| Returner.AttackStartsAtZero | Returner/Returner.py:231-233 | with a non-empty attack the envelope starts at 0 |
| Returner.ReleaseEndsAtSustainOverR | Returner/Returner.py:239-242 | the envelope's last sample is `sustain / r`, not 0 |
| Returner.ZeroReleaseFails | Returner/Returner.py:239-242 | `r = 0` makes `env[-0:]` the whole buffer, and assigning an empty ramp to it fails |
| Returner.WriteSlice | Returner/Returner.py:231-237 | the in-place slice write reports success exactly when `Assign` succeeds, then holds its result; on failure the array is unchanged |
| Returner.FillSlice | Returner/Returner.py:238 | broadcasting one value into a slice always succeeds and holds `Assign`'s result |
| Returner.ADSREnvelopTimeData | Returner/Returner.py:214-243 | the four writes in order give exactly `EnvelopeLayout` |
| Returner.GuitarSegments | Returner/Returner.py:261-266 | the electric guitar's counts are `a = 441`, `d = 0`, `s = 43218`, `r = 441` |
| Returner.GuitarEnvelope | Returner/Returner.py:268-277 | its envelope exists, starts at 0 and ends with the release ramp from 0.2 |
| Returner.ReggaeSegments | Returner/Returner.py:303-308 | the organ's counts are `a = 882`, `d = 4410`, `s = 34398`, `r = 4410` |
| Returner.ReggaeEnvelope | Returner/Returner.py:310-319 | its envelope exists, starts at 0 and ends with the release ramp from 0.1 |
| Returner.UkuleleSegments | Returner/Returner.py:380-385 | the ukulele's counts are `a = 441`, `d = 22050`, `s = -441`, `r = 22050` |
| Returner.UkuleleEnvelope | Returner/Returner.py:387-396 | its envelope exists; its decay runs to sample 22050, and the release overwrites the decay's last 441 samples |
| Returner.ElectronicGuitarADSRTimeData | Returner/Returner.py:268-277 | the guitar envelope has 44100 samples from 0 to `0.2 / 441` |
| Returner.ReggaeADSREnvelopTimeData | Returner/Returner.py:310-319 | the organ envelope has 44100 samples from 0 to `0.1 / 4410` |
| Returner.UkuleleADSREnvelopTimeData | Returner/Returner.py:387-396 | the ukulele envelope has 44100 samples, starts at 0 and holds the release ramp over samples 22050 to 22490 |
| Returner.ReturnReggaeAmplitude | Returner/Returner.py:281-286 | five amplitudes, starting at 1 and strictly decreasing while staying positive |
| Returner.ReturnReggaeHarmonics | Returner/Returner.py:288-301 | five harmonics, the numbers 1 to 5 |
| Returner.ResonatorStep | Returner/Returner.py:524-534 | one step keeps the coefficients, shifts `y1` into `y2` and stores the output in `y1` |
| Returner.Filter | Returner/Returner.py:524-534 | running the resonator over a signal writes one output per input and keeps the coefficients |
| Returner.SilenceStaysSilent | Returner/Returner.py:496-497 | a resonator at rest fed zeros stays at rest and outputs zeros |
| Returner.FilterScales | Returner/Returner.py:524-534 | the recurrence is linear: scaling the input and the state by `c` scales the outputs by `c` |
| Returner.FilterFromRestScales | Returner/Returner.py:496-497 | from rest, scaling the input scales the output |
| Returner.StepScales | Returner/Returner.py:531 | one step is linear in the input and the state |
| Returner.FilterLast | Returner/Returner.py:524-534 | filtering a longer signal is one more step after filtering its prefix |
| Returner.Tuned | Returner/Returner.py:513-522 | a freshly tuned resonator is at rest |
| Returner.PianoResonator.constructor | Returner/Returner.py:488-497 | `Q` and `gain` are stored and the state is at rest |
| Returner.PianoResonator.SetFrequency | Returner/Returner.py:499-504 | sets `f0` and nothing else |
| Returner.PianoResonator.SetSamplingRate | Returner/Returner.py:506-511 | sets `fs` and nothing else |
| Returner.PianoResonator.DefineOtherProperties | Returner/Returner.py:513-522 | sets `omega = 2 pi f0 / fs`, `r = exp(-pi f0 / (Q fs))`, `a1 = 2 r cos(omega)`, `a2 = -r^2` and `b0 = (1 - r) gain`, keeping the state |
| Returner.PianoResonator.Process | Returner/Returner.py:524-534 | returns `a1 y1 + a2 y2 + b0 x`, then sets `y2` to the old `y1` and `y1` to the result; this is one `ResonatorStep` |
| Instrument.Instrument.constructor | Instrument/Instrument.py:27-35 | a new instrument has an empty collection and the blank colour |
| Instrument.Instrument.MakeSound | Instrument/Instrument.py:37-42 | the base `makeSound` changes neither field |
| Instrument.Instrument.GetSoundsInstrumentPlay | Instrument/Instrument.py:44-49 | returns the stored collection unchanged |
| Instrument.Instrument.AddSound | Instrument/ElectronicGuitar.py:126 | `append` adds one buffer at the end and keeps the colour |
| ElectronicGuitar.InitialLine | Instrument/ElectronicGuitar.py:82-83 | the line is the noise times the pluck force, with 1.0 added to element 0 only |
| ElectronicGuitar.StringLineShifts | Instrument/ElectronicGuitar.py:98-103 | the string is the shared averaging line damped by 0.996; after `i` steps it has moved `i` places toward its front |
| ElectronicGuitar.Pickup | Instrument/ElectronicGuitar.py:105-108 | the pickup reads a slope: a flat line gives no signal |
| ElectronicGuitar.BandPass | Instrument/ElectronicGuitar.py:116 | the one-sample band-pass from rest maps silence to silence and, with a unit leading coefficient, passes the sample through |
| ElectronicGuitar.PickupInside | Instrument/ElectronicGuitar.py:93-108 | `int(0.3 L) < L - 1` for every line of two or more samples, so the guard always reads `d[p+1] - d[p]` |
| ElectronicGuitar.PluckedOutput | Instrument/ElectronicGuitar.py:98-116 | the loop writes one sample per step |
| ElectronicGuitar.PluckedOutputGrows | Instrument/ElectronicGuitar.py:105-116 | each step appends the band-passed pickup difference of the new line |
| ElectronicGuitar.PluckedOutputAt | Instrument/ElectronicGuitar.py:116 | output `i` is the band-passed pickup difference after `i + 1` steps |
| ElectronicGuitar.SampleLoop | Instrument/ElectronicGuitar.py:98-116 | the in-place sample loop writes exactly `PluckedOutput` |
| ElectronicGuitar.Voice | Instrument/ElectronicGuitar.py:118-124 | a finished buffer has the envelope's length and lies strictly inside (-1, 1) |
| ElectronicGuitar.Shape | Instrument/ElectronicGuitar.py:118-124 | `tanh`, the envelope and the floored division leave every sample strictly inside (-1, 1) |
| ElectronicGuitar.PlayVoice | Instrument/ElectronicGuitar.py:77-124 | one pass of the frequency loop computes `Voice` |
| ElectronicGuitar.Sounds | Instrument/ElectronicGuitar.py:76-126 | one buffer per fundamental |
| ElectronicGuitar.ElectronicGuitar.constructor | Instrument/ElectronicGuitar.py:40-48 | a new guitar has an empty collection and the red colour |
| ElectronicGuitar.ElectronicGuitar.MakeSound | Instrument/ElectronicGuitar.py:50-126 | the guitar envelope exists, and one buffer per red fundamental is appended after what was already played |
| ElectronicGuitar.ElectronicGuitar.Play | Instrument/ElectronicGuitar.py:76-126 | the frequency loop appends `Sounds` in order and keeps the colour |
| Violin.FrictionForce | Instrument/Violin.py:94-102 | with `abs(tanh) < 1` the friction lies strictly inside (-1, 1) |
| Violin.BowForceBounded | Instrument/Violin.py:83-84 | with `abs(tanh) < 1`, the scaled friction `(0.5 + 0.5 * 0.8) * tanh(...)` has magnitude below 0.9 |
| Violin.BowStep | Instrument/Violin.py:80-87 | one step keeps the line's length |
| Violin.BowedLine | Instrument/Violin.py:78-87 | the line keeps its length over the run |
| Violin.BowedOutput | Instrument/Violin.py:78-88 | the loop writes one sample per step |
| Violin.BowedOutputAt | Instrument/Violin.py:88 | output `i` is the damped new last sample of step `i` |
| Violin.BowStepBounded | Instrument/Violin.py:83-87 | a line bounded by 9 in magnitude stays bounded by 9 after a step |
| Violin.BowedLineBounded | Instrument/Violin.py:78-87 | a line that starts within 9 stays within 9 for every number of steps |
| Violin.BowSample | Instrument/Violin.py:80-88 | the velocity is read at the bow before the write; writing `[0]` then rolling gives `BowStep`, and the output is the damped last sample |
| Violin.BowLoop | Instrument/Violin.py:78-88 | the sample loop writes exactly `BowedOutput` |
| Violin.GreenDelayLengths | Instrument/Violin.py:70-71 | every green fundamental gets a line of at least 36 samples |
| Violin.Voice | Instrument/Violin.py:90 | a finished buffer has 44100 samples; when finite every sample lies in [-1, 1] and one has magnitude 1 |
| Violin.Sounds | Instrument/Violin.py:68-92 | one buffer per fundamental |
| Violin.PlayVoice | Instrument/Violin.py:70-90 | one pass of the frequency loop computes `Voice` |
| Violin.Violin.constructor | Instrument/Violin.py:41-42 | a new violin has an empty collection and the green colour |
| Violin.Violin.MakeSound | Instrument/Violin.py:44-92 | one buffer per green fundamental is appended after what was already played |
| Violin.Violin.Play | Instrument/Violin.py:68-92 | the frequency loop appends `Sounds` in order and keeps the colour |
| Oboe.ReedFlow | Instrument/Oboe.py:72-75 | the flow is never negative, is zero exactly when `delta_p <= threshold`, and is `alpha * (delta_p - threshold)` above it |
| Oboe.InjectRight | Instrument/Oboe.py:81-82 | writing `[0]` and then rolling keeps the line's length |
| Oboe.BoreStep | Instrument/Oboe.py:68-84 | one step keeps both lines' lengths |
| Oboe.BoreAt | Instrument/Oboe.py:67-84 | the bore keeps its shape over the run |
| Oboe.BoreOutput | Instrument/Oboe.py:67-85 | the loop writes one sample per step |
| Oboe.BoreOutputGrows | Instrument/Oboe.py:67-85 | a step of the loop's two lines is the next bore, and the output grows by its bell value |
| Oboe.BoreOutputAt | Instrument/Oboe.py:85 | output `i` is `right[-1] + left[-1]` after `i + 1` steps |
| Oboe.BoreStepBell | Instrument/Oboe.py:81-85 | on a bore of three or more samples, the bell hears the right line's old next-to-last sample, reflected back at `-0.001` times it, for a total of `(1 - 0.001)` times it |
| Oboe.BoreSample | Instrument/Oboe.py:68-85 | the loop body computes `BoreStep` with `Z0 = c * rho`, and the output is the bell sum |
| Oboe.BoreLoop | Instrument/Oboe.py:67-85 | the sample loop writes exactly `BoreOutput` from a silent bore |
| Oboe.RedBoreLengths | Instrument/Oboe.py:62 | `int(fs / (2 f))` is at least 18 for every red fundamental |
| Oboe.Voice | Instrument/Oboe.py:90 | a finished buffer has 44100 samples; when finite every sample lies in [-1, 1] and one has magnitude 1 |
| Oboe.Sounds | Instrument/Oboe.py:61-93 | one buffer per fundamental |
| Oboe.PlayVoice | Instrument/Oboe.py:62-90 | one pass of the frequency loop computes `Voice` |
| Oboe.Oboe.constructor | Instrument/Oboe.py:39-40 | a new oboe has an empty collection and the red colour |
| Oboe.Oboe.MakeSound | Instrument/Oboe.py:42-93 | one buffer per red fundamental is appended after what was already played |
| Oboe.Oboe.Play | Instrument/Oboe.py:61-93 | the frequency loop appends `Sounds` in order and keeps the colour |
| Trumpet.EffectiveLength | Instrument/Trumpet.py:56-57 | `max(0.1, tube + mouthpiece)` is at least both, and is one of them |
| Trumpet.TubeDelay | Instrument/Trumpet.py:59 | `max(2, int(...))` is at least 2 and is the truncated length whenever that is 2 or more |
| Trumpet.Valve | Instrument/Trumpet.py:74 | the lip area `max(0, a0 + a1 x + a2 x^2)` is never negative and is the quadratic when that is not negative |
| Trumpet.Flow | Instrument/Trumpet.py:78 | no pressure drop or a shut valve gives no flow |
| Trumpet.FlowSign | Instrument/Trumpet.py:78 | `U` is 0 when `dp = 0` or `A = 0`, and with `A > 0` it has the sign of `dp` |
| Trumpet.LipStepSemiImplicit | Instrument/Trumpet.py:75-77 | the velocity is updated first and the position moves with the new velocity |
| Trumpet.HornStep | Instrument/Trumpet.py:72-89 | one step keeps both lines' lengths |
| Trumpet.HornAt | Instrument/Trumpet.py:71-89 | the horn keeps its shape over the run |
| Trumpet.RightTravels | Instrument/Trumpet.py:85 | after `i` steps, the right line's sample `j` has moved to `i + j` |
| Trumpet.LeftTravels | Instrument/Trumpet.py:86 | after `i` steps, the left line's sample `i + j` has moved to `j` |
| Trumpet.HornOutput | Instrument/Trumpet.py:71-90 | the loop writes one sample per step |
| Trumpet.HornOutputAt | Instrument/Trumpet.py:72-90 | output `i` is `right[0] + left[0]` read before step `i` moves the lines |
| Trumpet.HornSample | Instrument/Trumpet.py:72-90 | the loop body computes `HornStep` and returns the mouthpiece pressure read before the update |
| Trumpet.HornLoop | Instrument/Trumpet.py:61-90 | the sample loop writes exactly `HornOutput` from a silent horn at rest |
| Trumpet.Normalize | Instrument/Trumpet.py:92-93 | dividing by `max(abs) + 1e-12` and scaling by 0.95 keeps the length and every sample strictly inside (-0.95, 0.95) |
| Trumpet.Voice | Instrument/Trumpet.py:59-93 | a finished buffer has 44100 samples strictly inside (-0.95, 0.95) |
| Trumpet.Sounds | Instrument/Trumpet.py:58-94 | one buffer per fundamental |
| Trumpet.PlayVoice | Instrument/Trumpet.py:59-93 | one pass of the frequency loop computes `Voice` |
| Trumpet.Trumpet.constructor | Instrument/Trumpet.py:40-41 | a new trumpet has an empty collection and the red colour |
| Trumpet.Trumpet.MakeSound | Instrument/Trumpet.py:43-94 | one buffer per red fundamental is appended after what was already played |
| Trumpet.Trumpet.Play | Instrument/Trumpet.py:58-94 | the frequency loop appends `Sounds` in order and keeps the colour |
| Flute.PipeDelay | Instrument/Flute.py:54-56 | `int(fs * 2 * (c / (2 f)) / c)` is `int(fs / f)`: the speed of sound cancels |
| Flute.JetLengthPositive | Instrument/Flute.py:62 | a pipe of four or more samples gets a jet line of at least one sample, and no longer than the pipe |
| Flute.JetShift | Instrument/Flute.py:75-76 | the jet line keeps its length and its front holds the new input |
| Flute.PipeStep | Instrument/Flute.py:69-90 | one step keeps all three lines' lengths |
| Flute.PipeRun | Instrument/Flute.py:68-92 | the pipe keeps its shape over the run, and one sample is written per step |
| Flute.PipeOutputAt | Instrument/Flute.py:92 | output `i` is `right[-1]` after `i + 1` steps |
| Flute.PipeStepOpenEnd | Instrument/Flute.py:71-90 | the open end hears the right line's old next-to-last sample; the left line moves toward its front and takes that sample inverted; the jet line's front holds the breath |
| Flute.PipeSample | Instrument/Flute.py:71-92 | the loop body, with `p_reflected` read before the rolls, computes `PipeStep` and outputs `right[-1]` |
| Flute.PipeTick | Instrument/Flute.py:68-92 | one pass takes the run from `i` to `i + 1` steps and appends its output |
| Flute.PipeLoop | Instrument/Flute.py:68-92 | the sample loop writes exactly `PipeRun`'s output from a silent pipe |
| Flute.GreenPipeDelays | Instrument/Flute.py:54-56 | every green fundamental gets a pipe of at least 36 samples |
| Flute.Voice | Instrument/Flute.py:96 | a finished buffer has 44100 samples; when finite every sample lies in [-1, 1] and one has magnitude 1 |
| Flute.Sounds | Instrument/Flute.py:53-98 | one buffer per fundamental |
| Flute.PlayVoice | Instrument/Flute.py:54-96 | one pass of the frequency loop computes `Voice` |
| Flute.Flute.constructor | Instrument/Flute.py:41-42 | a new flute has an empty collection and the green colour |
| Flute.Flute.MakeSound | Instrument/Flute.py:44-98 | one buffer per green fundamental is appended after what was already played |
| Flute.Flute.Play | Instrument/Flute.py:53-98 | the frequency loop appends `Sounds` in order and keeps the colour |
| Piano.HartzForce | Instrument/Piano.py:153-176 | there is a force only while the hammer is past the string and still closing on it |
| Piano.HartzContact | Instrument/Piano.py:171-176 | with `k > 0` the force is never negative, and it is positive exactly when the hammer penetrates and closes on the string |
| Piano.HartzCubic | Instrument/Piano.py:116-118 | at the call site (`k = 1e5`, `p = 3`) a contact gives `k x^3 > 0` |
| Piano.HammerNonlinearly | Instrument/Piano.py:140-151 | the velocity-only model gives a force only when the hammer is faster than the string |
| Piano.HammerNonlinearlySign | Instrument/Piano.py:149-151 | the unused velocity model is never negative and is positive exactly when the hammer is faster than the string |
| Piano.EulerStep | Instrument/Piano.py:122-127 | semi-implicit Euler: the positions move with the new velocities; without a force the velocities stay |
| Piano.EulerMomentum | Instrument/Piano.py:122-127 | the step keeps the momentum `m_h v_h + m_s v_s`; without contact both bodies move on at their old speeds |
| Piano.NewValue | Instrument/Piano.py:129 | a line whose two ends are at rest passes on the string's displacement unchanged |
| Piano.BankStep | Instrument/Piano.py:133 | passing a sample through the bank keeps the number of resonators |
| Piano.Outputs | Instrument/Piano.py:133 | one output per resonator |
| Piano.BankStepIndependent | Instrument/Piano.py:133 | each resonator takes its own step on the same input, and the bank's output is the sum of theirs |
| Piano.BankAtRestStaysSilent | Instrument/Piano.py:133 | a bank at rest fed zero stays at rest and outputs zero |
| Piano.PianoStep | Instrument/Piano.py:114-134 | one step keeps the line's length and the bank's size |
| Piano.PianoRun | Instrument/Piano.py:113-134 | the line and the bank keep their shape over the run, and one sample is written per step |
| Piano.PianoLineShifts | Instrument/Piano.py:129-131 | after `i` steps the line has moved `i` places toward its front |
| Piano.PianoOutputAt | Instrument/Piano.py:133-134 | output `i` is the bank's summed response at step `i` |
| Piano.StringMass | Instrument/Piano.py:106-109 | the string mass `T / (4 L^2 f^2) * L` is positive for a positive frequency and length |
| Piano.RestingResonator | Instrument/Piano.py:86-89 | a freshly made resonator is at rest |
| Piano.RestingBank | Instrument/Piano.py:84-90 | one resonator per soundboard frequency |
| Piano.NoteStart | Instrument/Piano.py:93-96 | each note starts with a fresh line of at least one sample and the carried bank |
| Piano.NoteStartCarries | Instrument/Piano.py:77-96 | only the string velocity is reset per note; the positions, the hammer velocity and the resonators carry over |
| Piano.PlayedNote | Instrument/Piano.py:93-136 | a note keeps the bank's size and produces a 44100-sample buffer |
| Piano.Recital | Instrument/Piano.py:92-138 | `k` notes give `k` buffers, threading the state from note to note |
| Piano.RecitalBuffers | Instrument/Piano.py:111-138 | every buffer of the recital has 44100 samples |
| Piano.BluePlayable | Instrument/Piano.py:92-109 | every blue fundamental with its string length gives a playable note |
| Piano.Bank | Instrument/Piano.py:84-90 | the bank is the states of the resonator objects, in order |
| Piano.ProcessAll | Instrument/Piano.py:133 | `sum(f.process(x) for f in resonators)` steps every resonator once and returns `BankStep`'s sum |
| Piano.MakeResonators | Instrument/Piano.py:84-90 | eight distinct fresh resonators whose states form the resting bank |
| Piano.Sample | Instrument/Piano.py:114-134 | one pass of the loop body computes `PianoStep` on the objects' states |
| Piano.NoteLoop | Instrument/Piano.py:113-134 | the sample loop leaves the contact, the bank and the output as `PianoRun` says |
| Piano.PlayNote | Instrument/Piano.py:93-136 | one pass of the frequency loop computes `PlayedNote` |
| Piano.Piano.constructor | Instrument/Piano.py:42-43 | a new piano has an empty collection and the blue colour |
| Piano.Piano.MakeSound | Instrument/Piano.py:45-138 | seven buffers, one per blue fundamental zipped with its string length, are appended as `Recital` says |
| Piano.Piano.Play | Instrument/Piano.py:92-138 | the zipped loop appends the recital's buffers in order and keeps the colour |
| Piano.Piano.PlayAndKeep | Instrument/Piano.py:92-138 | one more note extends the recital by one buffer and carries the state |
| JapaneseGuitar.Hanning | Instrument/JapaneseGuitar.py:99 | the window has the line's length |
| JapaneseGuitar.PickDelayInside | Instrument/JapaneseGuitar.py:98 | `int(pick_position * L) < L` |
| JapaneseGuitar.InitializedNoise | Instrument/JapaneseGuitar.py:84-103 | the windowed noise has the line's length |
| JapaneseGuitar.InitializedNoiseAt | Instrument/JapaneseGuitar.py:98-101 | sample `i` is the noise at `i` times the window rolled by the pick position, `window[(i - pos) mod L]`, times the force |
| JapaneseGuitar.Comb | Instrument/JapaneseGuitar.py:115-121 | the comb filter keeps the length |
| JapaneseGuitar.CombInverts | Instrument/JapaneseGuitar.py:118-121 | the comb filter loses nothing: `Uncomb` recovers every original sample from the filtered buffer |
| JapaneseGuitar.PickPositionFilter | Instrument/JapaneseGuitar.py:105-121 | the copy-and-subtract loop computes `Comb`, returning the buffer unchanged when the delay is 0 |
| JapaneseGuitar.PluckLoop | Instrument/JapaneseGuitar.py:68-75 | the sample loop writes exactly `AveragingRun`'s outputs with damping 0.995 |
| JapaneseGuitar.Filtered | Instrument/JapaneseGuitar.py:66-78 | the filtered output has 44100 samples |
| JapaneseGuitar.Voice | Instrument/JapaneseGuitar.py:80 | a finished buffer has 44100 samples; it is finite exactly when the filtered output is not silent, and then every sample lies in [-1, 1] and one has magnitude 1 |
| JapaneseGuitar.PlayVoice | Instrument/JapaneseGuitar.py:56-80 | one pass of the frequency loop computes `Voice` |
| JapaneseGuitar.Sounds | Instrument/JapaneseGuitar.py:55-81 | one buffer per fundamental |
| JapaneseGuitar.JapaneseGuitar.constructor | Instrument/JapaneseGuitar.py:43-44 | a new guitar has an empty collection and the green colour |
| JapaneseGuitar.JapaneseGuitar.MakeSound | Instrument/JapaneseGuitar.py:46-81 | one buffer per green fundamental is appended after what was already played |
| JapaneseGuitar.JapaneseGuitar.Play | Instrument/JapaneseGuitar.py:55-81 | the frequency loop appends `Sounds` in order and keeps the colour |
| Ukulele.TableBounds | Instrument/Ukulele.py:93-96 | for `force >= 0` every table value lies in `[0, force]` |
| Ukulele.TableValue | Instrument/Ukulele.py:92-96 | the table peaks at `force` at `Np`, and starts at 0 when `Np > 0` |
| Ukulele.TableLast | Instrument/Ukulele.py:96 | the last value is `force / (L - Np)`, not 0 |
| Ukulele.TableRises | Instrument/Ukulele.py:93-94 | before `Np` the table strictly rises |
| Ukulele.TableFalls | Instrument/Ukulele.py:95-96 | from `Np` on the table strictly falls |
| Ukulele.CreateInitialWave | Instrument/Ukulele.py:80-97 | the table has `int(delay_length)` samples, each the triangle value at its index |
| Ukulele.StringLoop | Instrument/Ukulele.py:65-69 | the deque loop writes exactly `AveragingRun`'s outputs with damping 0.996 |
| Ukulele.InitialWave | Instrument/Ukulele.py:58-61 | the initial wave has `int(fs / f)` samples |
| Ukulele.Shaped | Instrument/Ukulele.py:63-74 | the filtered and enveloped output has 44100 samples |
| Ukulele.Voice | Instrument/Ukulele.py:76 | a finished buffer has 44100 samples; when finite every sample lies in [-1, 1] and one has magnitude 1 |
| Ukulele.PlayVoice | Instrument/Ukulele.py:58-76 | one pass of the frequency loop computes `Voice` |
| Ukulele.Sounds | Instrument/Ukulele.py:57-78 | one buffer per fundamental |
| Ukulele.Ukulele.constructor | Instrument/Ukulele.py:39-45 | a new ukulele has an empty collection and the yellow colour |
| Ukulele.Ukulele.MakeSound | Instrument/Ukulele.py:47-78 | the ukulele envelope exists, and one buffer per yellow fundamental is appended after what was already played |
| Ukulele.Ukulele.Play | Instrument/Ukulele.py:57-78 | the frequency loop appends `Sounds` in order and keeps the colour |
| Vibraphone.ModeLengths | Instrument/Vibraphone.py:81-83 | one delay length per mode ratio |
| Vibraphone.ScaleResonant | Instrument/Vibraphone.py:81-84 | every blue fundamental gives every mode a line of at least two samples |
| Vibraphone.ModeOutput | Instrument/Vibraphone.py:89-95 | each mode writes 44100 samples |
| Vibraphone.Mix | Instrument/Vibraphone.py:79-95 | the mixed output has 44100 samples |
| Vibraphone.MixAt | Instrument/Vibraphone.py:79-93 | sample `n` of the mix is the weighted sum over the modes of each mode's value at `n` |
| Vibraphone.ModeWeight | Instrument/Vibraphone.py:113-124 | with `abs(sin) <= 1` and `0 < exp(y) <= 1` for `y <= 0`, a mode weighs at most 1 in magnitude |
| Vibraphone.ModeWeights | Instrument/Vibraphone.py:113-124 | one weight per mode ratio |
| Vibraphone.SilentNoteIsNonFinite | Instrument/Vibraphone.py:109 | if every mode's noise is zero, the output is silent and the division gives NaN |
| Vibraphone.SilentModesMix | Instrument/Vibraphone.py:79-95 | silent lines mix to a silent output |
| Vibraphone.ModeSampleAveraged | Instrument/Vibraphone.py:90-92 | `0.5 * (d[0] + d[1]) * damping^(1 + 0.1 i) * vibrato` is the averaging step with that sample's gain |
| Vibraphone.AddedPrefixGrows | Instrument/Vibraphone.py:93 | adding one more value into the output changes only its index |
| Vibraphone.AddedPrefixComplete | Instrument/Vibraphone.py:89-93 | after all samples the output is the old output plus the weighted mode output |
| Vibraphone.ModeStep | Instrument/Vibraphone.py:90-92 | one sample of a mode is the averaging step with the vibrato and mode damping |
| Vibraphone.AddInPlace | Instrument/Vibraphone.py:93 | `output[n] += x` changes only index `n` |
| Vibraphone.AddMode | Instrument/Vibraphone.py:89-95 | one mode's loop adds its weighted outputs to the buffer |
| Vibraphone.Voice | Instrument/Vibraphone.py:109 | a finished buffer has 44100 samples; when finite every sample lies in [-1, 1] and one has magnitude 1 |
| Vibraphone.PlayVoice | Instrument/Vibraphone.py:79-109 | one pass of the frequency loop computes `Voice` |
| Vibraphone.Sounds | Instrument/Vibraphone.py:71-111 | one buffer per fundamental |
| Vibraphone.Vibraphone.constructor | Instrument/Vibraphone.py:35-41 | a new vibraphone has an empty collection and the blue colour |
| Vibraphone.Vibraphone.MakeSound | Instrument/Vibraphone.py:43-111 | one buffer per blue fundamental is appended after what was already played |
| Vibraphone.Vibraphone.Play | Instrument/Vibraphone.py:71-111 | the frequency loop appends `Sounds` in order and keeps the colour |
| ReggaeOrgan.SinWave | Instrument/ReggaeOrgan.py:73 | the sine wave has the time axis's length |
| ReggaeOrgan.Additive | Instrument/ReggaeOrgan.py:70-75 | the running sum keeps the time axis's length |
| ReggaeOrgan.AdditiveStep | Instrument/ReggaeOrgan.py:72-75 | adding harmonic `m` to the first `m` harmonics gives the first `m + 1` |
| ReggaeOrgan.AdditiveAt | Instrument/ReggaeOrgan.py:71-75 | each sample of the vector sum is `sum(amp * sin(2 pi f h t))` at that sample's instant |
| ReggaeOrgan.StartsAtZero | Instrument/ReggaeOrgan.py:71-75 | at `t = 0` every harmonic is at phase 0, so with `sin 0 = 0` the sum is 0 |
| ReggaeOrgan.Voice | Instrument/ReggaeOrgan.py:70-77 | a finished buffer has the time axis's length |
| ReggaeOrgan.VoiceTopsAtOne | Instrument/ReggaeOrgan.py:76-77 | with a positive maximum, every sample is at most 1 and one is exactly 1; the negative side is not bounded |
| ReggaeOrgan.PlayVoice | Instrument/ReggaeOrgan.py:70-77 | one pass of the frequency loop computes `Voice` |
| ReggaeOrgan.Sounds | Instrument/ReggaeOrgan.py:69-78 | one buffer per fundamental |
| ReggaeOrgan.ReggaeOrgan.constructor | Instrument/ReggaeOrgan.py:43 | a new organ has an empty collection and the red colour |
| ReggaeOrgan.ReggaeOrgan.MakeSound | Instrument/ReggaeOrgan.py:45-78 | the organ envelope exists; one buffer per red fundamental, over the 44100-point time axis, is appended after what was already played |
| ReggaeOrgan.ReggaeOrgan.Play | Instrument/ReggaeOrgan.py:69-78 | the frequency loop appends `Sounds` in order and keeps the colour |

## Left out

- `sin`, `cos`, `exp`, `tanh`, `sqrt`, `pi` and `np.hanning` are the fields
  of a `Transcendental` parameter. Only the facts a contract needs about
  them (for example `abs(tanh) < 1`) appear, as preconditions.
- `np.random` draws are a `Draws` parameter, indexed by note and position.
  The model does not cover their distribution.
- The scipy `butter`/`lfilter` body filters of the Japanese guitar and the
  ukulele are a `ModeFilter` parameter that keeps the buffer's length.
- The electric guitar's per-sample `lfilter` runs on a fresh one-element
  list with no carried state, so it is modelled as its leading coefficient
  `b0`, a gain parameter. The Butterworth design itself is left out.
- Floating-point rounding, overflow and NaN propagation are left out. A
  division by a zero peak is kept only as the buffer-level `NonFinite`
  result.
- `print` calls in the oboe and piano are left out.
- The electric guitar's `__pickupCircuit` is left out because nothing calls
  it.
- The flute's `__jetOscillationInHalfSpace` is left out because nothing
  calls it.
- The flute's `__proposedJetOscillation` and `__alphaForJet` use complex
  arithmetic. They are the `JetModel` parameter.
- The piano's `__hammerNonliearly` is modelled, but the sample loop does not
  call it.
- Flute.PipeDelay: the equality with `int(fs / f)` holds in exact arithmetic only. With
  floating-point rounding, `fs * 2 * (c / (2 f)) / c` can truncate one lower
  than `fs / f`.
- Piano.HartzCubic: the exponent `p = 3.0` is modelled as the whole number
  3. `x ** p` with a non-integer `p` is not part of this model.
- Flute.PipeLoop: builds its output by appending samples in order, rather
  than by writing into a preallocated array; the values are the same.
- Returner.PianoResonator.constructor: `f0` and `fs` start at 0. In the
  source they do not exist until `setFrequency` and `setSamplingRate` run.
- Violin.Voice: the contract states the length, the bounds and the peak of
  a finite buffer, not the sample values, which are those of the bowed
  output. The same holds for `Oboe.Voice`, `Flute.Voice`,
  `JapaneseGuitar.Voice`, `Ukulele.Voice` and `Vibraphone.Voice`.
- ReggaeOrgan.Voice: the contract states only the length; the bounds are
  in `ReggaeOrgan.VoiceTopsAtOne`.
- Instrument.Instrument.GetSoundsInstrumentPlay: returns the collected
  buffers as a value. The source getter returns the list object itself, so
  a caller that appends through it changes the instrument; that aliasing
  is not modelled.
- Data fields that no computation reads are left out: the ukulele's
  `string_tension` and `density`, the vibraphone's `mallet_force`, and the
  electric guitar's `inductance`, `resistance` and `capatitance`, which
  feed only the unused pickup circuit.
