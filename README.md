# sdr-parser core in Dafny

This project models the signal-processing core of the Go toolkit sdr-parser
and proves properties of the model. Samples are `float64` in the source and
`real` here. The model covers:

- **Demodulation** (`pkg/demod/demod.go`). The AM, FM, USB and LSB detectors
  each rectify a per-index combination of samples and track the peak. They
  then rescale the output so that the peak becomes 0.7, and report gain
  metrics through the package's own loop-based `log10`. The same file holds
  `NewDemodulator` and the AM modulator.
- **Filter engines** (`pkg/filter`). These are the moving-average filter (a
  circular buffer, running sum and position), the median filter (clipped
  windows sorted in a scratch buffer) and the Butterworth filter
  (coefficient polynomials and a shift-register recursion). The package
  also holds `BaseFilter` statistics bookkeeping, configuration validation,
  the factory and the statistics helpers.
- **Processing** (`internal/processing`). This covers the automatic gain
  control, FIR design and execution, decimation and interpolation, and the
  mutable `Signal`.
- **Adapters and values**. These are the filter adapter, which turns an
  untyped parameter map into a filter, the domain `Signal` with its deep
  `Clone`, and the header logic of the WAV reader and writer.

Each Go file becomes one module. State that the source updates in place
becomes a Dafny `class` whose methods carry `modifies` clauses. The filter
buffers and the AGC gain are examples. Every loop is a `method` with
invariants and is proved equal to a specification function. The
properties are then proved about those functions as lemmas. Two examples
are streaming equivalence (`Process(a); Process(b)` ≡ `Process(a ++ b)`)
and a unit DC gain after Butterworth normalisation. The Go `Filter`
interface becomes the sum type `FilterFactory.AnyFilter`.

Transcendental functions enter as parameters:
- Butterworth digital poles are a `PoleDesign` function giving Re(z) and |z| of each pole.
- FIR sines and cosines are a `Trig` record.
- The AGC's `exp` smoothing coefficients are given reals.
- The AGC's `math.Log10` is a function argument.

Where the code behaves differently from what a reader might expect:
- The median filter rejects window sizes below 3, so window size 1 is an
  error, not the identity (`MedianFilters.ConfigureOutcome`).
- The moving-average sample counters accumulate across `Process` calls
  (`BaseFilters.AccumulateStats`). The median and Butterworth filters
  instead replace the whole statistics record, and their counters stay 0.
- A Butterworth `Configure` that fails inside coefficient calculation keeps
  the new order, cutoff, sample rate and partial `a`/`b`. It does not roll
  back. This is a defect of the source: `a` and `b` are non-empty, so the
  next `Process` passes its not-configured guard. The registers are still
  the old ones, though, and on a fresh filter they are empty. The shift of
  `x` (pkg/filter/butterworth.go:72) then goes out of range, and so does
  `f.x[j]` (line 78) after a failed reconfiguration to a larger order
  (`ButterworthFilters.StrandedAfterFailedConfigure`).
- The factory demands `WindowSize > 0` of every kind. The adapter never sets
  a window size for Butterworth, so a Butterworth adapter can never be
  configured (`FilterAdapters.ButterworthAlwaysRejected`).
- The AGC does not guard a zero sample. It divides by it, which the model
  excludes by a precondition.
- WAV header validation never looks at `BlockAlign`, so a header with
  `BlockAlign` 0 is accepted. `ReadSamples` then divides `Subchunk2Size` by
  it (pkg/reader/wav_reader.go:89), an integer division by zero
  (`WavFormat.ZeroBlockAlignPassesValidation`).

## Model

| member | source | states |
|---|---|---|
| `Demodulation.Demodulate` | pkg/demod/demod.go:51-186 | Every detector's output equals its rectified values times its gain. Its metrics are the gain, 20·log10(gain) with the package's log10, and 1/gain. |
| `Demodulation.RectifyAll` | pkg/demod/demod.go:52-63 | The first loop fills a fresh buffer with the rectified values, and `maxAmp` is their peak. |
| `Demodulation.RectifiedAt` | pkg/demod/demod.go:84-131 | Value i is \|s[i]\| (AM) or \|s[i+1]−s[i]\| (FM). USB gives \|s[i]+s[i−1]\| with nothing added at i=0. LSB gives \|s[i]−s[i+1]\| with nothing subtracted at the last index. |
| `Demodulation.ScaleInPlace` | pkg/demod/demod.go:70-72 | Scaling in place multiplies every value by the gain and keeps the length. |
| `Demodulation.Rectified` | pkg/demod/demod.go:84-96 | AM, USB and LSB keep the input length. FM needs at least one sample and gives n−1 values. |
| `Demodulation.GainPositive` | pkg/demod/demod.go:65-68 | The gain is 0.7/peak for a positive peak and 1.0 otherwise, so it is always > 0. |
| `Demodulation.OutputsNonNegative` | pkg/demod/demod.go:55-72 | Every detector output is non-negative. |
| `Demodulation.PeakBecomesSevenTenths` | pkg/demod/demod.go:59-71 | When the peak is positive, no output exceeds 0.7 and some output equals 0.7 exactly. |
| `Demodulation.SilenceGivesUnitGain` | pkg/demod/demod.go:65-68 | With all rectified values 0, the gain is 1 and every output is 0. |
| `Demodulation.MetricsConsistent` | pkg/demod/demod.go:74-78 | GainReduction·CurrentGain = 1. CompressionDB ≥ 0 exactly when the gain is ≥ 1. |
| `Demodulation.Log10` | pkg/demod/demod.go:188-202 | The two loops compute `Log10Of`: −100 for x ≤ 0, otherwise the exponent plus (m−1)/(m·ln 10) for the mantissa m. |
| `Demodulation.Normalise` | pkg/demod/demod.go:192-200 | After both loops the mantissa lies in [1, 10) and x = m·10^y. |
| `Demodulation.Up` | pkg/demod/demod.go:193-196 | Scaling up by ten until x ≥ 1 preserves x = m·10^k with k ≤ 0. |
| `Demodulation.Down` | pkg/demod/demod.go:197-200 | Scaling down by ten while x ≥ 10 preserves x = m·10^k and leaves m < 10. |
| `Demodulation.Log10OfPowerOfTen` | pkg/demod/demod.go:188-202 | log10(10^k) = k exactly for every integer k, so log10(1) = 0. |
| `Demodulation.Log10Bounds` | pkg/demod/demod.go:201 | For x > 0 the result lies in [e, e+1), where e is the decimal exponent. |
| `Demodulation.Log10Sign` | pkg/demod/demod.go:188-202 | For x > 0 the result is non-negative exactly when x ≥ 1. |
| `Demodulation.CorrectionBounds` | pkg/demod/demod.go:201 | The mantissa correction lies in [0, 1) and is 0 at m = 1. |
| `Demodulation.NewDemodulator` | pkg/demod/demod.go:204-217 | FM, USB and LSB select their own detector. Every other value, AM included, selects AM. |
| `Demodulation.AmModulate` | pkg/demod/demod.go:220-226 | result[i] = carrier[i]·(1+message[i]), with the carrier's length. |
| `Demodulation.AmModulationExtremes` | pkg/demod/demod.go:223 | A zero message returns the carrier. A message of −1 silences it. |
| `MovingAverage.MovingAverageFilter.Configure` | pkg/filter/moving_average.go:22-32 | On failure the error is returned and buffer, sum, position and base are untouched. On success the buffer is fresh and zeroed with `WindowSize` slots, and position and sum are 0. |
| `MovingAverage.MovingAverageFilter.constructor` | pkg/filter/moving_average.go:17-19 | A new filter is unconfigured: zero config and statistics, an empty buffer, sum and position 0, and every `Process` is refused with the not-configured error. |
| `MovingAverage.MovingAverageFilter.GetStats` | pkg/filter/moving_average.go:60-63 | The embedded statistics, whose running counters are never negative. |
| `MovingAverage.MovingAverageFilter.GetConfig` | pkg/filter/moving_average.go:65-67 | The embedded configuration: the zero one before a successful `Configure`, otherwise a validated one whose window size is the buffer's length. |
| `MovingAverage.MovingAverageFilter.Push` | pkg/filter/moving_average.go:46-52 | One sample overwrites the oldest slot, keeps sum = Σbuffer, wraps the position and returns the buffer average. |
| `MovingAverage.MovingAverageFilter.Process` | pkg/filter/moving_average.go:35-57 | Unconfigured gives an error. Empty input gives empty output with no state change. Otherwise the output is `Outputs(state, input)`, the new state is `Final(state, input)` and the statistics accumulate. |
| `MovingAverage.OutputsAt` | pkg/filter/moving_average.go:45-50 | output[i] is the buffer average right after sample i is written. |
| `MovingAverage.OutputsAppend` | pkg/filter/moving_average.go:45-53 | Processing a then b gives the outputs and final state of processing a ++ b. |
| `MovingAverage.FinalAppend` | pkg/filter/moving_average.go:45-53 | The state after a ++ b is the state after b, started from the state after a. |
| `MovingAverage.WindowOfOneIsIdentity` | pkg/filter/moving_average.go:46-50 | With a window of one slot the filter is the identity. |
| `MovingAverage.ConstantInputWarmUp` | pkg/filter/moving_average.go:45-53 | From a fresh state, constant input v gives k·v/W at sample k−1 for k < W, then v. |
| `MovingAverage.FinalOfConstant` | pkg/filter/moving_average.go:46-52 | From zero, k copies of v fill the first k slots, and the position is k while the window fills. |
| `MovingAverage.ExtendByOne` | pkg/filter/moving_average.go:46-50 | One more sample replaces the running sum by sum − evicted + new, over the window size. |
| `MovingAverage.Step` | pkg/filter/moving_average.go:47-52 | One step keeps the buffer length and the position within the buffer. |
| `MedianFilters.ConfigureOutcome` | pkg/filter/median.go:23-31 | Configure fails exactly when validation fails (wrapped) or the window size is below 3. |
| `MedianFilters.OddWindow` | pkg/filter/median.go:34-37 | An even window size becomes the next odd number, and an odd one is kept. |
| `MedianFilters.MedianFilter.Configure` | pkg/filter/median.go:23-44 | The outcome matches `ConfigureOutcome`. On success the window size is odd-forced, the scratch buffer is fresh and the statistics are reset. On failure nothing changes. |
| `MedianFilters.MedianFilter.constructor` | pkg/filter/median.go:18-20 | A new filter is unconfigured: window size 0 and zero statistics, and every `Process` is refused with the not-configured error. |
| `MedianFilters.MedianFilter.GetStats` | pkg/filter/median.go:97-100 | The stored statistics; since each call replaces the whole record, the sample counters are always 0. |
| `MedianFilters.MedianFilter.Process` | pkg/filter/median.go:49-94 | Unconfigured gives an error. Empty input gives empty output. Otherwise output[i] is the median of the clipped neighbourhood, and the statistics hold the input and output means, variances and medians with MedianShift = OutputMedian − InputMedian. |
| `MedianFilters.MedianFilter.MedianOfWindow` | pkg/filter/median.go:63-78 | Copying the window into the scratch buffer, sorting it and reading the middle yields the median of the neighbourhood. |
| `MedianFilters.MedianFilter.GetConfig` | pkg/filter/median.go:102-107 | The reported configuration has type median and the odd-forced window size, with every other field zero. |
| `MedianFilters.WindowBounds` | pkg/filter/median.go:63-65 | The clipped window contains index i and has at most 2h+1 samples, exactly 2h+1 away from the ends. |
| `MedianFilters.Neighbourhood` | pkg/filter/median.go:63-69 | The neighbourhood is non-empty, contains samples[i] and has at most 2h+1 elements. |
| `MedianFilters.MedianOutputs` | pkg/filter/median.go:57-79 | The output length equals the input length. |
| `MedianFilters.MedianStats` | pkg/filter/median.go:82-91 | MedianShift = OutputMedian − InputMedian, and the counters stay 0. |
| `MedianFilters.OutputWithinWindow` | pkg/filter/median.go:68-78 | Every output lies between the minimum and maximum of its window. |
| `MedianFilters.ConstantSignalUnchanged` | pkg/filter/median.go:57-79 | A constant signal passes through unchanged. |
| `ButterworthFilters.ButterworthFilter.Configure` | pkg/filter/butterworth.go:30-56 | An invalid config and a cutoff ≥ rate/2 are rejected with nothing changed. Otherwise order, cutoff and rate are stored and a and b set, even when coefficient calculation then fails. On success x and y are fresh zeroed registers of length order+1. |
| `ButterworthFilters.ConfigureOutcome` | pkg/filter/butterworth.go:30-49 | Validation errors come first and the Nyquist check second, each wrapped. Success implies both passed. |
| `ButterworthFilters.ButterworthFilter.Install` | pkg/filter/butterworth.go:42-53 | After the checks, order, cutoff and rate are stored and the coefficients computed. The registers are reset only on success. |
| `ButterworthFilters.ButterworthFilter.ResetRegisters` | pkg/filter/butterworth.go:52-53 | x gets len(b) zeros and y gets len(a) zeros. |
| `ButterworthFilters.ButterworthFilter.CalculateCoefficients` | pkg/filter/butterworth.go:104-153 | a and b become `CoefficientsFor` the design's poles, and the outcome is the one it records. |
| `ButterworthFilters.CoefficientsFor` | pkg/filter/butterworth.go:118-150 | a and b have order+1 entries with a[0] = 1, including after an unstable pole or a tiny gain. |
| `ButterworthFilters.BuildCoefficients` | pkg/filter/butterworth.go:118-150 | Both arrays start as 1. They take every pole up to the first unstable one, and b is normalised when \|Σb\| ≥ 1e-10. |
| `ButterworthFilters.ExpandPoles` | pkg/filter/butterworth.go:123-138 | The pole loop stops at the first pole with \|z\| > 0.99 and leaves both polynomials expanded up to it. |
| `ButterworthFilters.MultiplyBoth` | pkg/filter/butterworth.go:134-137 | Running i from order down to 1, a[i] += r·a[i−1] (likewise b) multiplies by (1 + r·z⁻¹) and keeps a[0]. |
| `ButterworthFilters.MulFactor` | pkg/filter/butterworth.go:134-137 | Each coefficient i > 0 gains r times its lower neighbour, and the first one is kept. |
| `ButterworthFilters.FirstUnstable` | pkg/filter/butterworth.go:127-131 | Every pole before the index is within radius 0.99, and the one at the index is not. |
| `ButterworthFilters.SumOf` | pkg/filter/butterworth.go:141-144 | The gain loop computes Σb. |
| `ButterworthFilters.DivideBy` | pkg/filter/butterworth.go:148-150 | Every coefficient is divided by the gain. |
| `ButterworthFilters.UnitDcGain` | pkg/filter/butterworth.go:141-150 | After successful normalisation Σb = 1, and b = a/Σa. |
| `ButterworthFilters.ButterworthFilter.Process` | pkg/filter/butterworth.go:59-101 | Unconfigured gives an error. Empty input gives empty output with registers untouched. Otherwise the outputs are `Outputs(a, b, registers, samples)`, the registers advance to `FinalHistory`, and the statistics hold the means and variances. |
| `ButterworthFilters.ButterworthFilter.Advance` | pkg/filter/butterworth.go:72-88 | One step shifts the sample into x[0] and outputs (Σb[j]x[j] − Σ_{j≥1}a[j]y[j−1])/a[0]. That output is shifted into y[0]. |
| `ButterworthFilters.ButterworthFilter.Run` | pkg/filter/butterworth.go:70-89 | The sample loop yields the recursion's outputs and final registers. |
| `ButterworthFilters.ShiftRight` | pkg/filter/butterworth.go:72-73 | `copy(r[1:], r); r[0] = v` moves every entry one place right and puts v in front. |
| `ButterworthFilters.FeedForwardSum` | pkg/filter/butterworth.go:77-79 | The loop computes Σ_{j<len(b)} b[j]·x[j]. |
| `ButterworthFilters.SubtractFeedBack` | pkg/filter/butterworth.go:80-82 | The loop subtracts Σ_{1≤j<len(a)} a[j]·y[j−1]. |
| `ButterworthFilters.OutputsAppend` | pkg/filter/butterworth.go:70-89 | The registers persist, so processing s then t equals processing s ++ t. |
| `ButterworthFilters.FinalAppend` | pkg/filter/butterworth.go:70-89 | The registers after s ++ t are those after t, started from the registers after s. |
| `ButterworthFilters.LastOutputIsNewest` | pkg/filter/butterworth.go:73-88 | After a step, x[0] is the last sample and y[0] the last output. |
| `ButterworthFilters.AtRestStaysAtRest` | pkg/filter/butterworth.go:70-89 | Zero registers and zero input give zero output and leave the registers zero. |
| `ButterworthFilters.StepHistory` | pkg/filter/butterworth.go:72-87 | A step keeps both register lengths, so `Process` never resizes them. |
| `ButterworthFilters.ButterworthFilter.constructor` | pkg/filter/butterworth.go:25-27 | The zero value: no coefficients, so not configured, with empty registers and order, cutoff and rate 0. |
| `ButterworthFilters.LowCutoffFailsLate` | pkg/filter/butterworth.go:36-49 | A valid second-order 50 Hz filter at 44.1 kHz passes the Nyquist check but fails in coefficient calculation: its poles, at \|z\| ≈ 0.99498, exceed radius 0.99. |
| `ButterworthFilters.StrandedAfterFailedConfigure` | pkg/filter/butterworth.go:25-62 | On a fresh filter a coefficient failure leaves the filter configured, with registers that do not fit the coefficients, so `Process`'s shift would go out of range. |
| `ButterworthFilters.ButterworthFilter.GetConfig` | pkg/filter/butterworth.go:193-200 | The reported configuration has type butterworth with the stored order, cutoff and rate, and every other field zero. |
| `ButterworthFilters.ButterworthFilter.GetStats` | pkg/filter/butterworth.go:188-191 | The stored statistics; since each call replaces the whole record, the sample counters are always 0. |
| `BaseFilters.BaseFilter.Configure` | pkg/filter/base.go:9-16 | An invalid config returns its error and leaves config and stats unchanged. A valid one is stored and the stats reset to zero. |
| `BaseFilters.BaseFilter.constructor` | pkg/filter/base.go:4-7 | The zero `BaseFilter` the moving average embeds: zero config and zero statistics, satisfying the invariant that the config is zero or validated and the counters are non-negative. |
| `BaseFilters.BaseFilter.GetStats` | pkg/filter/base.go:18-20 | The stored statistics, whose sample counters are never negative. |
| `BaseFilters.BaseFilter.GetConfig` | pkg/filter/base.go:22-24 | The stored configuration: the zero one before a successful `Configure`, and a validated one after. |
| `BaseFilters.BaseFilter.UpdateStats` | pkg/filter/base.go:26-44 | The stats become `AccumulateStats` of the old stats. |
| `BaseFilters.AccumulateStats` | pkg/filter/base.go:26-44 | The counters grow by len(input) and len(output). Each mean is overwritten only for a non-empty slice, and nothing else changes. |
| `BaseFilters.CountersAccumulate` | pkg/filter/base.go:27-28 | Two updates count as many samples as one update with the concatenations. |
| `FilterTypes.ValidateType` | pkg/filter/types.go:22-29 | Exactly moving_average, median and butterworth are accepted. |
| `FilterTypes.ValidateConfig` | pkg/filter/types.go:63-85 | The type is checked first. Moving-average and median need WindowSize > 0. Butterworth needs Order > 0, then CutoffFreq > 0, then SampleRate > 0, in that order. |
| `FilterTypes.ValidationReadsOnlyItsKindsFields` | pkg/filter/types.go:68-83 | Butterworth validation ignores WindowSize. Moving-average and median validation ignores order, cutoff and rate. |
| `FilterFactory.DefaultValidate` | pkg/filter/factory.go:11-16 | A config passes exactly when WindowSize > 0, whatever its type. |
| `FilterFactory.CreateOutcome` | pkg/filter/factory.go:35-51 | WindowSize ≤ 0 fails before the type lookup. An unregistered type fails next. Then the new filter's Configure error is wrapped. |
| `FilterFactory.CreateFilter` | pkg/filter/factory.go:35-51 | Success exactly when `CreateOutcome` passes. The constructor is chosen by the kind argument. On success the fresh engine is in its configured state: a moving average has a zero window of WindowSize entries, sum 0 and zero statistics; a median filter has an odd window of the checked size and zero statistics; a Butterworth filter holds the config's order, cutoff and rate, the `a`/`b` of `CoefficientsFor` its poles, zeroed registers of Order+1 entries and zero statistics. On failure only the error is returned. |
| `FilterFactory.ProcessWith` | pkg/filter/types.go:32-37 | `Filter.Process` dispatches to the engine's own `Process`: the output is the engine's prediction, and the engine's new state is `Processed` — after a successful call on non-empty input the moving-average window is `Final` and its counters accumulate, the Butterworth registers are `FinalHistory` and the median and Butterworth statistics are replaced; otherwise nothing changes. Configuration is never touched. |
| `FilterFactory.ButterworthNeedsWindowSize` | pkg/filter/factory.go:12 | A Butterworth filter is built only from a config that also has a positive WindowSize. |
| `FilterFactory.KindArgumentDecides` | pkg/filter/factory.go:40-46 | A median filter can be built from a config whose own Type names the moving average. |
| `Stats.CalculateMean` | pkg/filter/utils.go:12-21 | The result is 0 for empty data, otherwise sum/len. |
| `Stats.CalculateVariance` | pkg/filter/utils.go:24-35 | The result is 0 for fewer than two values, otherwise Σ(v−mean)²/(n−1), the quantity under the square root. |
| `Stats.CalculateMedian` | pkg/filter/utils.go:39-54 | The result is 0 for empty data. Otherwise the sorted copy gives its middle (odd n) or the mean of its two middles (even n). The input is a value and is not changed. |
| `Stats.SortPrefix` | pkg/filter/utils.go:48 | The sort leaves the sorted permutation in the first n cells and nothing else changed. |
| `Stats.ReadMiddle` | pkg/filter/utils.go:50-53 | Reading a sorted buffer gives the middle cell or the mean of the two middles. |
| `Stats.MeanOfConstant` | pkg/filter/utils.go:16-20 | The mean of a constant sequence is the constant. |
| `Stats.MeanWithinBounds` | pkg/filter/utils.go:12-21 | The mean lies between the minimum and maximum. |
| `Stats.VarianceFacts` | pkg/filter/utils.go:24-35 | The variance is ≥ 0, and 0 for a constant sequence. |
| `Stats.MedianWithinBounds` | pkg/filter/utils.go:39-54 | The median lies between the minimum and maximum. |
| `RealSeq.SortSeqCorrect` | pkg/filter/utils.go:48 | The reference sort is sorted, a permutation and length-preserving. |
| `AutomaticGainControl.AGC.constructor` | internal/processing/agc.go:16-25 | The parameters are stored as given and the gain starts at 1.0. |
| `AutomaticGainControl.AGC.Process` | internal/processing/agc.go:27-53 | The output is `Outputs` of the step rule from the old gain, and the gain becomes `GainAfter`, which persists. |
| `AutomaticGainControl.AGC.Step` | internal/processing/agc.go:34-47 | Attack applies when target/\|s\| > gain, release otherwise. The new gain c·g + (1−c)·target/\|s\| is then clamped. |
| `AutomaticGainControl.NextGain` | internal/processing/agc.go:35-47 | With minGain ≤ maxGain the gain after a sample lies in [minGain, maxGain]. |
| `AutomaticGainControl.Clamp` | internal/processing/agc.go:43-47 | The result lies within the limits, and values inside them are kept. |
| `AutomaticGainControl.GainWithinLimits` | internal/processing/agc.go:43-47 | After any non-empty run the gain lies in [minGain, maxGain]. |
| `AutomaticGainControl.BlendMovesTowardsDesired` | internal/processing/agc.go:35-41 | Smoothing moves the gain towards target/\|s\| without passing it. A gain below that value ends strictly between the two. |
| `AutomaticGainControl.OutputsAt` | internal/processing/agc.go:49 | output[i] is sample i times the post-clamp gain of step i. |
| `AutomaticGainControl.GainAfterAppend` | internal/processing/agc.go:33-50 | The gain after a ++ b is the gain after b, started from the gain after a. |
| `AutomaticGainControl.OutputsAppend` | internal/processing/agc.go:33-50 | Two calls give the outputs of one call on the concatenation. |
| `AutomaticGainControl.AGC.GetGainReduction` | internal/processing/agc.go:59-64 | A positive gain gives its reciprocal, and any other gain gives MaxFloat64. |
| `AutomaticGainControl.AGC.GetCompressionDB` | internal/processing/agc.go:66-71 | A positive gain gives 20·log10(gain), and any other gain gives −MaxFloat64. |
| `AutomaticGainControl.AGC.Reset` | internal/processing/agc.go:73-75 | The gain becomes exactly 1.0. |
| `AutomaticGainControl.AGC.SetTarget` | internal/processing/agc.go:77-79 | Only the target changes. |
| `AutomaticGainControl.AGC.SetAttackTime` | internal/processing/agc.go:81-83 | Only the attack time changes. |
| `AutomaticGainControl.AGC.SetReleaseTime` | internal/processing/agc.go:85-87 | Only the release time changes. |
| `AutomaticGainControl.AGC.SetGainLimits` | internal/processing/agc.go:89-92 | Only the two limits change, and the current gain is not re-clamped. |
| `FirProcessing.DesignFIR` | internal/processing/filter.go:25-79 | The taps are `Designed`: exactly numTaps coefficients, tap by tap as the design and band transforms define them. Zero taps are allowed for every window except under a high-pass design. |
| `FirProcessing.Designed` | internal/processing/filter.go:26 | The design has exactly numTaps coefficients. |
| `FirProcessing.NoTapsDesignNothing` | internal/processing/filter.go:26-31 | With no taps and a non-high-pass design, every window type is designable and the design is empty, since the tap loop never runs. |
| `FirProcessing.WindowedLowPass` | internal/processing/filter.go:31-48 | The first loop gives the windowed sinc taps; it runs for any tap count except one under a tapered window. |
| `FirProcessing.InvertSpectrum` | internal/processing/filter.go:51-55 | Every tap is negated and 1 added at index int(center). |
| `FirProcessing.OverwriteBand` | internal/processing/filter.go:56-75 | Band-pass and band-stop overwrite every tap with unwindowed sinc differences. |
| `FirProcessing.HighPassInvertsLowPass` | internal/processing/filter.go:50-55 | High-pass taps are the negated windowed low-pass taps, plus 1 at the truncated centre. |
| `FirProcessing.BandDesignsIgnoreWindow` | internal/processing/filter.go:56-75 | Band designs do not depend on the window. |
| `FirProcessing.BandStopInvertsBandPass` | internal/processing/filter.go:56-75 | The band-stop is 1 at the exact centre (odd tap counts only) minus the band-pass. |
| `FirProcessing.UnknownTypeIsLowPass` | internal/processing/filter.go:50-76 | A filter type outside the switch designs the low-pass. |
| `FirProcessing.ApplyFilter` | internal/processing/filter.go:81-95 | filtered[i] = Σ_{j<len(coeffs), j≤i} coeffs[j]·samples[i−j], with the input's length. |
| `FirProcessing.TapSum` | internal/processing/filter.go:85-90 | The inner loop computes the causal tapped sum at i. |
| `FirProcessing.UnitImpulseIsIdentity` | internal/processing/filter.go:81-95 | With coeffs = [1] the filter is the identity. |
| `FirProcessing.ConvolutionIsCausal` | internal/processing/filter.go:84-92 | Filtering a prefix gives the prefix of the filtered signal. |
| `FirProcessing.Decimate` | internal/processing/filter.go:115-121 | The length is n/factor (integer division), and decimated[i] = samples[i·factor]. |
| `FirProcessing.Interpolate` | internal/processing/filter.go:123-129 | The length is n·factor, with samples[i] at i·factor and 0 everywhere else. |
| `FirProcessing.DecimateUndoesInterpolate` | internal/processing/filter.go:115-129 | Decimate(Interpolate(s, k), k) = s for every k ≥ 1. |
| `FirProcessing.CreateDecimationFilter` | internal/processing/filter.go:97-101 | The result is a Hamming low-pass at rate/(2·factor) with 10·factor+1 taps. |
| `FirProcessing.CreateInterpolationFilter` | internal/processing/filter.go:103-113 | The taps are the decimation taps times factor, 10·factor+1 of them. |
| `FirProcessing.ScaleTaps` | internal/processing/filter.go:108-110 | Every tap is multiplied by k in place. |
| `SignalProcessing.Signal.constructor` | internal/processing/signal.go:12-17 | The samples are empty and the rate is as given. |
| `SignalProcessing.Signal.AddSample` | internal/processing/signal.go:19-21 | Exactly one sample is appended at the end. |
| `SignalProcessing.Signal.GetDuration` | internal/processing/signal.go:31-33 | duration·rate = len(Samples). |
| `SignalProcessing.Signal.Normalize` | internal/processing/signal.go:35-48 | The samples become `Normalized`: divided by the peak magnitude when it is positive, unchanged otherwise. |
| `SignalProcessing.PeakOf` | internal/processing/signal.go:36-41 | The first loop computes the peak magnitude. |
| `SignalProcessing.NormalizedPeakIsOne` | internal/processing/signal.go:35-48 | With some non-zero sample, the peak afterwards is 1 and every sign is preserved. |
| `SignalProcessing.SilenceIsUnchanged` | internal/processing/signal.go:43 | An all-zero signal is unchanged. |
| `SignalProcessing.NormalizeIdempotent` | internal/processing/signal.go:35-48 | Normalising twice is normalising once. |
| `SignalProcessing.Signal.Filter` | internal/processing/signal.go:50-62 | The samples are replaced by the same causal convolution as `ApplyFilter`. |
| `FilterAdapters.NewFilterAdapter` | internal/adapters/filters/adapter.go:18-28 | Succeeds exactly when `FilterType.Validate` accepts the type, with no filter and the zero config. |
| `FilterAdapters.GetFloat64` | internal/adapters/filters/adapter.go:33-43 | A missing key or a non-float64 value is an error. Otherwise the value is returned. |
| `FilterAdapters.GetInt` | internal/adapters/filters/adapter.go:45-58 | A float64 is truncated toward zero and an int is kept. A missing key or any other type is an error. |
| `FilterAdapters.Truncate` | internal/adapters/filters/adapter.go:50-51 | `int(f)` drops the fraction toward zero. |
| `FilterAdapters.ParamsConfig` | internal/adapters/filters/adapter.go:60-76 | Moving-average and median read `window_size`. Butterworth reads `cutoff_freq` and then `order`. The first failure decides, and nothing else is set. |
| `FilterAdapters.FilterAdapter.ValidateParams` | internal/adapters/filters/adapter.go:30-80 | `config` is replaced only when parameter validation succeeds. |
| `FilterAdapters.FilterAdapter.Configure` | internal/adapters/filters/adapter.go:82-94 | Parameter errors and factory errors are wrapped. `filter` is replaced only when the factory succeeds. |
| `FilterAdapters.FilterAdapter.Filter` | internal/adapters/filters/adapter.go:96-110 | Before a successful Configure the result is an error. Otherwise a new signal holds the wrapped filter's output at the input's rate, the adapter keeps the same filter, and that filter's engine moves to its `Processed` state for the input samples. |
| `FilterAdapters.ButterworthAlwaysRejected` | internal/adapters/filters/adapter.go:60-76 | A Butterworth config built here has WindowSize 0, so the factory always rejects it. |
| `FilterAdapters.MovingAverageParamsReachFactory` | internal/adapters/filters/adapter.go:65-68 | A moving-average adapter gets a filter exactly when `window_size` is readable and truncates to > 0. |
| `FilterAdapters.MedianParamsReachFactory` | internal/adapters/filters/adapter.go:65-68 | A median adapter gets a filter exactly when `window_size` is readable and truncates to ≥ 3. |
| `DomainSignals.Signal.constructor` | internal/domain/signal.go:10-15 | Stores exactly the given sample array (shared, not copied) and rate. |
| `DomainSignals.Signal.Duration` | internal/domain/signal.go:18-20 | duration·rate = len(Samples). |
| `DomainSignals.Signal.Clone` | internal/domain/signal.go:23-27 | The clone is fresh, with a fresh array of the same length, the same elements and the same rate. |
| `DomainSignals.WriteIntoClone` | internal/domain/signal.go:24-25 | Writing into a clone never changes the original. |
| `WavFormat.ValidateHeader` | pkg/reader/wav_reader.go:64-81 | Accepts exactly RIFF, WAVE, "fmt ", AudioFormat 1 and "data". The checks run in that order, and the first mismatch decides the error. |
| `WavFormat.LayoutFieldsNotValidated` | pkg/reader/wav_reader.go:64-81 | Channels, bit depth, alignment, rates and sizes never affect the verdict. |
| `WavFormat.SampleCount` | pkg/reader/wav_reader.go:89 | The count is Subchunk2Size / BlockAlign (integer division), and needs BlockAlign > 0. |
| `WavFormat.BuildHeader` | pkg/reader/wav_reader.go:136-152 | NumChannels is 1, BitsPerSample 16 and BlockAlign 2. ByteRate = 2·SampleRate, Subchunk2Size = 2·n and ChunkSize = 36 + Subchunk2Size, all modulo 2³². |
| `WavFormat.ZeroBlockAlignPassesValidation` | pkg/reader/wav_reader.go:64-89 | A written header with `BlockAlign` cleared to 0 still passes validation, so the division at line 89 is reachable with a zero divisor. |
| `WavFormat.WrittenHeaderReadsBack` | pkg/reader/wav_reader.go:136-152 | A written header passes validation, and unless 2·n overflows the reader expects n samples. |
| `WavFormat.HugeSignalsWrapAround` | pkg/reader/wav_reader.go:151 | At 2³¹ samples the size field wraps to 0, and the count read back is 0. |

## Left out

- Transcendental and complex maths are left out. The Butterworth pole synthesis (tangent pre-warp, sines, cosines, complex bilinear transform) is a `PoleDesign` parameter giving Re(z) and \|z\| of each pole. `GetFrequencyResponse` is not modelled. FIR sines and cosines are a `Trig` parameter.
- `FmModulate`, `UsbModulate` and `LsbModulate` are built on `sin`/`cos` and are not modelled. Neither are `GenerateCarrier`, `ApplyAM`, `ApplyFM` and `ApplySSB` in internal/processing/signal.go.
- AutomaticGainControl.AGC.Process takes the smoothing coefficients `exp(−1/(rate·time))` as given reals, so the attack and release times and the sample rate do not enter it.
- Stats.CalculateVariance stops before the square root of `calculateStdDev`. The statistics records hold variances instead of standard deviations.
- MedianFilters.MedianFilter.Process and ButterworthFilters.ButterworthFilter.Process do not compute `NoiseReduction`. It needs a square root, and it divides by zero for a constant input.
- IEEE-754 behaviour is left out: rounding, NaN, infinities and NaN ordering in the sort. The model is exact over reals, so "Σb = 1" and "peak = 0.7" hold exactly here.
- ButterworthFilters.ButterworthFilter.Process requires `RegistersFit()`. This excludes the state left by a `Configure` that failed in coefficient calculation, where the source panics with an index out of range (pkg/filter/butterworth.go:72, 78). `StrandedAfterFailedConfigure` shows that this state is reachable.
- Preconditions exclude every input on which the source panics, divides by zero or computes non-finite values. Those inputs are:
  - AGC samples equal to 0 (target/0);
  - FM demodulation of an empty slice (a negative `make` length);
  - an AM message shorter than the carrier (index out of range);
  - a tapered FIR window with exactly one tap (a float division by zero, giving NaN taps); with no taps the window is never evaluated and the design is empty;
  - a high-pass FIR design with no taps, where `coeffs[int(center)]` indexes an empty slice (internal/processing/filter.go:55);
  - a negative FIR tap count, where `make` panics (filter.go:26). `numTaps` is a `nat` here;
  - a `Decimate` or `Interpolate` factor below 1. Factor 0 divides an integer by zero in `Decimate` (filter.go:116) and indexes out of range in `Interpolate` on non-empty input (filter.go:126). A negative factor gives a negative `make` length. The exceptions are input shorter than \|factor\| for `Decimate` and empty input for `Interpolate`, where Go returns an empty slice; the model does not cover those cases;
  - a `CreateDecimationFilter` or `CreateInterpolationFilter` factor below 1. Factor 0 gives an infinite cutoff over a one-tap Hamming window (NaN taps). A negative factor gives a negative tap count, where `make` panics;
  - a zero sample rate in `GetDuration`/`Duration`, and in FIR design, where `cutoffFreq / sampleRate` divides by zero;
  - a negative `Order` reaching Butterworth coefficient synthesis;
  - a negative `WindowSize` reaching moving-average buffer allocation;
  - `uint32(sampleRate)` for rates outside [0, 2³²);
  - a WAV header with `BlockAlign` 0 reaching `SampleCount` (an integer division by zero at pkg/reader/wav_reader.go:89; validation accepts such a header).
- The `log10` approximation's accuracy against the true logarithm is not modelled. Only its exact algebraic facts are proved.
- `sort.Float64s` is a library call. It is specified by its result, the sorted permutation given by a reference insertion sort, and not by its algorithm.
- Go's `int` is 64-bit, but window sizes, lengths and `len·factor` are unbounded integers here. `uint32` wrap-around is modelled only for the WAV header fields.
- File I/O is not modelled: opening files, `readHeader`, the byte loop and EOF handling in `ReadSamples`, byte writing and float→int16 quantisation in `WriteWavFile`.
- The filter interface is a sum type over the three engines, and only `Process` is dispatched through it. `GetStats` and `GetConfig` are modelled on each engine.
- SignalProcessing.Signal holds its samples as a value sequence. The source's `GetSamples` hands out the backing slice and `Normalize` divides it in place (internal/processing/signal.go:23, 43-46), so a caller holding that slice sees the change; this aliasing is not modelled.
- `GetSamples` and `GetSampleRate` (internal/processing/signal.go:23-29) and the adapter's `GetFilterType` and `GetConfig` (internal/adapters/filters/adapter.go:112-118) are not modelled as members: the model reads those fields directly.
- AutomaticGainControl.AGC.GetCurrentGain returns the stored gain and has no contract of its own; what the gain is after each call is stated by `Process`, `Reset` and the setters.
- The command line (cmd/sdrparser/main.go, internal/cli) and the interface-only internal/ports/processor.go are outside this model.
