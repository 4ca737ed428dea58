/** The configuration, statistics and error vocabulary of the filter package
    (pkg/filter/types.go) and the pure validation of a configuration. */
module FilterTypes {
  import opened Wrappers

  // Filter type names are plain strings, as the source's FilterType is.
  const MovingAverage: string := "moving_average"
  const Median: string := "median"
  const Butterworth: string := "butterworth"

  const MinOrder: int := 1
  const MinFrequency: real := 0.0
  const MaxPoleRadius: real := 0.99
  const MinMedianWindowSize: int := 3

  /** The error values the filter package returns; wrapping constructors
      stand for the `fmt.Errorf("...: %w", err)` prefixes. */
  datatype FilterError =
    | UnsupportedFilterType(name: string)
    | WindowSizeNotPositive
    | OrderNotPositive
    | CutoffNotPositive
    | SampleRateNotPositive
    | InvalidConfiguration(cause: FilterError)
    | WindowSizeTooSmall(minimum: int, got: int)
    | CutoffAboveNyquist(cutoff: real, nyquist: real)
    | CoefficientsFailed(cause: FilterError)
    | UnstablePole(magnitude: real)
    | GainTooSmall(gain: real)
    | NotConfigured
    | UnknownFilterType(name: string)
    | ConfigureFailed(cause: FilterError)

  datatype FilterConfig = FilterConfig(
    Type: string,
    WindowSize: int,
    CutoffFreq: real,
    Order: int,
    SampleRate: real,
    Amplitude: real,
    SNR: real,
    Normalize: bool)

  /** The zero value of a configuration, which an unconfigured filter holds. */
  const ZeroConfig: FilterConfig := FilterConfig("", 0, 0.0, 0, 0.0, 0.0, 0.0, false)

  /** Whole-call summary of a `Process` call. The source's standard
      deviations and noise-reduction ratio need a square root; this record
      keeps the variances under that root instead. */
  datatype FilterStats = FilterStats(
    InputSamples: int,
    OutputSamples: int,
    InputMean: real,
    OutputMean: real,
    InputVariance: real,
    OutputVariance: real,
    InputMedian: real,
    OutputMedian: real,
    MedianShift: real)

  const ZeroStats: FilterStats := FilterStats(0, 0, 0.0, 0.0, 0.0, 0.0, 0.0, 0.0, 0.0)

  predicate IsSupportedType(ft: string)
  {
    ft == MovingAverage || ft == Median || ft == Butterworth
  }

  /** FilterType.Validate. */
  function ValidateType(ft: string): (r: Outcome<FilterError>)
    ensures r.Pass? <==> ft in {"moving_average", "median", "butterworth"}
    ensures r.Fail? ==> r.error == UnsupportedFilterType(ft)
  {
    if IsSupportedType(ft) then Pass else Fail(UnsupportedFilterType(ft))
  }

  /** FilterConfig.Validate: the type first, then the fields its kind needs. */
  function ValidateConfig(c: FilterConfig): (r: Outcome<FilterError>)
    ensures !IsSupportedType(c.Type) ==> r == Fail(UnsupportedFilterType(c.Type))
    ensures c.Type in {"moving_average", "median"} ==>
      r == (if c.WindowSize > 0 then Pass else Fail(WindowSizeNotPositive))
    ensures c.Type == "butterworth" ==>
      r == (if c.Order <= 0 then Fail(OrderNotPositive)
            else if c.CutoffFreq <= 0.0 then Fail(CutoffNotPositive)
            else if c.SampleRate <= 0.0 then Fail(SampleRateNotPositive)
            else Pass)
  {
    match ValidateType(c.Type)
    case Fail(e) => Fail(e)
    case Pass =>
      if c.Type == MovingAverage || c.Type == Median then
        if c.WindowSize <= 0 then Fail(WindowSizeNotPositive) else Pass
      else if c.Order <= 0 then Fail(OrderNotPositive)
      else if c.CutoffFreq <= 0.0 then Fail(CutoffNotPositive)
      else if c.SampleRate <= 0.0 then Fail(SampleRateNotPositive)
      else Pass
  }

  /** A valid configuration names a supported type; moving-average and median
      configurations care about nothing but the window size, Butterworth
      configurations about nothing but order, cutoff and sample rate. */
  lemma ValidationReadsOnlyItsKindsFields(c: FilterConfig, w: int, order: int, cutoff: real, rate: real)
    ensures ValidateConfig(c).Pass? ==> IsSupportedType(c.Type)
    ensures c.Type == Butterworth ==>
      ValidateConfig(c.(WindowSize := w)) == ValidateConfig(c)
    ensures c.Type in {MovingAverage, Median} ==>
      ValidateConfig(c.(Order := order, CutoffFreq := cutoff, SampleRate := rate)) == ValidateConfig(c)
  {
  }
}
