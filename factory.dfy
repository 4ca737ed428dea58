/** FilterFactory of pkg/filter/factory.go: a window-size check that applies
    to every kind, a lookup of the requested kind, construction, and
    configuration of the new filter. Go's `Filter` interface becomes the
    sum type `AnyFilter` over the three engines. */
module FilterFactory {
  import opened Wrappers
  import opened FilterTypes
  import MovingAverage
  import MedianFilters
  import ButterworthFilters
  import BaseFilters

  /** A filter value as the `Filter` interface hands it out. */
  datatype AnyFilter =
    | MovingAverageKind(ma: MovingAverage.MovingAverageFilter)
    | MedianKind(median: MedianFilters.MedianFilter)
    | ButterworthKind(butterworth: ButterworthFilters.ButterworthFilter)

  /** DefaultConfigValidator.Validate: only the window size is looked at. */
  function DefaultValidate(c: FilterConfig): (r: Outcome<FilterError>)
    ensures r.Pass? <==> c.WindowSize > 0
    ensures r.Fail? ==> r.error == WindowSizeNotPositive
  {
    if c.WindowSize <= 0 then Fail(WindowSizeNotPositive) else Pass
  }

  /** The kinds the factory's constructor map holds. */
  predicate Registered(filterType: string)
  {
    filterType == FilterTypes.MovingAverage || filterType == FilterTypes.Median || filterType == FilterTypes.Butterworth
  }

  /** What configuring a new filter of the given kind returns. */
  function ConfigureOutcome(filterType: string, c: FilterConfig, design: ButterworthFilters.PoleDesign): Outcome<FilterError>
    requires Registered(filterType)
    requires filterType == FilterTypes.Butterworth && ValidateConfig(c).Pass? && c.CutoffFreq < c.SampleRate / 2.0 ==> c.Order >= 0
  {
    if filterType == FilterTypes.MovingAverage then ValidateConfig(c)
    else if filterType == FilterTypes.Median then MedianFilters.ConfigureOutcome(c)
    else ButterworthFilters.ConfigureOutcome(c, design)
  }

  /** What `CreateFilter` returns: the window-size error, then the unknown
      kind, then the configuration error of the new filter, each wrapped. */
  function CreateOutcome(filterType: string, c: FilterConfig, design: ButterworthFilters.PoleDesign): (r: Outcome<FilterError>)
    requires filterType == FilterTypes.Butterworth && ValidateConfig(c).Pass? && c.CutoffFreq < c.SampleRate / 2.0 ==> c.Order >= 0
    ensures c.WindowSize <= 0 ==> r == Fail(InvalidConfiguration(WindowSizeNotPositive))
    ensures c.WindowSize > 0 && !Registered(filterType) ==> r == Fail(UnknownFilterType(filterType))
    ensures r.Pass? ==> c.WindowSize > 0 && Registered(filterType) && ConfigureOutcome(filterType, c, design).Pass?
    ensures c.WindowSize > 0 && Registered(filterType) && ConfigureOutcome(filterType, c, design).Fail? ==>
      r == Fail(ConfigureFailed(ConfigureOutcome(filterType, c, design).error))
  {
    if DefaultValidate(c).Fail? then Fail(InvalidConfiguration(DefaultValidate(c).error))
    else if !Registered(filterType) then Fail(UnknownFilterType(filterType))
    else match ConfigureOutcome(filterType, c, design)
      case Fail(e) => Fail(ConfigureFailed(e))
      case Pass => Pass
  }

  /** A Butterworth filter comes out of the factory only when its
      configuration also carries a positive window size, which Butterworth
      validation itself ignores. */
  lemma ButterworthNeedsWindowSize(c: FilterConfig, design: ButterworthFilters.PoleDesign)
    requires ValidateConfig(c).Pass? && c.CutoffFreq < c.SampleRate / 2.0 ==> c.Order >= 0
    ensures CreateOutcome(FilterTypes.Butterworth, c, design).Pass? ==>
      c.WindowSize > 0 && ButterworthFilters.ConfigureOutcome(c, design).Pass?
    ensures c.WindowSize <= 0 ==> CreateOutcome(FilterTypes.Butterworth, c, design).Fail?
  {
  }

  /** The constructor is picked by the kind argument, not by the
      configuration's own Type: a median filter can be built from a
      configuration that names the moving average, as long as it validates. */
  lemma KindArgumentDecides(c: FilterConfig, design: ButterworthFilters.PoleDesign)
    requires c.Type == FilterTypes.MovingAverage && c.WindowSize >= 3
    ensures CreateOutcome(FilterTypes.Median, c, design).Pass?
  {
  }

  /** The filter object a value refers to. */
  function Owner(f: AnyFilter): set<object>
  {
    match f
    case MovingAverageKind(m) => {m}
    case MedianKind(m) => {m}
    case ButterworthKind(b) => {b}
  }

  /** The objects the filter owns, itself included. */
  ghost function Footprint(f: AnyFilter): set<object>
    reads Owner(f)
  {
    match f
    case MovingAverageKind(m) => m.Repr
    case MedianKind(m) => m.Repr
    case ButterworthKind(b) => b.Repr
  }

  /** The filter's own invariant holds, so `Process` may be called. */
  ghost predicate Ready(f: AnyFilter)
    reads Owner(f), Footprint(f)
  {
    match f
    case MovingAverageKind(m) => m.Valid()
    case MedianKind(m) => m.Valid()
    case ButterworthKind(b) => b.Valid() && b.RegistersFit()
  }

  /** What `Process(samples)` returns through the `Filter` interface. */
  ghost function PredictedBy(f: AnyFilter, samples: seq<real>): Result<seq<real>, FilterError>
    requires Ready(f)
    reads Owner(f), Footprint(f)
  {
    match f
    case MovingAverageKind(m) => m.Predicted(samples)
    case MedianKind(m) => m.Predicted(samples)
    case ButterworthKind(b) => b.Predicted(samples)
  }

  /** How a call of `Process(samples)` that returned `r` changed the engine:
      its configuration stays; for a configured engine and a non-empty
      input, the moving-average window advances to `Final`, the Butterworth
      registers to `FinalHistory`, and the statistics are updated the way
      each engine updates them; otherwise nothing changes. */
  twostate predicate Processed(f: AnyFilter, samples: seq<real>, r: Result<seq<real>, FilterError>)
    requires Ready(f)
    reads Owner(f), Footprint(f)
  {
    var changed := r.Success? && |samples| > 0;
    match f
    case MovingAverageKind(m) =>
      && m.base.config == old(m.base.config)
      && (changed ==>
            && old(MovingAverage.WellFormed(m.State()))
            && m.State() == old(MovingAverage.Final(m.State(), samples))
            && m.base.stats == BaseFilters.AccumulateStats(old(m.base.stats), samples, r.value))
      && (!changed ==> m.State() == old(m.State()) && m.base.stats == old(m.base.stats))
    case MedianKind(m) =>
      && m.windowSize == old(m.windowSize)
      && (changed ==> m.stats == MedianFilters.MedianStats(samples, r.value))
      && (!changed ==> m.stats == old(m.stats))
    case ButterworthKind(b) =>
      && b.order == old(b.order) && b.a == old(b.a) && b.b == old(b.b)
      && (changed ==>
            && old(b.Configured() && b.RegistersFit())
            && b.Registers() == old(ButterworthFilters.FinalHistory(b.a, b.b, b.Registers(), samples))
            && b.stats == ButterworthFilters.ProcessStats(samples, r.value))
      && (!changed ==> b.Registers() == old(b.Registers()) && b.stats == old(b.stats))
  }

  /** `Filter.Process`: the call dispatched to the filter's own engine. */
  method ProcessWith(f: AnyFilter, samples: seq<real>) returns (r: Result<seq<real>, FilterError>)
    requires Ready(f)
    modifies Footprint(f)
    ensures Ready(f) && Footprint(f) == old(Footprint(f))
    ensures r == old(PredictedBy(f, samples))
    ensures Processed(f, samples, r)
  {
    match f
    case MovingAverageKind(m) =>
      r := m.Process(samples);
    case MedianKind(m) =>
      r := m.Process(samples);
    case ButterworthKind(b) =>
      r := b.Process(samples);
  }

  /** The new filter is configured and of the requested kind. */
  predicate BuiltAs(f: AnyFilter, filterType: string)
  {
    match f
    case MovingAverageKind(_) => filterType == FilterTypes.MovingAverage
    case MedianKind(_) => filterType == FilterTypes.Median
    case ButterworthKind(_) => filterType == FilterTypes.Butterworth
  }

  /** FilterFactory.CreateFilter. A failed configuration yields only the
      error, never a partly built filter. */
  method CreateFilter(filterType: string, c: FilterConfig, design: ButterworthFilters.PoleDesign)
    returns (r: Result<AnyFilter, FilterError>)
    requires filterType == FilterTypes.Butterworth && ValidateConfig(c).Pass? && c.CutoffFreq < c.SampleRate / 2.0 ==> c.Order >= 0
    ensures r.Success? <==> CreateOutcome(filterType, c, design).Pass?
    ensures r.Failure? ==> Fail(r.error) == CreateOutcome(filterType, c, design)
    ensures r.Success? ==> BuiltAs(r.value, filterType) && Ready(r.value) && fresh(Footprint(r.value))
    ensures r.Success? && r.value.MovingAverageKind? ==>
      && fresh(r.value.ma) && r.value.ma.Valid() && r.value.ma.base.config == c && c.WindowSize > 0
      && r.value.ma.State() == MovingAverage.Zero(c.WindowSize) && r.value.ma.sum == 0.0
      && r.value.ma.base.stats == ZeroStats
    ensures r.Success? && r.value.MedianKind? ==>
      && fresh(r.value.median) && r.value.median.Valid()
      && r.value.median.windowSize == MedianFilters.OddWindow(c.WindowSize)
      && r.value.median.window.Length == r.value.median.windowSize
      && r.value.median.stats == ZeroStats
    ensures r.Success? && r.value.ButterworthKind? ==>
      && fresh(r.value.butterworth) && r.value.butterworth.Valid() && r.value.butterworth.RegistersFit()
      && r.value.butterworth.Configured() && c.Order >= 0
      && r.value.butterworth.order == c.Order && r.value.butterworth.cutoffFreq == c.CutoffFreq
      && r.value.butterworth.sampleRate == c.SampleRate
      && var coeffs := ButterworthFilters.CoefficientsFor(
           ButterworthFilters.Poles(design, c.Order, c.CutoffFreq, c.SampleRate));
         && r.value.butterworth.a == coeffs.a && r.value.butterworth.b == coeffs.b
         && r.value.butterworth.x[..] == ButterworthFilters.Zeros(c.Order + 1)
         && r.value.butterworth.y[..] == ButterworthFilters.Zeros(c.Order + 1)
         && r.value.butterworth.stats == ZeroStats
  {
    var v := DefaultValidate(c);
    if v.Fail? {
      return Failure(InvalidConfiguration(v.error));
    }
    if !Registered(filterType) {
      return Failure(UnknownFilterType(filterType));
    }
    if filterType == FilterTypes.MovingAverage {
      var f := new MovingAverage.MovingAverageFilter();
      var e := f.Configure(c);
      if e.Fail? {
        return Failure(ConfigureFailed(e.error));
      }
      r := Success(MovingAverageKind(f));
    } else if filterType == FilterTypes.Median {
      var f := new MedianFilters.MedianFilter();
      var e := f.Configure(c);
      if e.Fail? {
        return Failure(ConfigureFailed(e.error));
      }
      r := Success(MedianKind(f));
    } else {
      var f := new ButterworthFilters.ButterworthFilter();
      var e := f.Configure(c, design);
      if e.Fail? {
        return Failure(ConfigureFailed(e.error));
      }
      r := Success(ButterworthKind(f));
    }
  }
}
