/** FilterAdapter of internal/adapters/filters/adapter.go: turns an untyped
    parameter map into a filter configuration, builds the filter through
    the factory, and runs it over a domain signal. */
module FilterAdapters {
  import opened Wrappers
  import opened FilterTypes
  import opened FilterFactory
  import ButterworthFilters
  import DomainSignals

  /** The dynamic values a parameter map can hold: a float64, an int, or
      any other type, which every lookup refuses. */
  datatype ParamValue = FloatValue(f: real) | IntValue(i: int) | OtherValue

  type Params = map<string, ParamValue>

  /** The adapter's errors; the wrapping constructors stand for its
      `fmt.Errorf("...: %w", err)` prefixes. */
  datatype AdapterError =
    | InvalidFilterType(cause: FilterError)
    | MissingParameter(key: string)
    | NotANumber(key: string)
    | NotAnInteger(key: string)
    | InvalidParameters(reason: AdapterError)
    | CreateFailed(cause: FilterError)
    | FilterNotConfigured
    | ProcessingFailed(cause: FilterError)

  const WindowSizeKey: string := "window_size"
  const CutoffFreqKey: string := "cutoff_freq"
  const OrderKey: string := "order"

  /** Go's conversion of a float64 to int: the fraction is dropped, rounding
      toward zero. */
  function Truncate(x: real): (n: int)
    ensures x >= 0.0 ==> n >= 0 && n as real <= x < n as real + 1.0
    ensures x < 0.0 ==> n <= 0 && n as real - 1.0 < x <= n as real
  {
    if x >= 0.0 then x.Floor else -((-x).Floor)
  }

  /** getFloat64: the key must be present and hold a float64. */
  function GetFloat64(params: Params, key: string): (r: Result<real, AdapterError>)
    ensures r.Success? <==> key in params && params[key].FloatValue?
    ensures r.Success? ==> r.value == params[key].f
    ensures key !in params ==> r == Failure(MissingParameter(key))
    ensures key in params && !params[key].FloatValue? ==> r == Failure(NotANumber(key))
  {
    if key !in params then Failure(MissingParameter(key))
    else match params[key]
      case FloatValue(f) => Success(f)
      case _ => Failure(NotANumber(key))
  }

  /** getInt: the key must be present and hold a float64, which is
      truncated, or an int. */
  function GetInt(params: Params, key: string): (r: Result<int, AdapterError>)
    ensures r.Success? <==> key in params && !params[key].OtherValue?
    ensures key in params && params[key].FloatValue? ==> r == Success(Truncate(params[key].f))
    ensures key in params && params[key].IntValue? ==> r == Success(params[key].i)
    ensures key !in params ==> r == Failure(MissingParameter(key))
    ensures key in params && params[key].OtherValue? ==> r == Failure(NotAnInteger(key))
  {
    if key !in params then Failure(MissingParameter(key))
    else match params[key]
      case FloatValue(f) => Success(Truncate(f))
      case IntValue(i) => Success(i)
      case OtherValue => Failure(NotAnInteger(key))
  }

  /** The configuration validateParams builds: only the type and the
      fields the kind reads from the map are set, everything else keeps
      its zero value. */
  function ParamsConfig(filterType: string, params: Params): (r: Result<FilterConfig, AdapterError>)
    ensures r.Success? ==> r.value.Type == filterType && r.value.SampleRate == 0.0
    ensures filterType in {FilterTypes.MovingAverage, FilterTypes.Median} ==>
      && (r.Success? <==> GetInt(params, WindowSizeKey).Success?)
      && (r.Success? ==> r.value == ZeroConfig.(Type := filterType, WindowSize := GetInt(params, WindowSizeKey).value))
      && (r.Failure? ==> r.error == GetInt(params, WindowSizeKey).error)
    ensures filterType == FilterTypes.Butterworth ==>
      && (r.Success? <==> GetFloat64(params, CutoffFreqKey).Success? && GetInt(params, OrderKey).Success?)
      && (r.Success? ==> r.value == ZeroConfig.(Type := filterType,
            CutoffFreq := GetFloat64(params, CutoffFreqKey).value, Order := GetInt(params, OrderKey).value))
      && (GetFloat64(params, CutoffFreqKey).Failure? ==> r == Failure(GetFloat64(params, CutoffFreqKey).error))
    ensures !IsSupportedType(filterType) ==> r == Success(ZeroConfig.(Type := filterType))
  {
    var config := ZeroConfig.(Type := filterType);
    if filterType == FilterTypes.MovingAverage || filterType == FilterTypes.Median then
      match GetInt(params, WindowSizeKey)
      case Failure(e) => Failure(e)
      case Success(w) => Success(config.(WindowSize := w))
    else if filterType == FilterTypes.Butterworth then
      match GetFloat64(params, CutoffFreqKey)
      case Failure(e) => Failure(e)
      case Success(cutoff) =>
        match GetInt(params, OrderKey)
        case Failure(e) => Failure(e)
        case Success(order) => Success(config.(CutoffFreq := cutoff, Order := order))
    else Success(config)
  }

  /** The configuration the adapter hands to the factory never carries a
      window size for Butterworth, and the factory demands one of every
      kind: a Butterworth adapter can never be configured. */
  lemma ButterworthAlwaysRejected(params: Params, design: ButterworthFilters.PoleDesign)
    requires ParamsConfig(FilterTypes.Butterworth, params).Success?
    ensures var c := ParamsConfig(FilterTypes.Butterworth, params).value;
      && ValidateConfig(c).Fail?
      && CreateOutcome(FilterTypes.Butterworth, c, design) == Fail(InvalidConfiguration(WindowSizeNotPositive))
  {
  }

  /** A moving-average adapter reaches a filter exactly when its window
      size parameter is usable and, after truncation, positive. */
  lemma MovingAverageParamsReachFactory(params: Params, design: ButterworthFilters.PoleDesign)
    ensures var r := ParamsConfig(FilterTypes.MovingAverage, params);
      r.Success? && CreateOutcome(FilterTypes.MovingAverage, r.value, design).Pass? <==>
        GetInt(params, WindowSizeKey).Success? && GetInt(params, WindowSizeKey).value > 0
  {
  }

  /** A median adapter reaches a filter exactly when its window size
      parameter is usable and, after truncation, at least 3. */
  lemma MedianParamsReachFactory(params: Params, design: ButterworthFilters.PoleDesign)
    ensures var r := ParamsConfig(FilterTypes.Median, params);
      r.Success? && CreateOutcome(FilterTypes.Median, r.value, design).Pass? <==>
        GetInt(params, WindowSizeKey).Success? && GetInt(params, WindowSizeKey).value >= MinMedianWindowSize
  {
  }

  class FilterAdapter {
    var filter: Option<AnyFilter>
    const filterType: string
    var config: FilterConfig
    ghost var Repr: set<object>

    /** The type was validated at construction; a filter, once built,
        satisfies its own invariant and owns nothing of the adapter. */
    ghost predicate Valid()
      reads this, Repr
    {
      && this in Repr
      && IsSupportedType(filterType)
      && (filter.Some? ==>
            && Owner(filter.value) <= Repr
            && Footprint(filter.value) <= Repr
            && this !in Footprint(filter.value)
            && Ready(filter.value))
    }

    constructor (filterType: string)
      requires IsSupportedType(filterType)
      ensures Valid() && fresh(Repr)
      ensures this.filterType == filterType && filter == None && config == ZeroConfig
    {
      this.filterType := filterType;
      filter := None;
      config := ZeroConfig;
      Repr := {this};
    }

    /** validateParams: the new configuration replaces the old one only
        when every parameter the kind needs was found. */
    method ValidateParams(params: Params) returns (r: Outcome<AdapterError>)
      requires Valid()
      modifies this`config
      ensures Valid()
      ensures r.Pass? <==> ParamsConfig(filterType, params).Success?
      ensures r.Pass? ==> config == ParamsConfig(filterType, params).value
      ensures r.Fail? ==> r.error == ParamsConfig(filterType, params).error && config == old(config)
    {
      var c := ZeroConfig.(Type := filterType);
      if filterType == FilterTypes.MovingAverage || filterType == FilterTypes.Median {
        var w := GetInt(params, WindowSizeKey);
        if w.Failure? {
          return Fail(w.error);
        }
        c := c.(WindowSize := w.value);
      } else if filterType == FilterTypes.Butterworth {
        var cutoff := GetFloat64(params, CutoffFreqKey);
        if cutoff.Failure? {
          return Fail(cutoff.error);
        }
        c := c.(CutoffFreq := cutoff.value);
        var order := GetInt(params, OrderKey);
        if order.Failure? {
          return Fail(order.error);
        }
        c := c.(Order := order.value);
      }
      config := c;
      r := Pass;
    }

    /** Configure: parameters first, then the factory; the filter is
        replaced only when the factory builds one. */
    method Configure(params: Params, design: ButterworthFilters.PoleDesign) returns (r: Outcome<AdapterError>)
      requires Valid()
      modifies this
      ensures Valid() && fresh(Repr - old(Repr))
      ensures ParamsConfig(filterType, params).Failure? ==>
        && r == Fail(InvalidParameters(ParamsConfig(filterType, params).error))
        && config == old(config) && filter == old(filter)
      ensures ParamsConfig(filterType, params).Success? ==>
        && config == ParamsConfig(filterType, params).value
        && (CreateOutcome(filterType, config, design).Fail? ==>
              r == Fail(CreateFailed(CreateOutcome(filterType, config, design).error)) && filter == old(filter))
      ensures r.Pass? <==>
        ParamsConfig(filterType, params).Success? && CreateOutcome(filterType, config, design).Pass?
      ensures r.Pass? ==>
        filter.Some? && BuiltAs(filter.value, filterType) && fresh(Footprint(filter.value))
    {
      var v := ValidateParams(params);
      if v.Fail? {
        return Fail(InvalidParameters(v.error));
      }
      var f := CreateFilter(filterType, config, design);
      if f.Failure? {
        return Fail(CreateFailed(f.error));
      }
      filter := Some(f.value);
      Repr := Repr + Footprint(f.value);
      r := Pass;
    }

    /** Filter: refuses before a filter exists; otherwise runs it over the
        signal's samples and wraps the output in a new signal at the same
        rate. */
    method Filter(signal: DomainSignals.Signal) returns (r: Result<DomainSignals.Signal, AdapterError>)
      requires Valid()
      modifies Repr - {this}
      ensures Valid()
      ensures old(filter).None? ==> r == Failure(FilterNotConfigured)
      ensures old(filter).Some? ==>
        var p := old(PredictedBy(filter.value, signal.samples[..]));
        && (p.Failure? ==> r == Failure(ProcessingFailed(p.error)))
        && (p.Success? ==>
              && r.Success? && fresh(r.value) && fresh(r.value.samples)
              && r.value.samples[..] == p.value && r.value.sampleRate == old(signal.sampleRate))
      ensures old(filter).Some? ==>
        filter == old(filter) && Processed(filter.value, old(signal.samples[..]), old(PredictedBy(filter.value, signal.samples[..])))
    {
      if filter.None? {
        return Failure(FilterNotConfigured);
      }
      var rate := signal.sampleRate;
      var filtered := ProcessWith(filter.value, signal.samples[..]);
      if filtered.Failure? {
        return Failure(ProcessingFailed(filtered.error));
      }
      var s := SignalOf(filtered.value, rate);
      r := Success(s);
    }
  }

  /** A new signal over a new array holding `values` at `rate`. */
  method SignalOf(values: seq<real>, rate: real) returns (s: DomainSignals.Signal)
    ensures fresh(s) && fresh(s.samples)
    ensures s.samples[..] == values && s.sampleRate == rate
  {
    var out := new real[|values|](i requires 0 <= i < |values| => values[i]);
    s := new DomainSignals.Signal(out, rate);
  }

  /** NewFilterAdapter: an unsupported type is refused; otherwise an
      adapter with no filter and the zero configuration. */
  method NewFilterAdapter(filterType: string) returns (r: Result<FilterAdapter, AdapterError>)
    ensures r.Success? <==> ValidateType(filterType).Pass?
    ensures r.Failure? ==> r.error == InvalidFilterType(UnsupportedFilterType(filterType))
    ensures r.Success? ==>
      && fresh(r.value) && r.value.Valid() && fresh(r.value.Repr)
      && r.value.filterType == filterType && r.value.filter == None && r.value.config == ZeroConfig
  {
    var v := ValidateType(filterType);
    if v.Fail? {
      return Failure(InvalidFilterType(v.error));
    }
    var a := new FilterAdapter(filterType);
    r := Success(a);
  }
}
