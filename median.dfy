/** MedianFilter of pkg/filter/median.go: for every index the median of the
    samples in a window of `windowSize` neighbours centred on it, clipped at
    both ends of the input; the window is copied into a scratch buffer and
    sorted there. */
module MedianFilters {
  import opened Wrappers
  import opened RealSeq
  import opened FilterTypes
  import opened Stats

  /** An even window size is bumped to the next odd one. */
  function OddWindow(w: int): (r: int)
    ensures r % 2 == 1
    ensures w % 2 == 1 ==> r == w
    ensures w % 2 == 0 ==> r == w + 1
  {
    if w % 2 == 0 then w + 1 else w
  }

  /** What `Configure` returns: the validation error wrapped, then the
      minimum window size, otherwise success. */
  function ConfigureOutcome(c: FilterConfig): (r: Outcome<FilterError>)
    ensures r.Pass? <==> ValidateConfig(c).Pass? && c.WindowSize >= MinMedianWindowSize
    ensures ValidateConfig(c).Fail? ==> r == Fail(InvalidConfiguration(ValidateConfig(c).error))
    ensures ValidateConfig(c).Pass? && c.WindowSize < 3 ==> r == Fail(WindowSizeTooSmall(3, c.WindowSize))
  {
    match ValidateConfig(c)
    case Fail(e) => Fail(InvalidConfiguration(e))
    case Pass =>
      if c.WindowSize < MinMedianWindowSize then Fail(WindowSizeTooSmall(MinMedianWindowSize, c.WindowSize))
      else Pass
  }

  /** First index of the window around sample i. */
  function WindowStart(i: int, h: int): int
  {
    if i - h > 0 then i - h else 0
  }

  /** One past the last index of the window around sample i. */
  function WindowEnd(n: int, i: int, h: int): int
  {
    if n < i + h + 1 then n else i + h + 1
  }

  /** The clipped window always holds sample i and at most 2h + 1 samples;
      away from the ends it holds exactly 2h + 1. */
  lemma WindowBounds(n: nat, i: nat, h: nat)
    requires i < n
    ensures 0 <= WindowStart(i, h) <= i < WindowEnd(n, i, h) <= n
    ensures WindowEnd(n, i, h) - WindowStart(i, h) <= 2 * h + 1
    ensures h <= i && i + h < n ==> WindowEnd(n, i, h) - WindowStart(i, h) == 2 * h + 1
  {
  }

  /** The samples the median of index i is taken over. */
  function Neighbourhood(samples: seq<real>, h: nat, i: nat): (r: seq<real>)
    requires i < |samples|
    ensures 0 < |r| <= 2 * h + 1
    ensures samples[i] in r
  {
    WindowBounds(|samples|, i, h);
    var r := samples[WindowStart(i, h)..WindowEnd(|samples|, i, h)];
    assert r[i - WindowStart(i, h)] == samples[i];
    r
  }

  /** The whole filtered signal: the median of every neighbourhood. */
  function MedianOutputs(samples: seq<real>, h: nat): (r: seq<real>)
    ensures |r| == |samples|
  {
    seq(|samples|, i requires 0 <= i < |samples| => MedianOf(Neighbourhood(samples, h, i)))
  }

  /** The statistics record `Process` stores: means, variances and medians
      of this call's input and output, with the counters zero. */
  function MedianStats(input: seq<real>, output: seq<real>): (r: FilterStats)
    ensures r.InputSamples == 0 && r.OutputSamples == 0
    ensures r.MedianShift == r.OutputMedian - r.InputMedian
    ensures r.InputMedian == MedianOf(input) && r.OutputMedian == MedianOf(output)
    ensures r.InputMean == Mean(input) && r.OutputMean == Mean(output)
    ensures r.InputVariance == Variance(input) && r.OutputVariance == Variance(output)
  {
    FilterStats(0, 0, Mean(input), Mean(output), Variance(input), Variance(output),
                MedianOf(input), MedianOf(output), MedianOf(output) - MedianOf(input))
  }

  /** Every output lies between the smallest and largest sample of its
      window. */
  lemma OutputWithinWindow(samples: seq<real>, h: nat, i: nat)
    requires i < |samples|
    ensures var w := Neighbourhood(samples, h, i);
      Min(w) <= MedianOutputs(samples, h)[i] <= Max(w)
  {
    MedianWithinBounds(Neighbourhood(samples, h, i));
  }

  /** A constant signal passes through unchanged. */
  lemma ConstantSignalUnchanged(n: nat, v: real, h: nat)
    ensures MedianOutputs(seq(n, _ => v), h) == seq(n, _ => v)
  {
    var c := seq(n, _ => v);
    forall i | 0 <= i < n
      ensures MedianOutputs(c, h)[i] == v
    {
      var w := Neighbourhood(c, h, i);
      assert forall k :: 0 <= k < |w| ==> w[k] == v;
      MinMaxBound(w);
      MedianWithinBounds(w);
    }
  }

  class MedianFilter {
    var windowSize: int
    var window: array<real>
    var stats: FilterStats
    ghost var Repr: set<object>

    /** Unconfigured (size 0) or an odd size of at least 3 with a scratch
        buffer of exactly that length. */
    ghost predicate Valid()
      reads this, Repr
    {
      && Repr == {this, window}
      && window.Length == windowSize
      && (windowSize == 0 || (windowSize >= MinMedianWindowSize && windowSize % 2 == 1))
      && stats.InputSamples == 0 && stats.OutputSamples == 0
    }

    /** What `Process(samples)` returns for a filter of this window size. */
    ghost function Predicted(samples: seq<real>): Result<seq<real>, FilterError>
      requires Valid()
      reads this, Repr
    {
      if windowSize == 0 then Failure(NotConfigured)
      else if |samples| == 0 then Success([])
      else Success(MedianOutputs(samples, windowSize / 2))
    }

    /** NewMedianFilter: unconfigured (window size 0), so every `Process` is
        refused until `Configure` succeeds. */
    constructor ()
      ensures Valid() && fresh(Repr)
      ensures windowSize == 0 && stats == ZeroStats
      ensures forall samples :: Predicted(samples) == Failure(NotConfigured)
    {
      windowSize := 0;
      window := new real[0];
      stats := ZeroStats;
      Repr := {this, window};
    }

    method Configure(config: FilterConfig) returns (r: Outcome<FilterError>)
      requires Valid()
      modifies Repr
      ensures Valid() && fresh(Repr - old(Repr))
      ensures r == ConfigureOutcome(config)
      ensures r.Pass? ==>
        windowSize == OddWindow(config.WindowSize) && fresh(window) && stats == ZeroStats
      ensures r.Fail? ==>
        windowSize == old(windowSize) && window == old(window) && stats == old(stats)
    {
      var v := ValidateConfig(config);
      if v.Fail? {
        return Fail(InvalidConfiguration(v.error));
      }
      if config.WindowSize < MinMedianWindowSize {
        return Fail(WindowSizeTooSmall(MinMedianWindowSize, config.WindowSize));
      }
      windowSize := config.WindowSize;
      if windowSize % 2 == 0 {
        windowSize := windowSize + 1;
      }
      window := new real[windowSize];
      stats := ZeroStats;
      Repr := {this, window};
      r := Pass;
    }

    method Process(samples: seq<real>) returns (r: Result<seq<real>, FilterError>)
      requires Valid()
      modifies window, this`stats
      ensures Valid()
      ensures r == Predicted(samples)
      ensures r.Success? && |samples| > 0 ==> stats == MedianStats(samples, r.value)
      ensures !(r.Success? && |samples| > 0) ==> stats == old(stats)
    {
      if windowSize == 0 {
        return Failure(NotConfigured);
      }
      if |samples| == 0 {
        return Success([]);
      }
      var n := |samples|;
      var result := new real[n];
      var halfWindow := windowSize / 2;
      for i := 0 to n
        modifies window, result
        invariant forall k :: 0 <= k < i ==> result[k] == MedianOf(Neighbourhood(samples, halfWindow, k))
      {
        assert 2 * halfWindow + 1 == window.Length;
        result[i] := MedianOfWindow(samples, halfWindow, i);
      }
      assert result[..] == MedianOutputs(samples, halfWindow);
      var output := result[..];
      var inMean := CalculateMean(samples);
      var inVariance := CalculateVariance(samples);
      var outMean := CalculateMean(output);
      var outVariance := CalculateVariance(output);
      var inMedian := CalculateMedian(samples);
      var outMedian := CalculateMedian(output);
      stats := FilterStats(0, 0, inMean, outMean, inVariance, outVariance,
                           inMedian, outMedian, outMedian - inMedian);
      r := Success(output);
    }

    /** One iteration of the loop in `Process`: copy the window around
        sample i into the scratch buffer, sort it there and read the middle
        (or the mean of the two middles). */
    method MedianOfWindow(samples: seq<real>, halfWindow: nat, i: nat) returns (median: real)
      requires 2 * halfWindow + 1 <= window.Length && i < |samples|
      modifies window
      ensures median == MedianOf(Neighbourhood(samples, halfWindow, i))
    {
      WindowBounds(|samples|, i, halfWindow);
      var windowStart := WindowStart(i, halfWindow);
      var windowEnd := WindowEnd(|samples|, i, halfWindow);
      var size := windowEnd - windowStart;
      for k := 0 to size
        invariant window[..k] == samples[windowStart..windowStart + k]
      {
        window[k] := samples[windowStart + k];
      }
      ghost var neighbours := window[..size];
      assert neighbours == Neighbourhood(samples, halfWindow, i);
      SortPrefix(window, size);
      SortSeqCorrect(neighbours);
      median := ReadMiddle(window, size);
    }

    /** The statistics of the last call; each call replaces the record, so
        the sample counters are always 0. */
    function GetStats(): (st: FilterStats)
      requires Valid()
      reads this, Repr
      ensures st == stats
      ensures st.InputSamples == 0 && st.OutputSamples == 0
    {
      stats
    }

    /** The configuration a median filter reports: its type and its
        (odd-forced) window size, every other field zero. */
    function GetConfig(): (c: FilterConfig)
      reads this
      ensures c.Type == Median && c.WindowSize == windowSize
      ensures c.(Type := "", WindowSize := 0) == ZeroConfig
    {
      ZeroConfig.(Type := Median, WindowSize := windowSize)
    }
  }
}
