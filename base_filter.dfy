/** BaseFilter of pkg/filter/base.go: the stored configuration and the
    statistics record that the moving-average filter embeds. */
module BaseFilters {
  import opened Wrappers
  import opened FilterTypes
  import opened RealSeq
  import Stats

  /** What `updateStats` makes of a statistics record: the sample counters
      grow by the lengths of this call, and each mean is replaced only when
      its sequence is non-empty. */
  function AccumulateStats(st: FilterStats, input: seq<real>, output: seq<real>): (r: FilterStats)
    ensures r.InputSamples == st.InputSamples + |input|
    ensures r.OutputSamples == st.OutputSamples + |output|
    ensures r.InputMean == if |input| > 0 then Stats.Mean(input) else st.InputMean
    ensures r.OutputMean == if |output| > 0 then Stats.Mean(output) else st.OutputMean
    ensures r.(InputSamples := st.InputSamples, OutputSamples := st.OutputSamples,
               InputMean := st.InputMean, OutputMean := st.OutputMean) == st
  {
    st.(InputSamples := st.InputSamples + |input|,
        OutputSamples := st.OutputSamples + |output|,
        InputMean := if |input| > 0 then Stats.Mean(input) else st.InputMean,
        OutputMean := if |output| > 0 then Stats.Mean(output) else st.OutputMean)
  }

  /** The counters are running totals across calls: two updates count as
      many samples as one update with the concatenated sequences. */
  lemma CountersAccumulate(st: FilterStats, in1: seq<real>, out1: seq<real>, in2: seq<real>, out2: seq<real>)
    ensures AccumulateStats(AccumulateStats(st, in1, out1), in2, out2).InputSamples
         == AccumulateStats(st, in1 + in2, out1 + out2).InputSamples
    ensures AccumulateStats(AccumulateStats(st, in1, out1), in2, out2).OutputSamples
         == AccumulateStats(st, in1 + in2, out1 + out2).OutputSamples
  {
  }

  class BaseFilter {
    var config: FilterConfig
    var stats: FilterStats

    /** The stored configuration is the zero one or one that validated, and
        the sample counters never go negative. */
    ghost predicate Valid()
      reads this
    {
      && (config == ZeroConfig || ValidateConfig(config).Pass?)
      && stats.InputSamples >= 0 && stats.OutputSamples >= 0
    }

    constructor ()
      ensures Valid()
      ensures config == ZeroConfig && stats == ZeroStats
    {
      config := ZeroConfig;
      stats := ZeroStats;
    }

    /** Stores a valid configuration and clears the statistics; an invalid
        one is returned as an error and changes nothing. */
    method Configure(c: FilterConfig) returns (r: Outcome<FilterError>)
      requires Valid()
      modifies this
      ensures Valid()
      ensures r == ValidateConfig(c)
      ensures r.Pass? ==> config == c && stats == ZeroStats
      ensures r.Fail? ==> config == old(config) && stats == old(stats)
    {
      r := ValidateConfig(c);
      if r.Fail? {
        return;
      }
      config := c;
      stats := ZeroStats;
    }

    /** The statistics record as stored; its counters are never negative. */
    function GetStats(): (st: FilterStats)
      requires Valid()
      reads this
      ensures st == stats
      ensures st.InputSamples >= 0 && st.OutputSamples >= 0
    {
      stats
    }

    /** The configuration as stored: the zero one before a successful
        `Configure`, and a validated one after. */
    function GetConfig(): (c: FilterConfig)
      requires Valid()
      reads this
      ensures c == config
      ensures c == ZeroConfig || ValidateConfig(c).Pass?
    {
      config
    }

    method UpdateStats(input: seq<real>, output: seq<real>)
      requires Valid()
      modifies this`stats
      ensures Valid()
      ensures stats == AccumulateStats(old(stats), input, output)
    {
      var sumIn, sumOut := 0.0, 0.0;
      for i := 0 to |input|
        invariant sumIn == Sum(input[..i])
        invariant stats == old(stats)
      {
        SumPrefixStep(input, i + 1);
        sumIn := sumIn + input[i];
      }
      for i := 0 to |output|
        invariant sumOut == Sum(output[..i])
        invariant stats == old(stats)
      {
        SumPrefixStep(output, i + 1);
        sumOut := sumOut + output[i];
      }
      assert input[..|input|] == input && output[..|output|] == output;
      // The loops above only read; the counters and means are written here.
      var inMean, outMean := stats.InputMean, stats.OutputMean;
      if |input| > 0 {
        inMean := sumIn / (|input| as real);
      }
      if |output| > 0 {
        outMean := sumOut / (|output| as real);
      }
      stats := stats.(InputSamples := stats.InputSamples + |input|,
                      OutputSamples := stats.OutputSamples + |output|,
                      InputMean := inMean, OutputMean := outMean);
    }
  }
}
