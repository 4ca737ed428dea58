/** MovingAverageFilter of pkg/filter/moving_average.go: a circular buffer of
    `WindowSize` samples, a running sum and a write position, all of which
    persist from one `Process` call to the next. */
module MovingAverage {
  import opened Wrappers
  import opened RealSeq
  import opened FilterTypes
  import opened BaseFilters

  /** The abstract streaming state: buffer contents and next write index. */
  datatype Window = Window(buffer: seq<real>, position: nat)

  predicate WellFormed(w: Window)
  {
    0 < |w.buffer| && w.position < |w.buffer|
  }

  /** Advancing a position modulo the window size wraps to 0 only at the end. */
  lemma WrapIncrement(p: nat, size: nat)
    requires p < size
    ensures (p + 1) % size == if p + 1 == size then 0 else p + 1
  {
    var q, m := (p + 1) / size, (p + 1) % size;
    assert p + 1 == q * size + m;
    if q >= 1 {
      assert q * size >= size;
    }
  }

  /** One sample: overwrite the oldest slot and advance the position,
      wrapping to the first slot after the last one. */
  function Step(w: Window, x: real): (r: Window)
    requires WellFormed(w)
    ensures WellFormed(r) && |r.buffer| == |w.buffer|
  {
    Window(w.buffer[w.position := x], if w.position + 1 == |w.buffer| then 0 else w.position + 1)
  }

  /** The state after a whole input. */
  function Final(w: Window, input: seq<real>): (r: Window)
    requires WellFormed(w)
    ensures WellFormed(r) && |r.buffer| == |w.buffer|
    decreases |input|
  {
    if |input| == 0 then w else Step(Final(w, input[..|input| - 1]), input[|input| - 1])
  }

  function Average(buffer: seq<real>): real
    requires |buffer| > 0
  {
    Sum(buffer) / (|buffer| as real)
  }

  /** The outputs for a whole input: after each sample is written, the
      average of the buffer. */
  function Outputs(w: Window, input: seq<real>): (r: seq<real>)
    requires WellFormed(w)
    ensures |r| == |input|
    decreases |input|
  {
    if |input| == 0 then []
    else Outputs(w, input[..|input| - 1]) + [Average(Final(w, input).buffer)]
  }

  /** A freshly configured window: all zeros, writing at index 0. */
  function Zero(size: nat): (w: Window)
    requires size > 0
    ensures WellFormed(w)
  {
    Window(seq(size, _ => 0.0), 0)
  }

  /** Output i is the buffer average right after sample i was written. */
  lemma {:induction false} OutputsAt(w: Window, input: seq<real>, i: nat)
    requires WellFormed(w) && i < |input|
    ensures Outputs(w, input)[i] == Average(Final(w, input[..i + 1]).buffer)
    decreases |input|
  {
    if i < |input| - 1 {
      var init := input[..|input| - 1];
      OutputsAt(w, init, i);
      assert init[..i + 1] == input[..i + 1];
    } else {
      assert input[..i + 1] == input;
    }
  }

  lemma {:induction false} FinalAppend(w: Window, a: seq<real>, b: seq<real>)
    requires WellFormed(w)
    ensures Final(w, a + b) == Final(Final(w, a), b)
    decreases |b|
  {
    if |b| == 0 {
      assert a + b == a;
    } else {
      assert (a + b)[..|a + b| - 1] == a + b[..|b| - 1];
      FinalAppend(w, a, b[..|b| - 1]);
    }
  }

  /** Streaming: processing `a` and then `b` gives the outputs and the state
      of processing `a + b` in one go. */
  lemma {:induction false} OutputsAppend(w: Window, a: seq<real>, b: seq<real>)
    requires WellFormed(w)
    ensures Outputs(w, a + b) == Outputs(w, a) + Outputs(Final(w, a), b)
    ensures Final(w, a + b) == Final(Final(w, a), b)
    decreases |b|
  {
    FinalAppend(w, a, b);
    if |b| == 0 {
      assert a + b == a;
    } else {
      assert (a + b)[..|a + b| - 1] == a + b[..|b| - 1];
      OutputsAppend(w, a, b[..|b| - 1]);
    }
  }

  lemma {:induction false} FinalOfSizeOne(w: Window, input: seq<real>)
    requires WellFormed(w) && |w.buffer| == 1 && |input| > 0
    ensures Final(w, input).buffer == [input[|input| - 1]]
  {
  }

  /** With a window of one sample the filter is the identity. */
  lemma WindowOfOneIsIdentity(w: Window, input: seq<real>)
    requires WellFormed(w) && |w.buffer| == 1
    ensures Outputs(w, input) == input
  {
    forall i | 0 <= i < |input| ensures Outputs(w, input)[i] == input[i] {
      OutputsAt(w, input, i);
      FinalOfSizeOne(w, input[..i + 1]);
      SumSingle(input[i]);
    }
  }

  /** The first `k` slots hold `v`, the rest still hold 0. */
  function PartlyFilled(size: nat, k: nat, v: real): seq<real>
  {
    seq(size, j => if j < k then v else 0.0)
  }

  lemma {:induction false} SumPartlyFilled(size: nat, k: nat, v: real)
    ensures Sum(PartlyFilled(size, k, v)) == (if k < size then k else size) as real * v
  {
    if size > 0 {
      assert PartlyFilled(size, k, v)[..size - 1] == PartlyFilled(size - 1, k, v);
      SumPartlyFilled(size - 1, k, v);
    }
  }

  lemma FillNext(size: nat, k: nat, p: nat, v: real)
    requires p < size && (k < size ==> p == k)
    ensures PartlyFilled(size, k, v)[p := v] == PartlyFilled(size, k + 1, v)
  {
  }

  /** From the zero window, k copies of v fill the first k slots (all of
      them once k reaches the window size); while filling, the position is k. */
  lemma {:induction false} FinalOfConstant(size: nat, v: real, k: nat)
    requires size > 0
    ensures Final(Zero(size), seq(k, _ => v)).buffer == PartlyFilled(size, k, v)
    ensures k < size ==> Final(Zero(size), seq(k, _ => v)).position == k
  {
    if k == 0 {
      assert seq(0, _ => v) == [];
      assert PartlyFilled(size, 0, v) == seq(size, _ => 0.0);
    } else {
      var c := seq(k, _ => v);
      assert c[..k - 1] == seq(k - 1, _ => v);
      FinalOfConstant(size, v, k - 1);
      var prev := Final(Zero(size), seq(k - 1, _ => v));
      assert Final(Zero(size), c) == Step(prev, v);
      assert prev.buffer == PartlyFilled(size, k - 1, v);
      FillNext(size, k - 1, prev.position, v);
      assert Step(prev, v).buffer == PartlyFilled(size, k, v);
    }
  }

  lemma CancelFactor(n: real, v: real)
    requires n > 0.0
    ensures n * v / n == v
  {
  }

  /** The average of a window whose first k slots hold v and the rest 0. */
  lemma AverageOfPartlyFilled(size: nat, k: nat, v: real)
    requires size > 0
    ensures Average(PartlyFilled(size, k, v))
         == if k < size then (k as real) * v / (size as real) else v
  {
    var buf := PartlyFilled(size, k, v);
    SumPartlyFilled(size, k, v);
    if k >= size {
      assert Sum(buf) == (size as real) * v;
      CancelFactor(size as real, v);
    }
  }

  /** From a freshly configured filter, a constant input v yields the
      partial-window averages k·v/W for the k-th sample while the window
      fills, then v. */
  lemma ConstantInputWarmUp(size: nat, v: real, n: nat, k: nat)
    requires size > 0 && 0 < k <= n
    ensures Outputs(Zero(size), seq(n, _ => v))[k - 1]
         == if k < size then (k as real) * v / (size as real) else v
  {
    var c := seq(n, _ => v);
    OutputsAt(Zero(size), c, k - 1);
    assert c[..k] == seq(k, _ => v);
    FinalOfConstant(size, v, k);
    AverageOfPartlyFilled(size, k, v);
  }

  /** One more sample extends the final state by a `Step` and the outputs by
      the new running sum over the window size. */
  lemma ExtendByOne(w: Window, a: seq<real>, x: real, total: real)
    requires WellFormed(w)
    requires total == Sum(Final(w, a).buffer)
    ensures Final(w, a + [x]) == Step(Final(w, a), x)
    ensures var f := Final(w, a);
      Outputs(w, a + [x]) == Outputs(w, a)
        + [(total - f.buffer[f.position] + x) / (|f.buffer| as real)]
  {
    var ax := a + [x];
    assert ax[..|a|] == a;
    var f := Final(w, a);
    SumUpdate(f.buffer, f.position, x);
  }

  class MovingAverageFilter {
    const base: BaseFilter
    var buffer: array<real>
    var sum: real
    var position: nat
    ghost var Repr: set<object>

    /** The buffer has `WindowSize` slots, the running sum is the sum of the
        buffer and the position indexes a slot. */
    ghost predicate Valid()
      reads this, Repr
    {
      && Repr == {this, base, buffer}
      && base.Valid()
      && buffer.Length == base.config.WindowSize
      && sum == Sum(buffer[..])
      && (if buffer.Length == 0 then position == 0 else position < buffer.Length)
    }

    ghost function State(): Window
      reads this, buffer
    {
      Window(buffer[..], position)
    }

    /** What `Process(input)` returns in the current state. */
    ghost function Predicted(input: seq<real>): Result<seq<real>, FilterError>
      requires Valid()
      reads this, Repr
    {
      if base.config.WindowSize == 0 then Failure(NotConfigured)
      else if |input| == 0 then Success([])
      else Success(Outputs(State(), input))
    }

    /** NewMovingAverageFilter: unconfigured, with an empty buffer, so every
        `Process` is refused until `Configure` succeeds. */
    constructor ()
      ensures Valid() && fresh(Repr)
      ensures base.config == ZeroConfig && base.stats == ZeroStats
      ensures buffer.Length == 0 && sum == 0.0 && position == 0
      ensures forall input :: Predicted(input) == Failure(NotConfigured)
    {
      base := new BaseFilter();
      buffer := new real[0];
      sum := 0.0;
      position := 0;
      Repr := {this, base, buffer};
    }

    method Configure(config: FilterConfig) returns (r: Outcome<FilterError>)
      requires Valid()
      requires ValidateConfig(config).Pass? ==> config.WindowSize >= 0
      modifies Repr
      ensures Valid() && fresh(Repr - old(Repr))
      ensures r == ValidateConfig(config)
      ensures r.Fail? ==>
        && base.config == old(base.config) && base.stats == old(base.stats)
        && buffer == old(buffer) && State() == old(State()) && sum == old(sum)
      ensures r.Pass? ==>
        && base.config == config && base.stats == ZeroStats
        && fresh(buffer) && buffer[..] == seq(config.WindowSize, _ => 0.0)
        && position == 0 && sum == 0.0
    {
      r := base.Configure(config);
      if r.Fail? {
        return;
      }
      buffer := new real[config.WindowSize](_ => 0.0);
      position := 0;
      sum := 0.0;
      Repr := {this, base, buffer};
      SumConstant(config.WindowSize, 0.0);
      assert buffer[..] == seq(config.WindowSize, _ => 0.0);
    }

    /** The body of the per-sample loop of `Process`: replace the oldest
        sample, update the running sum, advance the position and return the
        new average. */
    method Push(x: real) returns (average: real)
      requires Valid() && base.config.WindowSize > 0
      modifies this, buffer
      ensures Valid() && Repr == old(Repr) && buffer == old(buffer)
      ensures State() == Step(old(State()), x)
      ensures average == Average(State().buffer)
    {
      ghost var b, p := buffer[..], position;
      var size := base.config.WindowSize;
      SumUpdate(b, p, x);
      WrapIncrement(p, size);
      sum := sum - buffer[position];
      buffer[position] := x;
      sum := sum + x;
      average := sum / (size as real);
      position := (position + 1) % size;
      assert buffer[..] == b[p := x];
    }

    method Process(input: seq<real>) returns (r: Result<seq<real>, FilterError>)
      requires Valid()
      modifies Repr
      ensures Valid() && Repr == old(Repr)
      ensures r == old(Predicted(input))
      ensures base.config == old(base.config)
      ensures r.Success? && |input| > 0 ==>
        && State() == Final(old(State()), input)
        && base.stats == AccumulateStats(old(base.stats), input, r.value)
      ensures !(r.Success? && |input| > 0) ==>
        State() == old(State()) && base.stats == old(base.stats)
    {
      if base.config.WindowSize == 0 {
        return Failure(NotConfigured);
      }
      if |input| == 0 {
        return Success([]);
      }
      var output := new real[|input|];
      ghost var w0 := State();
      for i := 0 to |input|
        modifies this, buffer, output
        invariant Valid() && Repr == old(Repr) && buffer == old(buffer)
        invariant State() == Final(w0, input[..i])
        invariant output[..i] == Outputs(w0, input[..i])
      {
        assert input[..i + 1] == input[..i] + [input[i]];
        ExtendByOne(w0, input[..i], input[i], sum);
        output[i] := Push(input[i]);
        assert output[..i + 1] == output[..i] + [output[i]];
      }
      assert input[..|input|] == input;
      assert output[..] == output[..|input|];
      assert output[..] == Outputs(w0, input);
      base.UpdateStats(input, output[..]);
      r := Success(output[..]);
    }

    /** The embedded statistics: running counters that never go negative. */
    function GetStats(): (st: FilterStats)
      requires Valid()
      reads this, Repr
      ensures st == base.stats
      ensures st.InputSamples >= 0 && st.OutputSamples >= 0
    {
      base.GetStats()
    }

    /** The embedded configuration: zero before a successful `Configure`,
        otherwise a validated one whose window size is the buffer's length. */
    function GetConfig(): (c: FilterConfig)
      requires Valid()
      reads this, Repr
      ensures c == base.config
      ensures c.WindowSize == buffer.Length
      ensures c == ZeroConfig || ValidateConfig(c).Pass?
    {
      base.GetConfig()
    }
  }
}
