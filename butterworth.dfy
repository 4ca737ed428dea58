/** ButterworthFilter of pkg/filter/butterworth.go: configuration checks,
    the coefficient polynomials built from the digital poles and normalised
    to unit DC gain, and the direct-form recursion over the input and output
    history registers, which persist from one `Process` call to the next.

    The pole positions come from a tangent pre-warp, sines and cosines and a
    complex bilinear transform; they enter the model as a `PoleDesign`
    function that yields, for pole k, the real part and the magnitude of the
    digital pole. */
module ButterworthFilters {
  import opened Wrappers
  import opened RealSeq
  import opened FilterTypes
  import opened Stats

  /** The digital pole z of one analog prototype pole: Re(z) and |z|. */
  datatype DigitalPole = DigitalPole(re: real, magnitude: real)

  /** design(order, cutoffFreq, sampleRate, k) is digital pole k. */
  type PoleDesign = (int, real, real, int) -> DigitalPole

  /** Below this absolute DC gain normalisation is refused. */
  const MinGain: real := 0.0000000001

  // ---------------------------------------------------------------------
  // Coefficients

  /** The poles for a configuration, in the order the source visits them. */
  function Poles(design: PoleDesign, order: nat, cutoff: real, rate: real): (p: seq<DigitalPole>)
    ensures |p| == order
    ensures forall k :: 0 <= k < order ==> p[k] == design(order, cutoff, rate, k)
  {
    seq(order, k => design(order, cutoff, rate, k))
  }

  /** The polynomial 1 with n + 1 coefficients. */
  function Unit(n: nat): (c: seq<real>)
    ensures |c| == n + 1 && c[0] == 1.0
    ensures forall i :: 0 < i <= n ==> c[i] == 0.0
  {
    seq(n + 1, i => if i == 0 then 1.0 else 0.0)
  }

  /** Multiplication by (1 + r·z⁻¹), truncated to the same length. */
  function MulFactor(c: seq<real>, r: real): (m: seq<real>)
    requires |c| > 0
    ensures |m| == |c| && m[0] == c[0]
    ensures forall i {:trigger m[i]} :: 0 < i < |c| ==> m[i] == c[i] + r * c[i - 1]
  {
    seq(|c|, i requires 0 <= i < |c| => if i == 0 then c[0] else c[i] + r * c[i - 1])
  }

  /** The polynomial after the first k poles have been multiplied in. */
  function Expand(poles: seq<DigitalPole>, n: nat, k: nat): (c: seq<real>)
    requires k <= |poles|
    ensures |c| == n + 1 && c[0] == 1.0
    decreases k
  {
    if k == 0 then Unit(n) else MulFactor(Expand(poles, n, k - 1), poles[k - 1].re)
  }

  /** Index of the first pole outside the stability radius, |poles| if none. */
  function FirstUnstable(poles: seq<DigitalPole>): (u: nat)
    ensures u <= |poles|
    ensures forall j :: 0 <= j < u ==> poles[j].magnitude <= MaxPoleRadius
    ensures u < |poles| ==> poles[u].magnitude > MaxPoleRadius
  {
    if |poles| == 0 then 0
    else if poles[0].magnitude > MaxPoleRadius then 0
    else 1 + FirstUnstable(poles[1..])
  }

  /** Every coefficient divided by g. */
  function DivideAll(c: seq<real>, g: real): (d: seq<real>)
    requires g != 0.0
    ensures |d| == |c|
    ensures forall i :: 0 <= i < |c| ==> d[i] == c[i] / g
  {
    seq(|c|, i requires 0 <= i < |c| => c[i] / g)
  }

  /** What `calculateCoefficients` leaves in a and b, and what it returns. */
  datatype Coefficients = Coefficients(a: seq<real>, b: seq<real>, outcome: Outcome<FilterError>)

  /** The first unstable pole stops the expansion with both polynomials as
      far as they got; otherwise a gain below `MinGain` in absolute value is
      refused with both polynomials complete; otherwise b is divided by the
      sum of its coefficients. */
  function CoefficientsFor(poles: seq<DigitalPole>): (r: Coefficients)
    ensures |r.a| == |poles| + 1 && |r.b| == |poles| + 1 && r.a[0] == 1.0
  {
    var n := |poles|;
    var u := FirstUnstable(poles);
    var p := Expand(poles, n, u);
    if u < n then Coefficients(p, p, Fail(UnstablePole(poles[u].magnitude)))
    else
      var gain := Sum(p);
      if Abs(gain) < MinGain then Coefficients(p, p, Fail(GainTooSmall(gain)))
      else Coefficients(p, DivideAll(p, gain), Pass)
  }

  /** Successful coefficients have unit DC gain, Σb = 1, and b is a scaled by
      the reciprocal of Σa (the two polynomials receive identical updates). */
  lemma UnitDcGain(poles: seq<DigitalPole>)
    requires CoefficientsFor(poles).outcome.Pass?
    ensures var r := CoefficientsFor(poles);
      Sum(r.a) != 0.0 && r.b == DivideAll(r.a, Sum(r.a)) && Sum(r.b) == 1.0
  {
    var r := CoefficientsFor(poles);
    var gain := Sum(r.a);
    assert r.b == seq(|r.a|, i requires 0 <= i < |r.a| => r.a[i] / gain);
    SumDivide(r.a, gain);
  }

  // ---------------------------------------------------------------------
  // The recursion

  /** The history registers: x[j] is the input j samples ago (x[0] the
      current one), y[j] the output j + 1 samples ago. */
  datatype History = History(x: seq<real>, y: seq<real>)

  /** The registers are long enough for the coefficient arrays, and the
      leading feedback coefficient can be divided by. */
  predicate Fits(a: seq<real>, b: seq<real>, h: History)
  {
    && |a| >= 1 && a[0] != 0.0
    && |h.x| >= |b| && |h.x| >= 1
    && |h.y| >= |a| - 1 && |h.y| >= 1
  }

  /** `copy(r[1:], r); r[0] = v`: every entry moves one place right, the
      last one falls off and v enters at the front. */
  function ShiftIn(r: seq<real>, v: real): (s: seq<real>)
    requires |r| > 0
    ensures |s| == |r| && s[0] == v
    ensures forall j {:trigger s[j]} :: 0 < j < |r| ==> s[j] == r[j - 1]
  {
    [v] + r[..|r| - 1]
  }

  /** Σ_{j<n} b[j]·x[j]. */
  function FeedForward(b: seq<real>, x: seq<real>, n: nat): real
    requires n <= |b| && n <= |x|
  {
    if n == 0 then 0.0 else FeedForward(b, x, n - 1) + b[n - 1] * x[n - 1]
  }

  /** Σ_{1≤j<n} a[j]·y[j−1]. */
  function FeedBack(a: seq<real>, y: seq<real>, n: nat): real
    requires n <= |a| && n <= |y| + 1
  {
    if n <= 1 then 0.0 else FeedBack(a, y, n - 1) + a[n - 1] * y[n - 2]
  }

  /** The output for input v: (Σ b[j]·x'[j] − Σ_{j≥1} a[j]·y[j−1]) / a[0],
      where x' is the input register with v shifted in. */
  function StepOutput(a: seq<real>, b: seq<real>, h: History, v: real): real
    requires Fits(a, b, h)
  {
    (FeedForward(b, ShiftIn(h.x, v), |b|) - FeedBack(a, h.y, |a|)) / a[0]
  }

  /** Both registers after input v: v shifted into x, the output into y. */
  function StepHistory(a: seq<real>, b: seq<real>, h: History, v: real): (r: History)
    requires Fits(a, b, h)
    ensures Fits(a, b, r) && |r.x| == |h.x| && |r.y| == |h.y|
  {
    History(ShiftIn(h.x, v), ShiftIn(h.y, StepOutput(a, b, h, v)))
  }

  function FinalHistory(a: seq<real>, b: seq<real>, h: History, input: seq<real>): (r: History)
    requires Fits(a, b, h)
    ensures Fits(a, b, r) && |r.x| == |h.x| && |r.y| == |h.y|
    decreases |input|
  {
    if |input| == 0 then h
    else StepHistory(a, b, FinalHistory(a, b, h, input[..|input| - 1]), input[|input| - 1])
  }

  function Outputs(a: seq<real>, b: seq<real>, h: History, input: seq<real>): (r: seq<real>)
    requires Fits(a, b, h)
    ensures |r| == |input|
    decreases |input|
  {
    if |input| == 0 then []
    else
      var init := input[..|input| - 1];
      Outputs(a, b, h, init) + [StepOutput(a, b, FinalHistory(a, b, h, init), input[|input| - 1])]
  }

  /** The output of every step is what enters the output register. */
  lemma {:induction false} LastOutputIsNewest(a: seq<real>, b: seq<real>, h: History, input: seq<real>)
    requires Fits(a, b, h) && |input| > 0
    ensures FinalHistory(a, b, h, input).y[0] == Outputs(a, b, h, input)[|input| - 1]
    ensures FinalHistory(a, b, h, input).x[0] == input[|input| - 1]
  {
  }

  lemma {:induction false} FinalAppend(a: seq<real>, b: seq<real>, h: History, s: seq<real>, t: seq<real>)
    requires Fits(a, b, h)
    ensures FinalHistory(a, b, h, s + t) == FinalHistory(a, b, FinalHistory(a, b, h, s), t)
    decreases |t|
  {
    if |t| == 0 {
      assert s + t == s;
    } else {
      assert (s + t)[..|s + t| - 1] == s + t[..|t| - 1];
      FinalAppend(a, b, h, s, t[..|t| - 1]);
    }
  }

  /** Streaming: the registers persist, so filtering s and then t gives the
      outputs and registers of filtering s + t in one go. */
  lemma {:induction false} OutputsAppend(a: seq<real>, b: seq<real>, h: History, s: seq<real>, t: seq<real>)
    requires Fits(a, b, h)
    ensures Outputs(a, b, h, s + t) == Outputs(a, b, h, s) + Outputs(a, b, FinalHistory(a, b, h, s), t)
    ensures FinalHistory(a, b, h, s + t) == FinalHistory(a, b, FinalHistory(a, b, h, s), t)
    decreases |t|
  {
    FinalAppend(a, b, h, s, t);
    if |t| == 0 {
      assert s + t == s;
    } else {
      var t' := t[..|t| - 1];
      assert (s + t)[..|s + t| - 1] == s + t';
      OutputsAppend(a, b, h, s, t');
      FinalAppend(a, b, h, s, t');
    }
  }

  /** One more sample: the registers take one `StepHistory` and the outputs
      grow by that step's output. */
  lemma ExtendByOne(a: seq<real>, b: seq<real>, h: History, s: seq<real>, v: real)
    requires Fits(a, b, h)
    ensures FinalHistory(a, b, h, s + [v]) == StepHistory(a, b, FinalHistory(a, b, h, s), v)
    ensures Outputs(a, b, h, s + [v]) == Outputs(a, b, h, s) + [StepOutput(a, b, FinalHistory(a, b, h, s), v)]
  {
    assert (s + [v])[..|s|] == s;
  }

  /** `ExtendByOne` for the prefix of length i + 1 of a sequence. */
  lemma PrefixStep(a: seq<real>, b: seq<real>, h: History, samples: seq<real>, i: nat)
    requires Fits(a, b, h) && i < |samples|
    ensures FinalHistory(a, b, h, samples[..i + 1]) == StepHistory(a, b, FinalHistory(a, b, h, samples[..i]), samples[i])
    ensures Outputs(a, b, h, samples[..i + 1]) ==
      Outputs(a, b, h, samples[..i]) + [StepOutput(a, b, FinalHistory(a, b, h, samples[..i]), samples[i])]
  {
    assert samples[..i + 1] == samples[..i] + [samples[i]];
    ExtendByOne(a, b, h, samples[..i], samples[i]);
  }

  /** Multiplies two equal polynomials by (1 + r·z⁻¹) in place, from the
      highest coefficient down, so each step reads a not yet updated
      neighbour. */
  method MultiplyBoth(pa: array<real>, pb: array<real>, r: real)
    requires pa.Length == pb.Length && pa.Length > 0 && pa != pb && pa[..] == pb[..]
    modifies pa, pb
    ensures pa[..] == MulFactor(old(pa[..]), r) && pb[..] == pa[..]
  {
    ghost var before := pa[..];
    var i := pa.Length - 1;
    while i > 0
      invariant 0 <= i < pa.Length
      invariant forall j {:trigger pa[j]} {:trigger pb[j]} :: 0 <= j <= i ==> pa[j] == before[j] && pb[j] == before[j]
      invariant forall j {:trigger pa[j]} :: i < j < pa.Length ==>
        pa[j] == before[j] + r * before[j - 1] && pb[j] == pa[j]
    {
      pa[i] := pa[i] + r * pa[i - 1];
      pb[i] := pb[i] + r * pb[i - 1];
      i := i - 1;
    }
    var m := MulFactor(before, r);
    assert forall j {:trigger pa[j]} :: 0 <= j < pa.Length ==> pa[j] == m[j];
    assert pa[..] == m;
  }

  function Zeros(n: nat): seq<real>
  {
    seq(n, _ => 0.0)
  }

  lemma {:induction false} FeedForwardZero(b: seq<real>, n: nat, k: nat)
    requires k <= |b| && k <= n
    ensures FeedForward(b, Zeros(n), k) == 0.0
  {
    if k > 0 {
      FeedForwardZero(b, n, k - 1);
    }
  }

  lemma {:induction false} FeedBackZero(a: seq<real>, n: nat, k: nat)
    requires k <= |a| && k <= n + 1
    ensures FeedBack(a, Zeros(n), k) == 0.0
  {
    if k > 1 {
      FeedBackZero(a, n, k - 1);
    }
  }

  /** One zero sample into zero registers: zero output, registers unchanged. */
  lemma StepAtRest(a: seq<real>, b: seq<real>, nx: nat, ny: nat)
    requires Fits(a, b, History(Zeros(nx), Zeros(ny)))
    ensures StepOutput(a, b, History(Zeros(nx), Zeros(ny)), 0.0) == 0.0
    ensures StepHistory(a, b, History(Zeros(nx), Zeros(ny)), 0.0) == History(Zeros(nx), Zeros(ny))
  {
    assert ShiftIn(Zeros(nx), 0.0) == Zeros(nx);
    FeedForwardZero(b, nx, |b|);
    FeedBackZero(a, ny, |a|);
    assert ShiftIn(Zeros(ny), 0.0) == Zeros(ny);
  }

  /** A filter at rest stays at rest: zero registers and zero input give
      zero output and leave the registers zero. */
  lemma {:induction false} AtRestStaysAtRest(a: seq<real>, b: seq<real>, nx: nat, ny: nat, n: nat)
    requires Fits(a, b, History(Zeros(nx), Zeros(ny)))
    ensures Outputs(a, b, History(Zeros(nx), Zeros(ny)), Zeros(n)) == Zeros(n)
    ensures FinalHistory(a, b, History(Zeros(nx), Zeros(ny)), Zeros(n)) == History(Zeros(nx), Zeros(ny))
  {
    if n > 0 {
      assert Zeros(n)[..n - 1] == Zeros(n - 1);
      AtRestStaysAtRest(a, b, nx, ny, n - 1);
      StepAtRest(a, b, nx, ny);
      assert Zeros(n) == Zeros(n - 1) + [0.0];
    }
  }

  /** The statistics `Process` stores: means and variances of this call's
      input and output, every other field zero. */
  function ProcessStats(input: seq<real>, output: seq<real>): (r: FilterStats)
    ensures r == ZeroStats.(InputMean := Mean(input), OutputMean := Mean(output),
                            InputVariance := Variance(input), OutputVariance := Variance(output))
  {
    FilterStats(0, 0, Mean(input), Mean(output), Variance(input), Variance(output), 0.0, 0.0, 0.0)
  }

  /** What `Configure` returns. */
  function ConfigureOutcome(c: FilterConfig, design: PoleDesign): (r: Outcome<FilterError>)
    requires ValidateConfig(c).Pass? && c.CutoffFreq < c.SampleRate / 2.0 ==> c.Order >= 0
    ensures ValidateConfig(c).Fail? ==> r == Fail(InvalidConfiguration(ValidateConfig(c).error))
    ensures ValidateConfig(c).Pass? && c.CutoffFreq >= c.SampleRate / 2.0 ==>
      r == Fail(CutoffAboveNyquist(c.CutoffFreq, c.SampleRate / 2.0))
    ensures r.Pass? ==> ValidateConfig(c).Pass? && c.CutoffFreq < c.SampleRate / 2.0
  {
    match ValidateConfig(c)
    case Fail(e) => Fail(InvalidConfiguration(e))
    case Pass =>
      var nyquist := c.SampleRate / 2.0;
      if c.CutoffFreq >= nyquist then Fail(CutoffAboveNyquist(c.CutoffFreq, nyquist))
      else match CoefficientsFor(Poles(design, c.Order, c.CutoffFreq, c.SampleRate)).outcome
        case Fail(e) => Fail(CoefficientsFailed(e))
        case Pass => Pass
  }

  /** `copy(r[1:], r); r[0] = v` on a register in place. */
  method ShiftRight(r: array<real>, v: real)
    requires r.Length > 0
    modifies r
    ensures r[..] == ShiftIn(old(r[..]), v)
  {
    var i := r.Length - 1;
    while i > 0
      invariant 0 <= i < r.Length
      invariant forall j {:trigger r[j]} :: 0 <= j <= i ==> r[j] == old(r[j])
      invariant forall j {:trigger r[j]} :: i < j < r.Length ==> r[j] == old(r[j - 1])
    {
      r[i] := r[i - 1];
      i := i - 1;
    }
    r[0] := v;
  }

  /** The pole loop of `calculateCoefficients`: multiply both polynomials
      in by each pole until the first one outside the stability radius; the
      result is the index where it stopped. */
  method ExpandPoles(poles: array<DigitalPole>, na: array<real>, nb: array<real>) returns (u: nat)
    requires na.Length == nb.Length == poles.Length + 1 && na != nb
    requires na[..] == nb[..] == Unit(poles.Length)
    modifies na, nb
    ensures u == FirstUnstable(poles[..])
    ensures na[..] == nb[..] == Expand(poles[..], poles.Length, u)
  {
    ghost var ps := poles[..];
    var n := poles.Length;
    u := 0;
    while u < n
      invariant u <= FirstUnstable(ps)
      invariant na[..] == Expand(ps, n, u) && nb[..] == na[..]
    {
      var pole := poles[u];
      if pole.magnitude > MaxPoleRadius {
        return;
      }
      MultiplyBoth(na, nb, pole.re);
      u := u + 1;
    }
  }

  /** The gain loop: the sum of all coefficients. */
  method SumOf(c: array<real>) returns (gain: real)
    ensures gain == Sum(c[..])
  {
    gain := 0.0;
    for i := 0 to c.Length
      invariant gain == Sum(c[..i])
    {
      SumPrefixStep(c[..], i + 1);
      assert c[..][..i + 1] == c[..i + 1];
      gain := gain + c[i];
    }
    assert c[..c.Length] == c[..];
  }

  /** The normalisation loop: every coefficient divided by the gain. */
  method DivideBy(c: array<real>, gain: real)
    requires gain != 0.0
    modifies c
    ensures c[..] == DivideAll(old(c[..]), gain)
  {
    for i := 0 to c.Length
      invariant forall j :: 0 <= j < i ==> c[j] == old(c[j]) / gain
      invariant forall j :: i <= j < c.Length ==> c[j] == old(c[j])
    {
      c[i] := c[i] / gain;
    }
  }

  /** Both polynomials start as 1, take every pole up to the first
      unstable one, and b is normalised when the gain allows it. */
  method BuildCoefficients(poles: array<DigitalPole>) returns (na: array<real>, nb: array<real>, r: Outcome<FilterError>)
    ensures fresh(na) && fresh(nb) && na != nb
    ensures CoefficientsFor(poles[..]) == Coefficients(na[..], nb[..], r)
  {
    var n := poles.Length;
    na := new real[n + 1](_ => 0.0);
    nb := new real[n + 1](_ => 0.0);
    na[0] := 1.0;
    nb[0] := 1.0;
    assert na[..] == Unit(n) && nb[..] == Unit(n);
    var u := ExpandPoles(poles, na, nb);
    if u < n {
      return na, nb, Fail(UnstablePole(poles[u].magnitude));
    }
    var gain := SumOf(nb);
    if Abs(gain) < MinGain {
      return na, nb, Fail(GainTooSmall(gain));
    }
    DivideBy(nb, gain);
    r := Pass;
  }

  /** `make([]float64, n)`: a fresh register of n zeros. */
  method NewRegister(n: nat) returns (r: array<real>)
    ensures fresh(r) && r[..] == Zeros(n)
  {
    r := new real[n](_ => 0.0);
    assert r[..] == Zeros(n);
  }

  /** The feed-forward loop of `Process`: Σ_{j<|b|} b[j]·x[j]. */
  method FeedForwardSum(b: seq<real>, x: array<real>) returns (sum: real)
    requires |b| <= x.Length
    ensures sum == FeedForward(b, x[..], |b|)
  {
    sum := 0.0;
    for j := 0 to |b|
      invariant sum == FeedForward(b, x[..], j)
    {
      sum := sum + b[j] * x[j];
    }
  }

  /** The feedback loop of `Process`: subtracts Σ_{1≤j<|a|} a[j]·y[j−1]. */
  method SubtractFeedBack(start: real, a: seq<real>, y: array<real>) returns (sum: real)
    requires 1 <= |a| <= y.Length + 1
    ensures sum == start - FeedBack(a, y[..], |a|)
  {
    sum := start;
    for j := 1 to |a|
      invariant sum == start - FeedBack(a, y[..], j)
    {
      sum := sum - a[j] * y[j - 1];
    }
  }

  class ButterworthFilter {
    var order: int
    var cutoffFreq: real
    var sampleRate: real
    var a: seq<real>
    var b: seq<real>
    var x: array<real>
    var y: array<real>
    var stats: FilterStats
    ghost var Repr: set<object>

    /** The coefficient vectors are empty together (the source's nil slices:
        not configured) or both hold order + 1 coefficients with a[0] = 1;
        the two history registers are distinct arrays. */
    ghost predicate Valid()
      reads this
    {
      && Repr == {this, x, y} && x != y
      && stats.InputSamples == 0 && stats.OutputSamples == 0
      && |a| == |b|
      && (|a| > 0 ==> order >= 0 && |a| == order + 1 && a[0] == 1.0)
    }

    /** Coefficients are present: `Process` does not refuse. */
    predicate Configured()
      reads this
    {
      |a| > 0
    }

    /** The registers are long enough for `Process` to index them. */
    ghost predicate RegistersFit()
      reads this, x, y
    {
      Configured() ==> Fits(a, b, History(x[..], y[..]))
    }

    ghost function Registers(): History
      reads this, x, y
    {
      History(x[..], y[..])
    }

    /** What `Process(samples)` returns in the current state. */
    ghost function Predicted(samples: seq<real>): Result<seq<real>, FilterError>
      requires RegistersFit()
      reads this, x, y
    {
      if !Configured() then Failure(NotConfigured)
      else if |samples| == 0 then Success([])
      else Success(Outputs(a, b, Registers(), samples))
    }

    constructor ()
      ensures Valid() && RegistersFit() && fresh(Repr)
      ensures !Configured() && a == [] && b == [] && x.Length == 0 && y.Length == 0
      ensures order == 0 && cutoffFreq == 0.0 && sampleRate == 0.0 && stats == ZeroStats
    {
      order := 0;
      cutoffFreq := 0.0;
      sampleRate := 0.0;
      a := [];
      b := [];
      x := new real[0];
      y := new real[0];
      stats := ZeroStats;
      Repr := {this, x, y};
    }

    /** Digital poles, then a = b = 1; for each pole in turn a stability
        check and the multiplication of both polynomials by (1 + Re(z)·z⁻¹),
        high coefficients first; then the DC-gain normalisation of b. */
    method CalculateCoefficients(design: PoleDesign) returns (r: Outcome<FilterError>)
      requires order >= 0
      modifies this`a, this`b
      ensures Coefficients(a, b, r) == CoefficientsFor(Poles(design, order, cutoffFreq, sampleRate))
    {
      var n := order;
      var poles := new DigitalPole[n];
      for k := 0 to n
        invariant forall j :: 0 <= j < k ==> poles[j] == design(order, cutoffFreq, sampleRate, j)
      {
        poles[k] := design(order, cutoffFreq, sampleRate, k);
      }
      assert poles[..] == Poles(design, order, cutoffFreq, sampleRate);
      var na, nb;
      na, nb, r := BuildCoefficients(poles);
      a, b := na[..], nb[..];
    }

    method Configure(config: FilterConfig, design: PoleDesign) returns (r: Outcome<FilterError>)
      requires Valid()
      requires ValidateConfig(config).Pass? && config.CutoffFreq < config.SampleRate / 2.0 ==> config.Order >= 0
      modifies this
      ensures Valid() && fresh(Repr - old(Repr))
      ensures r == ConfigureOutcome(config, design)
      ensures stats == old(stats)
      ensures ValidateConfig(config).Fail? || config.CutoffFreq >= config.SampleRate / 2.0 ==>
        unchanged(this)
      ensures ValidateConfig(config).Pass? && config.CutoffFreq < config.SampleRate / 2.0 ==>
        && order == config.Order && cutoffFreq == config.CutoffFreq && sampleRate == config.SampleRate
        && var c := CoefficientsFor(Poles(design, order, cutoffFreq, sampleRate));
           a == c.a && b == c.b
      ensures r.Pass? ==>
        fresh(x) && fresh(y) && x[..] == Zeros(order + 1) && y[..] == Zeros(order + 1) && RegistersFit()
      ensures r.Fail? ==> x == old(x) && y == old(y) && Registers() == old(Registers())
    {
      var v := ValidateConfig(config);
      if v.Fail? {
        return Fail(InvalidConfiguration(v.error));
      }
      var nyquistFreq := config.SampleRate / 2.0;
      if config.CutoffFreq >= nyquistFreq {
        return Fail(CutoffAboveNyquist(config.CutoffFreq, nyquistFreq));
      }
      r := Install(config, design);
    }

    /** The rest of `Configure` once the configuration is accepted: store
        its parameters, compute the coefficients and, when that succeeds,
        start both registers from zero. */
    method Install(config: FilterConfig, design: PoleDesign) returns (r: Outcome<FilterError>)
      requires Valid() && config.Order >= 0
      modifies this
      ensures Valid() && fresh(Repr - old(Repr)) && stats == old(stats)
      ensures order == config.Order && cutoffFreq == config.CutoffFreq && sampleRate == config.SampleRate
      ensures var c := CoefficientsFor(Poles(design, config.Order, config.CutoffFreq, config.SampleRate));
        && a == c.a && b == c.b
        && r == (if c.outcome.Pass? then Pass else Fail(CoefficientsFailed(c.outcome.error)))
      ensures r.Pass? ==>
        fresh(x) && fresh(y) && x[..] == Zeros(order + 1) && y[..] == Zeros(order + 1) && RegistersFit()
      ensures r.Fail? ==> x == old(x) && y == old(y) && Registers() == old(Registers())
    {
      order := config.Order;
      cutoffFreq := config.CutoffFreq;
      sampleRate := config.SampleRate;
      var c := CalculateCoefficients(design);
      if c.Fail? {
        return Fail(CoefficientsFailed(c.error));
      }
      ResetRegisters();
      r := Pass;
    }

    /** `f.x = make([]float64, len(f.b)); f.y = make([]float64, len(f.a))`. */
    method ResetRegisters()
      requires Valid() && Configured()
      modifies this`x, this`y, this`Repr
      ensures Valid() && fresh(Repr - old(Repr))
      ensures fresh(x) && fresh(y) && x[..] == Zeros(order + 1) && y[..] == Zeros(order + 1)
      ensures RegistersFit()
    {
      var nx := NewRegister(|b|);
      var ny := NewRegister(|a|);
      assert Fits(a, b, History(nx[..], ny[..]));
      x, y, Repr := nx, ny, {this, nx, ny};
    }

    /** One iteration of the loop in `Process`: shift the sample into x,
        form the output from both registers, shift the output into y. */
    method Advance(sample: real) returns (out: real)
      requires Valid() && Configured() && RegistersFit()
      modifies x, y
      ensures out == StepOutput(a, b, old(Registers()), sample)
      ensures Registers() == StepHistory(a, b, old(Registers()), sample)
    {
      ghost var h := Registers();
      ShiftRight(x, sample);
      var sum := FeedForwardSum(b, x);
      sum := SubtractFeedBack(sum, a, y);
      sum := sum / a[0];
      assert sum == StepOutput(a, b, h, sample);
      ShiftRight(y, sum);
      out := sum;
    }

    /** The sample loop of `Process`, for a configured filter. */
    method Run(samples: seq<real>) returns (output: seq<real>)
      requires Valid() && Configured() && RegistersFit()
      modifies x, y
      ensures output == Outputs(a, b, old(Registers()), samples)
      ensures Registers() == FinalHistory(a, b, old(Registers()), samples)
    {
      ghost var h0 := Registers();
      output := [];
      for i := 0 to |samples|
        modifies x, y
        invariant Registers() == FinalHistory(a, b, h0, samples[..i])
        invariant output == Outputs(a, b, h0, samples[..i])
      {
        PrefixStep(a, b, h0, samples, i);
        var out := Advance(samples[i]);
        output := output + [out];
      }
      assert samples[..|samples|] == samples;
    }

    method Process(samples: seq<real>) returns (r: Result<seq<real>, FilterError>)
      requires Valid() && RegistersFit()
      modifies x, y, this`stats
      ensures Valid() && RegistersFit()
      ensures r == old(Predicted(samples))
      ensures Configured() && |samples| > 0 ==>
        && Registers() == FinalHistory(a, b, old(Registers()), samples)
        && stats == ProcessStats(samples, r.value)
      ensures !(Configured() && |samples| > 0) ==> Registers() == old(Registers()) && stats == old(stats)
    {
      if |a| == 0 || |b| == 0 {
        return Failure(NotConfigured);
      }
      if |samples| == 0 {
        return Success([]);
      }
      var output := Run(samples);
      var inMean := CalculateMean(samples);
      var inVariance := CalculateVariance(samples);
      var outMean := CalculateMean(output);
      var outVariance := CalculateVariance(output);
      stats := FilterStats(0, 0, inMean, outMean, inVariance, outVariance, 0.0, 0.0, 0.0);
      r := Success(output);
    }

    /** The statistics of the last call; each call replaces the record, so
        the sample counters are always 0. */
    function GetStats(): (st: FilterStats)
      requires Valid()
      reads this
      ensures st == stats
      ensures st.InputSamples == 0 && st.OutputSamples == 0
    {
      stats
    }

    /** The configuration a Butterworth filter reports: its type, order,
        cutoff and sample rate, every other field zero. */
    function GetConfig(): (c: FilterConfig)
      reads this
      ensures c.Type == Butterworth && c.Order == order
      ensures c.CutoffFreq == cutoffFreq && c.SampleRate == sampleRate
      ensures c.(Type := "", Order := 0, CutoffFreq := 0.0, SampleRate := 0.0) == ZeroConfig
    {
      ZeroConfig.(Type := Butterworth, Order := order, CutoffFreq := cutoffFreq, SampleRate := sampleRate)
    }
  }

  // ---------------------------------------------------------------------
  // A failed coefficient calculation strands the registers

  /** The digital poles the source's bilinear transform yields for a
      second-order 50 Hz filter at 44.1 kHz, to five places: both poles at
      Re(z) ≈ 0.99496 and |z| ≈ 0.99498, just outside the stability radius. */
  function LowCutoffDesign(): PoleDesign
  {
    (order: int, cutoff: real, rate: real, k: int) => DigitalPole(0.99496, 0.99498)
  }

  /** A second-order 50 Hz filter at 44.1 kHz passes validation and the
      Nyquist check, yet its coefficient calculation fails on the first
      pole, which lies beyond radius 0.99. */
  lemma LowCutoffFailsLate()
    ensures var c := ZeroConfig.(Type := Butterworth, Order := 2, CutoffFreq := 50.0, SampleRate := 44100.0);
      && ValidateConfig(c).Pass? && c.CutoffFreq < c.SampleRate / 2.0
      && CoefficientsFor(Poles(LowCutoffDesign(), c.Order, c.CutoffFreq, c.SampleRate)).outcome
         == Fail(UnstablePole(0.99498))
  {
    var p := Poles(LowCutoffDesign(), 2, 50.0, 44100.0);
    assert p[0].magnitude > MaxPoleRadius;
  }

  /** `Configure` does not roll back: on a fresh filter whose configuration
      is accepted but whose coefficients fail, `a` and `b` are left with
      order + 1 entries while `x` and `y` keep the constructor's empty
      registers. The not-configured guard of `Process` then lets the call
      through, and its shift of `x` indexes past the empty register. */
  method StrandedAfterFailedConfigure(config: FilterConfig, design: PoleDesign)
    returns (f: ButterworthFilter, r: Outcome<FilterError>)
    requires ValidateConfig(config).Pass? && config.CutoffFreq < config.SampleRate / 2.0 && config.Order >= 0
    requires CoefficientsFor(Poles(design, config.Order, config.CutoffFreq, config.SampleRate)).outcome.Fail?
    ensures r.Fail? && r.error.CoefficientsFailed?
    ensures f.Configured() && f.x.Length == 0 && f.y.Length == 0 && !f.RegistersFit()
  {
    f := new ButterworthFilter();
    r := f.Configure(config, design);
  }
}
