/** The automatic gain control of internal/processing/agc.go: one gain that
    follows every sample's desired level target/|s|, quickly (attack) when
    it must rise and slowly (release) otherwise, and is clamped to
    [minGain, maxGain] after every sample. The two smoothing coefficients,
    exp(−1/(sampleRate·time)) in the source, are given reals. */
module AutomaticGainControl {
  import opened RealSeq

  /** The largest finite float64, the sentinel the telemetry getters return
      for a gain that is not positive. */
  const MaxFloat64: real := 179769313486231570814527423731704356798070567525844996598917476803157260780028538760589558632766878171540458953514382464234321326889464182768467546703537516986049910576551282076245490090389328944075868508455133942304583236903222948165808559332123348274797826204144723168738177180919299881250404026184124858368.0

  /** What one processing step needs: the target level, the gain limits and
      the two smoothing coefficients. */
  datatype Rule = Rule(target: real, minGain: real, maxGain: real, attackCoeff: real, releaseCoeff: real)

  /** Smoothing coefficients as `exp` of a negative number yields them. */
  predicate Smoothing(rule: Rule)
  {
    0.0 < rule.attackCoeff < 1.0 && 0.0 < rule.releaseCoeff < 1.0
  }

  /** A zero sample would divide the target by zero. */
  predicate NonZero(samples: seq<real>)
  {
    forall i :: 0 <= i < |samples| ==> samples[i] != 0.0
  }

  /** The level the gain is drawn towards for a sample of this magnitude. */
  function Desired(rule: Rule, magnitude: real): real
    requires magnitude != 0.0
  {
    rule.target / magnitude
  }

  /** The smoothed gain before clamping: the attack coefficient when the
      desired level lies above the gain, the release coefficient otherwise. */
  function Blend(rule: Rule, gain: real, magnitude: real): real
    requires magnitude != 0.0
  {
    if rule.target / magnitude - gain > 0.0 then
      rule.attackCoeff * gain + (1.0 - rule.attackCoeff) * rule.target / magnitude
    else
      rule.releaseCoeff * gain + (1.0 - rule.releaseCoeff) * rule.target / magnitude
  }

  /** The upper limit wins over the lower one; a value inside the limits is
      kept. */
  function Clamp(g: real, minGain: real, maxGain: real): (r: real)
    ensures minGain <= maxGain ==> minGain <= r <= maxGain
    ensures minGain <= g <= maxGain ==> r == g
    ensures g > maxGain ==> r == maxGain
  {
    if g > maxGain then maxGain else if g < minGain then minGain else g
  }

  /** The gain after one sample. */
  function NextGain(rule: Rule, gain: real, sample: real): (r: real)
    requires sample != 0.0
    ensures rule.minGain <= rule.maxGain ==> rule.minGain <= r <= rule.maxGain
  {
    Clamp(Blend(rule, gain, Abs(sample)), rule.minGain, rule.maxGain)
  }

  /** c·g + (1 − c)·d lies between g and d for a coefficient c in (0, 1). */
  lemma BetweenEnds(c: real, g: real, d: real)
    requires 0.0 < c < 1.0
    ensures g < d ==> g < c * g + (1.0 - c) * d < d
    ensures d <= g ==> d <= c * g + (1.0 - c) * d <= g
  {
    var k := 1.0 - c;
    var b := c * g + k * d;
    assert k * (d - g) == k * d - k * g;
    assert c * g + k * g == g;
    assert b - g == k * (d - g);
    assert c * (d - g) == c * d - c * g;
    assert c * d + k * d == d;
    assert d - b == c * (d - g);
    if g < d {
      MulStrict(0.0, 1.0 - c, d - g);
      MulStrict(0.0, c, d - g);
    } else {
      MulMonotone(0.0, 1.0 - c, g - d);
      MulMonotone(0.0, c, g - d);
    }
  }

  /** Multiplying before dividing gives the same as dividing first. */
  lemma Regroup(a: real, t: real, m: real)
    requires m != 0.0
    ensures a * t / m == a * (t / m)
  {
    DivCancel(t, m);
    assert a * t == a * (t / m) * m;
  }

  /** The smoothing step moves the gain towards the desired level and never
      past it: strictly up when the level is above the gain (attack), down
      or not at all otherwise (release). */
  lemma BlendMovesTowardsDesired(rule: Rule, gain: real, magnitude: real)
    requires Smoothing(rule) && magnitude != 0.0
    ensures var d := Desired(rule, magnitude);
      && (gain < d ==> gain < Blend(rule, gain, magnitude) < d)
      && (d <= gain ==> d <= Blend(rule, gain, magnitude) <= gain)
  {
    var d := rule.target / magnitude;
    var c := if d - gain > 0.0 then rule.attackCoeff else rule.releaseCoeff;
    Regroup(1.0 - c, rule.target, magnitude);
    assert Blend(rule, gain, magnitude) == c * gain + (1.0 - c) * d;
    BetweenEnds(c, gain, d);
  }

  /** One step of the rule as a function of the gain and the sample,
      defined for non-zero samples. */
  function StepOf(rule: Rule): (real, real) --> real
  {
    (gain: real, sample: real) requires sample != 0.0 => NextGain(rule, gain, sample)
  }

  /** The step is defined at every sample of the run. */
  ghost predicate Defined(step: (real, real) --> real, samples: seq<real>)
  {
    forall gain: real, i :: 0 <= i < |samples| ==> step.requires(gain, samples[i])
  }

  /** The gain after every sample of a run, starting from g0. */
  function GainAfter(step: (real, real) --> real, g0: real, samples: seq<real>): real
    requires Defined(step, samples)
  {
    if |samples| == 0 then g0
    else
      assert Defined(step, samples[..|samples| - 1]);
      step(GainAfter(step, g0, samples[..|samples| - 1]), samples[|samples| - 1])
  }

  /** A sample times a gain. */
  function Amplified(sample: real, gain: real): real
  {
    sample * gain
  }

  /** Each sample times the gain just computed for it. */
  function Outputs(step: (real, real) --> real, g0: real, samples: seq<real>): (r: seq<real>)
    requires Defined(step, samples)
    ensures |r| == |samples|
  {
    if |samples| == 0 then []
    else
      assert Defined(step, samples[..|samples| - 1]);
      Outputs(step, g0, samples[..|samples| - 1]) + [Amplified(samples[|samples| - 1], GainAfter(step, g0, samples))]
  }

  /** Output i is sample i times the gain of step i. */
  lemma {:induction false} OutputsAt(step: (real, real) --> real, g0: real, samples: seq<real>, i: nat)
    requires Defined(step, samples) && i < |samples|
    ensures Defined(step, samples[..i + 1])
    ensures Outputs(step, g0, samples)[i] == Amplified(samples[i], GainAfter(step, g0, samples[..i + 1]))
    decreases |samples|
  {
    assert Defined(step, samples[..i + 1]);
    if i < |samples| - 1 {
      var front := samples[..|samples| - 1];
      assert Defined(step, front);
      OutputsAt(step, g0, front, i);
      assert front[..i + 1] == samples[..i + 1];
    } else {
      assert samples[..i + 1] == samples;
    }
  }

  /** Under the AGC rule the step is defined at every non-zero sample. */
  lemma DefinedWhenNonZero(rule: Rule, samples: seq<real>)
    requires NonZero(samples)
    ensures Defined(StepOf(rule), samples)
  {
  }

  /** After at least one sample the gain lies within the limits. */
  lemma GainWithinLimits(rule: Rule, g0: real, samples: seq<real>)
    requires NonZero(samples) && |samples| > 0 && rule.minGain <= rule.maxGain
    ensures Defined(StepOf(rule), samples)
    ensures rule.minGain <= GainAfter(StepOf(rule), g0, samples) <= rule.maxGain
  {
    DefinedWhenNonZero(rule, samples);
    var front := samples[..|samples| - 1];
    DefinedWhenNonZero(rule, front);
    var g := GainAfter(StepOf(rule), g0, front);
    assert GainAfter(StepOf(rule), g0, samples) == NextGain(rule, g, samples[|samples| - 1]);
  }

  /** The gain is carried from one run into the next. */
  lemma {:induction false} GainAfterAppend(step: (real, real) --> real, g0: real, a: seq<real>, b: seq<real>)
    requires Defined(step, a) && Defined(step, b)
    ensures Defined(step, a + b)
    ensures GainAfter(step, g0, a + b) == GainAfter(step, GainAfter(step, g0, a), b)
    decreases |b|
  {
    assert Defined(step, a + b);
    if |b| > 0 {
      var b' := b[..|b| - 1];
      assert Defined(step, b');
      assert (a + b)[..|a + b| - 1] == a + b';
      GainAfterAppend(step, g0, a, b');
    } else {
      assert a + b == a;
    }
  }

  /** Two runs give the outputs of one run over the concatenation. */
  lemma {:induction false} OutputsAppend(step: (real, real) --> real, g0: real, a: seq<real>, b: seq<real>)
    requires Defined(step, a) && Defined(step, b)
    ensures Defined(step, a + b)
    ensures Outputs(step, g0, a + b) == Outputs(step, g0, a) + Outputs(step, GainAfter(step, g0, a), b)
    decreases |b|
  {
    assert Defined(step, a + b);
    if |b| > 0 {
      var b' := b[..|b| - 1];
      assert Defined(step, b');
      assert (a + b)[..|a + b| - 1] == a + b';
      OutputsAppend(step, g0, a, b');
      GainAfterAppend(step, g0, a, b);
    } else {
      assert a + b == a;
    }
  }

  /** One more sample extends both the gain and the outputs. */
  lemma PrefixStep(step: (real, real) --> real, g0: real, samples: seq<real>, i: nat)
    requires Defined(step, samples) && i < |samples|
    ensures Defined(step, samples[..i + 1]) && Defined(step, samples[..i])
    ensures GainAfter(step, g0, samples[..i + 1]) == step(GainAfter(step, g0, samples[..i]), samples[i])
    ensures Outputs(step, g0, samples[..i + 1]) ==
      Outputs(step, g0, samples[..i]) + [Amplified(samples[i], GainAfter(step, g0, samples[..i + 1]))]
  {
    var t := samples[..i + 1];
    assert Defined(step, t) && Defined(step, samples[..i]);
    assert t[..|t| - 1] == samples[..i];
    assert t[|t| - 1] == samples[i];
  }

  class AGC {
    var attackTime: real
    var releaseTime: real
    var target: real
    var maxGain: real
    var minGain: real
    var currentGain: real

    /** NewAGC: the parameters as given, unit gain. */
    constructor (attackTime: real, releaseTime: real, target: real, maxGain: real, minGain: real)
      ensures this.attackTime == attackTime && this.releaseTime == releaseTime
      ensures this.target == target && this.maxGain == maxGain && this.minGain == minGain
      ensures currentGain == 1.0
    {
      this.attackTime := attackTime;
      this.releaseTime := releaseTime;
      this.target := target;
      this.maxGain := maxGain;
      this.minGain := minGain;
      currentGain := 1.0;
    }

    /** The rule the current parameters give with these coefficients. */
    function RuleWith(attackCoeff: real, releaseCoeff: real): Rule
      reads this
    {
      Rule(target, minGain, maxGain, attackCoeff, releaseCoeff)
    }

    /** Process: one step per sample, the output being the sample times
        the clamped gain; the gain persists into the next call. */
    method Process(samples: seq<real>, attackCoeff: real, releaseCoeff: real) returns (output: seq<real>)
      requires NonZero(samples)
      modifies this`currentGain
      ensures Defined(StepOf(RuleWith(attackCoeff, releaseCoeff)), samples)
      ensures output == Outputs(StepOf(RuleWith(attackCoeff, releaseCoeff)), old(currentGain), samples)
      ensures currentGain == GainAfter(StepOf(RuleWith(attackCoeff, releaseCoeff)), old(currentGain), samples)
    {
      ghost var step := StepOf(RuleWith(attackCoeff, releaseCoeff));
      DefinedWhenNonZero(RuleWith(attackCoeff, releaseCoeff), samples);
      ghost var g0 := currentGain;
      var out := new real[|samples|];
      for i := 0 to |samples|
        invariant Defined(step, samples[..i])
        invariant out[..i] == Outputs(step, g0, samples[..i])
        invariant currentGain == GainAfter(step, g0, samples[..i])
      {
        PrefixStep(step, g0, samples, i);
        var sample := samples[i];
        currentGain := Step(sample, attackCoeff, releaseCoeff);
        out[i] := Amplified(sample, currentGain);
        assert out[..i + 1] == out[..i] + [out[i]];
      }
      assert samples[..|samples|] == samples;
      output := out[..];
    }

    /** The body of the loop in `Process` for one sample. */
    method Step(sample: real, attackCoeff: real, releaseCoeff: real) returns (gain: real)
      requires sample != 0.0
      ensures gain == NextGain(RuleWith(attackCoeff, releaseCoeff), currentGain, sample)
    {
      var magnitude := Abs(sample);
      var error := target / magnitude - currentGain;
      if error > 0.0 {
        gain := attackCoeff * currentGain + (1.0 - attackCoeff) * target / magnitude;
      } else {
        gain := releaseCoeff * currentGain + (1.0 - releaseCoeff) * target / magnitude;
      }
      assert gain == Blend(RuleWith(attackCoeff, releaseCoeff), currentGain, magnitude);
      if gain > maxGain {
        gain := maxGain;
      } else if gain < minGain {
        gain := minGain;
      }
    }

    function GetCurrentGain(): real
      reads this
    {
      currentGain
    }

    /** 1/gain for a positive gain, otherwise the largest float64. */
    function GetGainReduction(): (r: real)
      reads this
      ensures currentGain > 0.0 ==> r * currentGain == 1.0 && r > 0.0
      ensures currentGain <= 0.0 ==> r == MaxFloat64
    {
      if currentGain > 0.0 then 1.0 / currentGain else MaxFloat64
    }

    /** 20·log10(gain) for a positive gain, otherwise minus the largest
        float64; the logarithm is a parameter. */
    function GetCompressionDB(log10: real -> real): (r: real)
      reads this
      ensures currentGain > 0.0 ==> r == 20.0 * log10(currentGain)
      ensures currentGain <= 0.0 ==> r == -MaxFloat64
    {
      if currentGain > 0.0 then 20.0 * log10(currentGain) else -MaxFloat64
    }

    method Reset()
      modifies this`currentGain
      ensures currentGain == 1.0
    {
      currentGain := 1.0;
    }

    method SetTarget(target: real)
      modifies this`target
      ensures this.target == target
    {
      this.target := target;
    }

    method SetAttackTime(attackTime: real)
      modifies this`attackTime
      ensures this.attackTime == attackTime
    {
      this.attackTime := attackTime;
    }

    method SetReleaseTime(releaseTime: real)
      modifies this`releaseTime
      ensures this.releaseTime == releaseTime
    {
      this.releaseTime := releaseTime;
    }

    /** The new limits apply from the next sample on: the current gain is
        not clamped to them here. */
    method SetGainLimits(minGain: real, maxGain: real)
      modifies this`minGain, this`maxGain
      ensures this.minGain == minGain && this.maxGain == maxGain
    {
      this.minGain := minGain;
      this.maxGain := maxGain;
    }
  }
}
