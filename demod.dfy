/** The detectors of pkg/demod/demod.go. Each one rectifies a per-index
    combination of the samples while tracking the largest value, then scales
    every value so that this peak becomes 0.7; its gain metrics use the
    package's own loop-based `log10`. */
module Demodulation {
  import opened RealSeq

  // ---------------------------------------------------------------------
  // Powers of ten and the package's log10

  /** 10^k for every integer k. */
  function Pow10(k: int): real
    decreases if k >= 0 then k else -k
  {
    if k == 0 then 1.0
    else if k > 0 then 10.0 * Pow10(k - 1)
    else Pow10(k + 1) / 10.0
  }

  lemma {:induction false} Pow10Positive(k: int)
    ensures Pow10(k) > 0.0
    decreases if k >= 0 then k else -k
  {
    if k > 0 {
      Pow10Positive(k - 1);
    } else if k < 0 {
      Pow10Positive(k + 1);
    }
  }

  lemma Pow10Step(k: int)
    ensures Pow10(k + 1) == 10.0 * Pow10(k)
  {
  }

  /** A larger exponent gives a power at least ten times as large. */
  lemma {:induction false} Pow10Grows(i: int, j: int)
    requires i < j
    ensures 10.0 * Pow10(i) <= Pow10(j)
    decreases j - i
  {
    Pow10Step(j - 1);
    if i < j - 1 {
      Pow10Grows(i, j - 1);
      Pow10Positive(i);
    }
  }

  /** ln 10, the constant in the package's first-order correction. */
  const Ln10: real := 2.302585092994046

  /** Dividing a number of at least 1 by ten lowers its integer part. */
  lemma FloorDiv10(a: real)
    requires a >= 1.0
    ensures 0 <= (a / 10.0).Floor < a.Floor
  {
    var k := a.Floor;
    assert (k as real) <= a < (k as real) + 1.0;
    assert a / 10.0 < ((k as real) + 1.0) / 10.0 <= k as real;
  }

  /** Multiplying a number below 1 by ten lowers the integer part of its
      reciprocal. */
  lemma ReciprocalShrinks(x: real)
    requires 0.0 < x < 1.0
    ensures (1.0 / x).Floor >= 1
    ensures x * 10.0 < 1.0 ==> (1.0 / (x * 10.0)).Floor < (1.0 / x).Floor
  {
    var a := 1.0 / x;
    assert a * x == 1.0;
    assert a > 1.0;
    if x * 10.0 < 1.0 {
      assert 1.0 / (x * 10.0) == a / 10.0 by {
        assert (a / 10.0) * (x * 10.0) == a * x;
      }
      FloorDiv10(a);
    }
  }

  /** The first loop of `log10`: scale up by ten until the value reaches 1,
      counting down. The result (m, k) has x = m·10^k. */
  function Up(x: real): (r: (real, int))
    requires x > 0.0
    ensures r.0 >= 1.0 && r.1 <= 0
    ensures x < 1.0 ==> r.0 < 10.0
    ensures x >= 1.0 ==> r == (x, 0)
    ensures x == r.0 * Pow10(r.1)
    decreases if x < 1.0 then (1.0 / x).Floor else 0
  {
    if x >= 1.0 then (x, 0)
    else
      ReciprocalShrinks(x);
      var r := Up(x * 10.0);
      Pow10Step(r.1 - 1);
      assert x * 10.0 == r.0 * (10.0 * Pow10(r.1 - 1));
      (r.0, r.1 - 1)
  }

  /** The second loop: scale down by ten while the value is at least 10,
      counting up. */
  function Down(x: real): (r: (real, int))
    requires x > 0.0
    ensures r.0 < 10.0 && r.1 >= 0
    ensures x >= 1.0 ==> r.0 >= 1.0
    ensures x < 10.0 ==> r == (x, 0)
    ensures x == r.0 * Pow10(r.1)
    decreases x.Floor
  {
    if x < 10.0 then (x, 0)
    else
      FloorDiv10(x);
      var r := Down(x / 10.0);
      Pow10Step(r.1);
      (r.0, r.1 + 1)
  }

  /** Both loops together: the mantissa lies in [1, 10) and x is the
      mantissa times ten to the exponent. */
  function Normalise(x: real): (r: (real, int))
    requires x > 0.0
    ensures 1.0 <= r.0 < 10.0
    ensures x == r.0 * Pow10(r.1)
  {
    var u := Up(x);
    var d := Down(u.0);
    (d.0, u.1 + d.1)
  }

  /** The first-order correction (m − 1)/(m·ln 10) added for the mantissa. */
  function Correction(m: real): real
    requires m >= 1.0
  {
    (m - 1.0) / (m * Ln10)
  }

  /** The correction stays below one decade and vanishes at m = 1. */
  lemma CorrectionBounds(m: real)
    requires 1.0 <= m
    ensures 0.0 <= Correction(m) < 1.0
    ensures m == 1.0 ==> Correction(m) == 0.0
  {
    var den := m * Ln10;
    assert den >= Ln10 by {
      MulMonotone(1.0, m, Ln10);
    }
    assert m - 1.0 < den;
  }

  /** The package's log10: −100 for x ≤ 0, otherwise the decimal exponent
      plus the correction for the mantissa. */
  function Log10Of(x: real): real
  {
    if x <= 0.0 then -100.0
    else
      var n := Normalise(x);
      (n.1 as real) + Correction(n.0)
  }

  /** Powers with a negative exponent lie below 1, the others at 1 or
      above. */
  lemma {:induction false} Pow10AgainstOne(k: int)
    ensures k < 0 ==> Pow10(k) < 1.0
    ensures k >= 0 ==> Pow10(k) >= 1.0
    decreases if k >= 0 then k else -k
  {
    if k > 0 {
      Pow10AgainstOne(k - 1);
    } else if k < 0 {
      Pow10AgainstOne(k + 1);
    }
  }

  /** The first loop of `log10` takes 10^k, k ≤ 0, to the mantissa 1 and
      the exponent k. */
  lemma {:induction false} UpOfPower(k: int)
    requires k <= 0
    ensures Pow10(k) > 0.0 && Up(Pow10(k)) == (1.0, k)
    decreases -k
  {
    Pow10Positive(k);
    if k < 0 {
      Pow10AgainstOne(k);
      UpOfPower(k + 1);
      assert Pow10(k) * 10.0 == Pow10(k + 1);
    }
  }

  /** The second loop takes 10^k, k ≥ 0, to the mantissa 1 and the
      exponent k. */
  lemma {:induction false} DownOfPower(k: int)
    requires k >= 0
    ensures Pow10(k) > 0.0 && Down(Pow10(k)) == (1.0, k)
  {
    Pow10Positive(k);
    if k > 0 {
      Pow10AgainstOne(k - 1);
      DownOfPower(k - 1);
      assert Pow10(k) / 10.0 == Pow10(k - 1);
    }
  }

  /** The approximation is exact at powers of ten: log10(10^k) = k, in
      particular log10(1) = 0. */
  lemma Log10OfPowerOfTen(k: int)
    ensures Log10Of(Pow10(k)) == k as real
  {
    Pow10Positive(k);
    if k <= 0 {
      UpOfPower(k);
      DownOfPower(0);
    } else {
      Pow10AgainstOne(k);
      DownOfPower(k);
    }
    assert Normalise(Pow10(k)) == (1.0, k);
    CorrectionBounds(1.0);
  }

  /** The integer part is exact: for x > 0 the result lies in [e, e + 1)
      where x = m·10^e with m in [1, 10). */
  lemma Log10Bounds(x: real)
    requires x > 0.0
    ensures var n := Normalise(x);
      (n.1 as real) <= Log10Of(x) < (n.1 as real) + 1.0
  {
    CorrectionBounds(Normalise(x).0);
  }

  /** For a positive argument the result is non-negative exactly when the
      argument is at least 1; so a gain below 1 reports negative decibels. */
  lemma Log10Sign(x: real)
    requires x > 0.0
    ensures Log10Of(x) >= 0.0 <==> x >= 1.0
  {
    Log10Bounds(x);
    var n := Normalise(x);
    var p := Pow10(n.1);
    Pow10Positive(n.1);
    if n.1 >= 0 {
      if n.1 > 0 {
        Pow10Grows(0, n.1);
      }
      assert p >= 1.0;
      MulMonotone(1.0, n.0, p);
    } else {
      Pow10Grows(n.1, 0);
      MulStrict(n.0, 10.0, p);
    }
  }

  /** log10 with the source's two loops; the exponent counter is a float
      holding whole numbers. */
  method Log10(x0: real) returns (r: real)
    ensures r == Log10Of(x0)
  {
    if x0 <= 0.0 {
      return -100.0;
    }
    var x := x0;
    var y := 0.0;
    ghost var k := 0;
    while x < 1.0
      invariant x > 0.0 && y == k as real
      invariant Up(x0) == (Up(x).0, Up(x).1 + k)
      decreases if x < 1.0 then (1.0 / x).Floor else 0
    {
      ReciprocalShrinks(x);
      x := x * 10.0;
      y := y - 1.0;
      k := k - 1;
    }
    ghost var u := x;
    ghost var j := 0;
    while x >= 10.0
      invariant x > 0.0 && y == (k + j) as real
      invariant Down(u) == (Down(x).0, Down(x).1 + j)
      decreases x.Floor
    {
      FloorDiv10(x);
      x := x / 10.0;
      y := y + 1.0;
      j := j + 1;
    }
    r := y + (x - 1.0) / (x * 2.302585092994046);
  }

  // ---------------------------------------------------------------------
  // Detectors

  const AM: int := 0
  const FM: int := 1
  const USB: int := 2
  const LSB: int := 3

  /** The four detector types; in the source, empty structs behind the
      `Demodulator` interface. */
  datatype Detector = AMDemod | FMDemod | USBDemod | LSBDemod

  /** The gain metrics every detector reports. */
  datatype GainMetrics = GainMetrics(CurrentGain: real, CompressionDB: real, GainReduction: real)

  /** NewDemodulator: the matching detector, AM for any other value. */
  function NewDemodulator(demodType: int): (d: Detector)
    ensures demodType == FM <==> d == FMDemod
    ensures demodType == USB <==> d == USBDemod
    ensures demodType == LSB <==> d == LSBDemod
    ensures d == AMDemod <==> demodType !in {FM, USB, LSB}
  {
    if demodType == FM then FMDemod
    else if demodType == USB then USBDemod
    else if demodType == LSB then LSBDemod
    else AMDemod
  }

  /** How many outputs a detector gives for n samples: one fewer for FM,
      which works on differences. */
  function OutLength(d: Detector, n: nat): nat
    requires d == FMDemod ==> n >= 1
  {
    if d == FMDemod then n - 1 else n
  }

  /** Rectified value i before scaling: |s[i]| for AM, |s[i+1] − s[i]| for
      FM, |s[i] + s[i−1]| for USB (|s[0]| at the start), |s[i] − s[i+1]|
      for LSB (|s[n−1]| at the end). */
  function Rectify(d: Detector, s: seq<real>, i: nat): real
    requires d == FMDemod ==> |s| >= 1
    requires i < OutLength(d, |s|)
  {
    match d
    case AMDemod => Abs(s[i])
    case FMDemod => Abs(s[i + 1] - s[i])
    case USBDemod => Abs(if i > 0 then s[i] + s[i - 1] else s[i])
    case LSBDemod => Abs(if i < |s| - 1 then s[i] - s[i + 1] else s[i])
  }

  function Rectified(d: Detector, s: seq<real>): (r: seq<real>)
    requires d == FMDemod ==> |s| >= 1
    ensures |r| == OutLength(d, |s|)
  {
    seq(OutLength(d, |s|), i requires 0 <= i < OutLength(d, |s|) => Rectify(d, s, i))
  }

  /** 0.7 over the peak, or 1 when every rectified value is 0. */
  function Gain(peak: real): real
  {
    if peak > 0.0 then 0.7 / peak else 1.0
  }

  function DetectorGain(d: Detector, s: seq<real>): real
    requires d == FMDemod ==> |s| >= 1
  {
    Gain(Peak(Rectified(d, s)))
  }

  /** Every value multiplied by the gain g. */
  function Scaled(v: seq<real>, g: real): (r: seq<real>)
    ensures |r| == |v|
    ensures forall i :: 0 <= i < |v| ==> r[i] == v[i] * g
  {
    seq(|v|, i requires 0 <= i < |v| => v[i] * g)
  }

  /** The detector's output: the rectified values times its gain. */
  function Demodulated(d: Detector, s: seq<real>): (r: seq<real>)
    requires d == FMDemod ==> |s| >= 1
    ensures |r| == OutLength(d, |s|)
  {
    Scaled(Rectified(d, s), DetectorGain(d, s))
  }

  /** The metrics for a gain: the gain itself, 20·log10(gain) and 1/gain. */
  function Metrics(gain: real): GainMetrics
    requires gain != 0.0
  {
    GainMetrics(gain, 20.0 * Log10Of(gain), 1.0 / gain)
  }

  /** Rectified values are absolute values. */
  lemma RectifiedNonNegative(d: Detector, s: seq<real>)
    requires d == FMDemod ==> |s| >= 1
    ensures forall i :: 0 <= i < |Rectified(d, s)| ==> Rectified(d, s)[i] >= 0.0
  {
  }

  /** The gain is always positive, so the metrics are always defined. */
  lemma GainPositive(d: Detector, s: seq<real>)
    requires d == FMDemod ==> |s| >= 1
    ensures DetectorGain(d, s) > 0.0
    ensures Peak(Rectified(d, s)) > 0.0 ==> DetectorGain(d, s) == 0.7 / Peak(Rectified(d, s))
    ensures Peak(Rectified(d, s)) <= 0.0 ==> DetectorGain(d, s) == 1.0
  {
    PeakBound(Rectified(d, s));
  }

  /** The metrics are consistent with each other: GainReduction is the
      reciprocal of CurrentGain. */
  lemma MetricsConsistent(gain: real)
    requires gain > 0.0
    ensures Metrics(gain).GainReduction * Metrics(gain).CurrentGain == 1.0
    ensures Metrics(gain).CompressionDB >= 0.0 <==> gain >= 1.0
  {
    Log10Sign(gain);
  }

  /** Non-negative values times a non-negative gain stay non-negative. */
  lemma ScaledNonNegative(v: seq<real>, g: real)
    requires g >= 0.0
    requires forall i :: 0 <= i < |v| ==> v[i] >= 0.0
    ensures forall i :: 0 <= i < |v| ==> Scaled(v, g)[i] >= 0.0
  {
    forall i | 0 <= i < |v|
      ensures Scaled(v, g)[i] >= 0.0
    {
      MulNonNegative(v[i], g);
    }
  }

  /** A value up to the peak p, scaled by g = 0.7/p, is at most 0.7, and
      equals 0.7 at the peak itself. */
  lemma ScaleByPeak(x: real, p: real, g: real)
    requires 0.0 <= x <= p && p > 0.0 && g == 0.7 / p
    ensures x * g <= 0.7
    ensures x == p ==> x * g == 0.7
  {
    DivCancel(0.7, p);
    MulMonotone(x, p, g);
  }

  /** Values in [0, p] that reach p, scaled by 0.7/p: none exceeds 0.7 and
      the one at p equals it. */
  lemma ScaledToSevenTenths(v: seq<real>, p: real, g: real)
    requires p > 0.0 && g == 0.7 / p
    requires forall i :: 0 <= i < |v| ==> 0.0 <= v[i] <= p
    requires exists i :: 0 <= i < |v| && v[i] == p
    ensures forall i :: 0 <= i < |v| ==> Scaled(v, g)[i] <= 0.7
    ensures exists i :: 0 <= i < |v| && Scaled(v, g)[i] == 0.7
  {
    forall i | 0 <= i < |v|
      ensures Scaled(v, g)[i] <= 0.7
    {
      ScaleByPeak(v[i], p, g);
    }
    var k :| 0 <= k < |v| && v[k] == p;
    ScaleByPeak(v[k], p, g);
    assert Scaled(v, g)[k] == 0.7;
  }

  /** Every output is non-negative. */
  lemma OutputsNonNegative(d: Detector, s: seq<real>)
    requires d == FMDemod ==> |s| >= 1
    ensures forall i :: 0 <= i < |Demodulated(d, s)| ==> Demodulated(d, s)[i] >= 0.0
  {
    GainPositive(d, s);
    RectifiedNonNegative(d, s);
    ScaledNonNegative(Rectified(d, s), DetectorGain(d, s));
  }

  /** When some rectified value is non-zero, the outputs are scaled so that
      none exceeds 0.7 and the largest equals 0.7. */
  lemma PeakBecomesSevenTenths(d: Detector, s: seq<real>)
    requires d == FMDemod ==> |s| >= 1
    requires Peak(Rectified(d, s)) > 0.0
    ensures forall i :: 0 <= i < |Demodulated(d, s)| ==> Demodulated(d, s)[i] <= 0.7
    ensures exists i :: 0 <= i < |Demodulated(d, s)| && Demodulated(d, s)[i] == 0.7
  {
    var v := Rectified(d, s);
    GainPositive(d, s);
    RectifiedNonNegative(d, s);
    PeakTouched(v);
    var g := DetectorGain(d, s);
    ScaledToSevenTenths(v, Peak(v), g);
    var k :| 0 <= k < |v| && Scaled(v, g)[k] == 0.7;
    assert Demodulated(d, s)[k] == 0.7;
  }

  /** For non-negative values the peak bounds every value and is one of
      them when positive. */
  lemma PeakTouched(v: seq<real>)
    requires forall i :: 0 <= i < |v| ==> v[i] >= 0.0
    ensures forall i :: 0 <= i < |v| ==> 0.0 <= v[i] <= Peak(v)
    ensures Peak(v) > 0.0 ==> exists i :: 0 <= i < |v| && v[i] == Peak(v)
  {
    PeakBound(v);
    forall i | 0 <= i < |v|
      ensures Abs(v[i]) == v[i]
    {
    }
  }

  /** An all-zero input (or, for FM, a constant one) leaves the gain at 1
      and every output at 0. */
  lemma SilenceGivesUnitGain(d: Detector, s: seq<real>)
    requires d == FMDemod ==> |s| >= 1
    requires forall i :: 0 <= i < OutLength(d, |s|) ==> Rectify(d, s, i) == 0.0
    ensures DetectorGain(d, s) == 1.0
    ensures forall i :: 0 <= i < |Demodulated(d, s)| ==> Demodulated(d, s)[i] == 0.0
  {
    PeakZero(Rectified(d, s));
  }

  /** The body of the first loop of each `Demodulate`: the detector's
      combination of samples at index i, made non-negative. */
  method RectifiedAt(d: Detector, samples: seq<real>, i: nat) returns (val: real)
    requires d == FMDemod ==> |samples| >= 1
    requires i < OutLength(d, |samples|)
    ensures val == Rectify(d, samples, i)
  {
    match d {
      case AMDemod =>
        val := samples[i];
      case FMDemod =>
        val := samples[i + 1] - samples[i];
      case USBDemod =>
        val := samples[i];
        if i > 0 {
          val := val + samples[i - 1];
        }
      case LSBDemod =>
        val := samples[i];
        if i < |samples| - 1 {
          val := val - samples[i + 1];
        }
    }
    if val < 0.0 {
      val := -val;
    }
  }

  /** The first loop: a fresh buffer of rectified values and their peak. */
  method RectifyAll(d: Detector, samples: seq<real>) returns (out: array<real>, maxAmp: real)
    requires d == FMDemod ==> |samples| >= 1
    ensures fresh(out)
    ensures out[..] == Rectified(d, samples) && maxAmp == Peak(out[..])
  {
    var n := OutLength(d, |samples|);
    out := new real[n];
    maxAmp := 0.0;
    ghost var v := Rectified(d, samples);
    for i := 0 to n
      invariant out[..i] == v[..i]
      invariant maxAmp == Peak(v[..i])
    {
      var val := RectifiedAt(d, samples, i);
      assert Abs(val) == val;
      assert v[..i + 1][..i] == v[..i];
      if val > maxAmp {
        maxAmp := val;
      }
      out[i] := val;
    }
    assert v[..n] == v;
  }

  /** The second loop: every value multiplied by the gain, in place. */
  method ScaleInPlace(out: array<real>, gain: real)
    modifies out
    ensures out[..] == Scaled(old(out[..]), gain)
  {
    ghost var v := out[..];
    for i := 0 to out.Length
      invariant forall j :: 0 <= j < i ==> out[j] == v[j] * gain
      invariant forall j :: i <= j < out.Length ==> out[j] == v[j]
    {
      out[i] := out[i] * gain;
    }
    forall j | 0 <= j < out.Length
      ensures out[..][j] == Scaled(v, gain)[j]
    {
    }
    assert out[..] == Scaled(v, gain);
  }

  /** Demodulate for each detector: fill a fresh output with rectified
      values while tracking the peak, then scale it in place. FM reads
      len(samples) − 1 differences and needs at least one sample. */
  method Demodulate(d: Detector, samples: seq<real>) returns (output: seq<real>, metrics: GainMetrics)
    requires d == FMDemod ==> |samples| >= 1
    ensures output == Demodulated(d, samples)
    ensures metrics == Metrics(DetectorGain(d, samples))
  {
    var out, maxAmp := RectifyAll(d, samples);
    var gain := 1.0;
    if maxAmp > 0.0 {
      gain := 0.7 / maxAmp;
    }
    assert gain == DetectorGain(d, samples);
    ScaleInPlace(out, gain);
    output := out[..];
    var db := Log10(gain);
    metrics := GainMetrics(gain, 20.0 * db, 1.0 / gain);
  }

  /** AM modulation: each carrier sample times one plus the message sample
      at the same index; the message must be at least as long as the
      carrier. */
  function AmModulated(carrier: seq<real>, message: seq<real>): (r: seq<real>)
    requires |message| >= |carrier|
    ensures |r| == |carrier|
  {
    seq(|carrier|, i requires 0 <= i < |carrier| => carrier[i] * (1.0 + message[i]))
  }

  /** AmModulate, filling a fresh result of the carrier's length. */
  method AmModulate(carrier: seq<real>, message: seq<real>) returns (result: seq<real>)
    requires |message| >= |carrier|
    ensures result == AmModulated(carrier, message)
  {
    var r := new real[|carrier|];
    for i := 0 to |carrier|
      invariant forall j :: 0 <= j < i ==> r[j] == carrier[j] * (1.0 + message[j])
    {
      r[i] := carrier[i] * (1.0 + message[i]);
    }
    result := r[..];
    forall j | 0 <= j < |carrier|
      ensures result[j] == AmModulated(carrier, message)[j]
    {
    }
  }

  /** A silent message leaves the carrier unchanged; a message of −1
      suppresses it entirely. */
  lemma AmModulationExtremes(carrier: seq<real>, message: seq<real>)
    requires |message| >= |carrier|
    ensures (forall i :: 0 <= i < |carrier| ==> message[i] == 0.0) ==> AmModulated(carrier, message) == carrier
    ensures (forall i :: 0 <= i < |carrier| ==> message[i] == -1.0) ==>
      forall i :: 0 <= i < |carrier| ==> AmModulated(carrier, message)[i] == 0.0
  {
  }
}
