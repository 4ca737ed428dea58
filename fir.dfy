/** FIR design and execution of internal/processing/filter.go: windowed-sinc
    tap design with four band shapes, causal convolution, and decimation and
    interpolation by an integer factor. The sine and cosine the design
    evaluates are parameters; everything else is exact over reals. */
module FirProcessing {

  /** Filter shapes; any other value designs the plain low-pass. */
  const LowPass: int := 0
  const HighPass: int := 1
  const BandPass: int := 2
  const BandStop: int := 3

  /** Window shapes; any other value leaves the taps unwindowed. */
  const Rectangular: int := 0
  const Hamming: int := 1
  const Hanning: int := 2
  const Blackman: int := 3

  /** math.Pi. */
  const Pi: real := 3.14159265358979323846264338327950288419716939937510582097494459

  /** The sine and cosine the design evaluates. */
  datatype Trig = Trig(sin: real -> real, cos: real -> real)

  /** sin(2π·f·n), the numerator of every sinc tap. */
  function SineAt(trig: Trig, f: real, n: real): real
  {
    trig.sin(2.0 * Pi * f * n)
  }

  /** A window that evaluates a cosine over i/(numTaps − 1). */
  predicate Tapered(windowType: int)
  {
    windowType == Hamming || windowType == Hanning || windowType == Blackman
  }

  /** What the design needs to stay finite: a non-zero sample rate, no
      single tap under a tapered window (the window divides by numTaps − 1;
      with no taps at all the window is never evaluated), and a tap to add
      to for the high-pass. */
  predicate Designable(filterType: int, sampleRate: real, numTaps: nat, windowType: int)
  {
    && sampleRate != 0.0
    && (Tapered(windowType) ==> numTaps != 1)
    && (filterType == HighPass ==> numTaps >= 1)
  }

  /** Distance of tap i from the centre (numTaps − 1)/2. */
  function Offset(i: nat, numTaps: nat): real
  {
    (i as real) - ((numTaps - 1) as real) / 2.0
  }

  /** The index the high-pass adds its unit impulse at: the centre
      truncated to an integer. */
  function CentreIndex(numTaps: nat): (k: nat)
    requires numTaps >= 1
    ensures k < numTaps
  {
    (numTaps - 1) / 2
  }

  /** The ideal low-pass tap at offset n: 2·fc at the centre, otherwise
      sin(2π·fc·n)/(π·n). */
  function SincTap(trig: Trig, fc: real, n: real): real
  {
    if n == 0.0 then 2.0 * fc else SineAt(trig, fc, n) / (Pi * n)
  }

  /** The window's weight at tap i; only the tapered windows have one. */
  function Window(trig: Trig, i: nat, numTaps: nat, windowType: int): real
    requires Tapered(windowType) && numTaps >= 2
  {
    var phase := 2.0 * Pi * (i as real) / ((numTaps - 1) as real);
    if windowType == Hamming then 0.54 - 0.46 * trig.cos(phase)
    else if windowType == Hanning then 0.5 * (1.0 - trig.cos(phase))
    else 0.42 - 0.5 * trig.cos(phase) + 0.08 * trig.cos(4.0 * Pi * (i as real) / ((numTaps - 1) as real))
  }

  /** The low-pass tap i with the window applied. */
  function WindowedTap(trig: Trig, fc: real, i: nat, numTaps: nat, windowType: int): real
    requires i < numTaps && (Tapered(windowType) ==> numTaps != 1)
  {
    if Tapered(windowType) then Weighted(SincTap(trig, fc, Offset(i, numTaps)), Window(trig, i, numTaps, windowType))
    else SincTap(trig, fc, Offset(i, numTaps))
  }

  /** A tap times its window weight. */
  function Weighted(tap: real, weight: real): real
  {
    tap * weight
  }

  /** The band-pass tap between fc and fc2 = 1.5·fc, unwindowed. */
  function BandPassTap(trig: Trig, fc: real, fc2: real, n: real): real
  {
    if n == 0.0 then 2.0 * (fc2 - fc)
    else (SineAt(trig, fc2, n) - SineAt(trig, fc, n)) / (Pi * n)
  }

  /** The band-stop tap between fc and fc2 = 1.5·fc, unwindowed. */
  function BandStopTap(trig: Trig, fc: real, fc2: real, n: real): real
  {
    if n == 0.0 then 1.0 - 2.0 * (fc2 - fc)
    else (SineAt(trig, fc, n) - SineAt(trig, fc2, n)) / (Pi * n)
  }

  /** Tap i of the finished design. */
  function DesignedTap(trig: Trig, filterType: int, cutoffFreq: real, sampleRate: real, numTaps: nat,
                       windowType: int, i: nat): real
    requires Designable(filterType, sampleRate, numTaps, windowType) && i < numTaps
  {
    var fc := cutoffFreq / sampleRate;
    var fc2 := cutoffFreq * 1.5 / sampleRate;
    if filterType == HighPass then
      -WindowedTap(trig, fc, i, numTaps, windowType) + (if i == CentreIndex(numTaps) then 1.0 else 0.0)
    else if filterType == BandPass then BandPassTap(trig, fc, fc2, Offset(i, numTaps))
    else if filterType == BandStop then BandStopTap(trig, fc, fc2, Offset(i, numTaps))
    else WindowedTap(trig, fc, i, numTaps, windowType)
  }

  /** DesignFIR's result: exactly numTaps coefficients. */
  function Designed(trig: Trig, filterType: int, cutoffFreq: real, sampleRate: real, numTaps: nat,
                    windowType: int): (c: seq<real>)
    requires Designable(filterType, sampleRate, numTaps, windowType)
    ensures |c| == numTaps
  {
    seq(numTaps, i requires 0 <= i < numTaps => DesignedTap(trig, filterType, cutoffFreq, sampleRate, numTaps, windowType, i))
  }

  /** With no taps every shape other than the high-pass, under any window,
      designs the empty filter. */
  lemma NoTapsDesignNothing(trig: Trig, filterType: int, cutoffFreq: real, sampleRate: real, windowType: int)
    requires filterType != HighPass && sampleRate != 0.0
    ensures Designable(filterType, sampleRate, 0, windowType)
    ensures Designed(trig, filterType, cutoffFreq, sampleRate, 0, windowType) == []
  {
  }

  /** The high-pass is the spectral inversion of the low-pass with the same
      window: every tap negated, plus 1 at the truncated centre. */
  lemma HighPassInvertsLowPass(trig: Trig, cutoffFreq: real, sampleRate: real, numTaps: nat, windowType: int)
    requires Designable(HighPass, sampleRate, numTaps, windowType)
    ensures Designable(LowPass, sampleRate, numTaps, windowType)
    ensures forall i :: 0 <= i < numTaps ==>
      Designed(trig, HighPass, cutoffFreq, sampleRate, numTaps, windowType)[i] ==
      -Designed(trig, LowPass, cutoffFreq, sampleRate, numTaps, windowType)[i] + (if i == CentreIndex(numTaps) then 1.0 else 0.0)
  {
  }

  /** Band-pass and band-stop designs overwrite every windowed tap, so the
      window makes no difference to them. */
  lemma BandDesignsIgnoreWindow(trig: Trig, filterType: int, cutoffFreq: real, sampleRate: real, numTaps: nat,
                                w1: int, w2: int)
    requires filterType == BandPass || filterType == BandStop
    requires Designable(filterType, sampleRate, numTaps, w1) && Designable(filterType, sampleRate, numTaps, w2)
    ensures Designed(trig, filterType, cutoffFreq, sampleRate, numTaps, w1) ==
            Designed(trig, filterType, cutoffFreq, sampleRate, numTaps, w2)
  {
  }

  /** The band-stop is the band-pass negated, with 1 added at the exact
      centre, a tap that exists only for an odd number of taps. */
  lemma BandStopInvertsBandPass(trig: Trig, cutoffFreq: real, sampleRate: real, numTaps: nat, windowType: int)
    requires Designable(BandStop, sampleRate, numTaps, windowType)
    ensures Designable(BandPass, sampleRate, numTaps, windowType)
    ensures forall i :: 0 <= i < numTaps ==>
      Designed(trig, BandStop, cutoffFreq, sampleRate, numTaps, windowType)[i] ==
      (if 2 * i + 1 == numTaps then 1.0 else 0.0) - Designed(trig, BandPass, cutoffFreq, sampleRate, numTaps, windowType)[i]
  {
    forall i | 0 <= i < numTaps
      ensures Offset(i, numTaps) == 0.0 <==> 2 * i + 1 == numTaps
    {
    }
  }

  /** An unknown filter type designs the low-pass. */
  lemma UnknownTypeIsLowPass(trig: Trig, filterType: int, cutoffFreq: real, sampleRate: real, numTaps: nat, windowType: int)
    requires filterType !in {HighPass, BandPass, BandStop}
    requires Designable(filterType, sampleRate, numTaps, windowType)
    ensures Designable(LowPass, sampleRate, numTaps, windowType)
    ensures Designed(trig, filterType, cutoffFreq, sampleRate, numTaps, windowType) ==
            Designed(trig, LowPass, cutoffFreq, sampleRate, numTaps, windowType)
  {
  }

  /** The first loop of DesignFIR: the windowed low-pass taps. */
  method WindowedLowPass(trig: Trig, cutoffFreq: real, sampleRate: real, numTaps: nat, windowType: int)
    returns (coeffs: array<real>)
    requires sampleRate != 0.0 && (Tapered(windowType) ==> numTaps != 1)
    ensures fresh(coeffs) && coeffs.Length == numTaps
    ensures forall i :: 0 <= i < numTaps ==> coeffs[i] == WindowedTap(trig, cutoffFreq / sampleRate, i, numTaps, windowType)
  {
    coeffs := new real[numTaps];
    var fc := cutoffFreq / sampleRate;
    var center := ((numTaps - 1) as real) / 2.0;
    for i := 0 to numTaps
      invariant forall j :: 0 <= j < i ==> coeffs[j] == WindowedTap(trig, fc, j, numTaps, windowType)
    {
      var n := (i as real) - center;
      assert n == Offset(i, numTaps);
      var tap: real;
      if n == 0.0 {
        tap := 2.0 * fc;
      } else {
        tap := SineAt(trig, fc, n) / (Pi * n);
      }
      assert tap == SincTap(trig, fc, n);
      if Tapered(windowType) {
        var w: real;
        var phase := 2.0 * Pi * (i as real) / ((numTaps - 1) as real);
        if windowType == Hamming {
          w := 0.54 - 0.46 * trig.cos(phase);
        } else if windowType == Hanning {
          w := 0.5 * (1.0 - trig.cos(phase));
        } else {
          w := 0.42 - 0.5 * trig.cos(phase) + 0.08 * trig.cos(4.0 * Pi * (i as real) / ((numTaps - 1) as real));
        }
        coeffs[i] := Weighted(tap, w);
      } else {
        coeffs[i] := tap;
      }
    }
  }

  /** The high-pass branch: negate every tap in place, then add 1 at the
      truncated centre. */
  method InvertSpectrum(coeffs: array<real>)
    requires coeffs.Length >= 1
    modifies coeffs
    ensures forall i :: 0 <= i < coeffs.Length ==>
      coeffs[i] == -old(coeffs[i]) + (if i == CentreIndex(coeffs.Length) then 1.0 else 0.0)
  {
    for i := 0 to coeffs.Length
      invariant forall j :: 0 <= j < i ==> coeffs[j] == -old(coeffs[j])
      invariant forall j :: i <= j < coeffs.Length ==> coeffs[j] == old(coeffs[j])
    {
      coeffs[i] := -coeffs[i];
    }
    var k := CentreIndex(coeffs.Length);
    coeffs[k] := coeffs[k] + 1.0;
  }

  /** The band-pass and band-stop branches: overwrite every tap. */
  method OverwriteBand(trig: Trig, filterType: int, cutoffFreq: real, sampleRate: real, coeffs: array<real>)
    requires filterType == BandPass || filterType == BandStop
    requires sampleRate != 0.0
    modifies coeffs
    ensures forall i :: 0 <= i < coeffs.Length ==>
      coeffs[i] == DesignedTap(trig, filterType, cutoffFreq, sampleRate, coeffs.Length, Rectangular, i)
  {
    var fc := cutoffFreq / sampleRate;
    var fc2 := cutoffFreq * 1.5 / sampleRate;
    var center := ((coeffs.Length - 1) as real) / 2.0;
    for i := 0 to coeffs.Length
      invariant forall j :: 0 <= j < i ==>
        coeffs[j] == DesignedTap(trig, filterType, cutoffFreq, sampleRate, coeffs.Length, Rectangular, j)
    {
      var n := (i as real) - center;
      assert n == Offset(i, coeffs.Length);
      var tap: real;
      if filterType == BandPass {
        if n == 0.0 {
          tap := 2.0 * (fc2 - fc);
        } else {
          tap := (SineAt(trig, fc2, n) - SineAt(trig, fc, n)) / (Pi * n);
        }
        assert tap == BandPassTap(trig, fc, fc2, n);
      } else {
        if n == 0.0 {
          tap := 1.0 - 2.0 * (fc2 - fc);
        } else {
          tap := (SineAt(trig, fc, n) - SineAt(trig, fc2, n)) / (Pi * n);
        }
        assert tap == BandStopTap(trig, fc, fc2, n);
      }
      coeffs[i] := tap;
    }
  }

  /** DesignFIR: the windowed low-pass, then the band transformation. */
  method DesignFIR(trig: Trig, filterType: int, cutoffFreq: real, sampleRate: real, numTaps: nat, windowType: int)
    returns (coeffs: array<real>)
    requires Designable(filterType, sampleRate, numTaps, windowType)
    ensures fresh(coeffs)
    ensures coeffs[..] == Designed(trig, filterType, cutoffFreq, sampleRate, numTaps, windowType)
  {
    coeffs := WindowedLowPass(trig, cutoffFreq, sampleRate, numTaps, windowType);
    if filterType == HighPass {
      InvertSpectrum(coeffs);
    } else if filterType == BandPass || filterType == BandStop {
      OverwriteBand(trig, filterType, cutoffFreq, sampleRate, coeffs);
    }
    assert forall i :: 0 <= i < numTaps ==>
      coeffs[i] == DesignedTap(trig, filterType, cutoffFreq, sampleRate, numTaps, windowType, i);
  }

  // ---------------------------------------------------------------------
  // Causal convolution

  /** Σ_{j<m, j≤i} coeffs[j]·samples[i−j]. */
  function Tapped(samples: seq<real>, coeffs: seq<real>, i: nat, m: nat): real
    requires i < |samples| && m <= |coeffs|
  {
    if m == 0 then 0.0
    else Tapped(samples, coeffs, i, m - 1) + (if i - (m - 1) >= 0 then coeffs[m - 1] * samples[i - (m - 1)] else 0.0)
  }

  /** ApplyFilter's result: output i is the full tapped sum at i. */
  function Convolved(samples: seq<real>, coeffs: seq<real>): (r: seq<real>)
    ensures |r| == |samples|
  {
    seq(|samples|, i requires 0 <= i < |samples| => Tapped(samples, coeffs, i, |coeffs|))
  }

  /** The tapped sum at i reads only samples up to i. */
  lemma {:induction false} TappedIsCausal(samples: seq<real>, coeffs: seq<real>, i: nat, m: nat, k: nat)
    requires i < k <= |samples| && m <= |coeffs|
    ensures Tapped(samples[..k], coeffs, i, m) == Tapped(samples, coeffs, i, m)
  {
    if m > 0 {
      TappedIsCausal(samples, coeffs, i, m - 1, k);
    }
  }

  /** Filtering a prefix gives the prefix of the filtered signal: the
      filter is causal. */
  lemma ConvolutionIsCausal(samples: seq<real>, coeffs: seq<real>, k: nat)
    requires k <= |samples|
    ensures Convolved(samples[..k], coeffs) == Convolved(samples, coeffs)[..k]
  {
    forall i | 0 <= i < k
      ensures Convolved(samples[..k], coeffs)[i] == Convolved(samples, coeffs)[i]
    {
      TappedIsCausal(samples, coeffs, i, |coeffs|, k);
    }
  }

  /** The single tap [1] is the identity filter. */
  lemma UnitImpulseIsIdentity(samples: seq<real>)
    ensures Convolved(samples, [1.0]) == samples
  {
    forall i | 0 <= i < |samples|
      ensures Convolved(samples, [1.0])[i] == samples[i]
    {
      assert Tapped(samples, [1.0], i, 0) == 0.0;
    }
  }

  /** No taps give silence. */
  lemma NoTapsGiveSilence(samples: seq<real>)
    ensures forall i :: 0 <= i < |samples| ==> Convolved(samples, [])[i] == 0.0
  {
  }

  /** The inner loop of ApplyFilter. */
  method TapSum(samples: seq<real>, coeffs: seq<real>, i: nat) returns (sum: real)
    requires i < |samples|
    ensures sum == Tapped(samples, coeffs, i, |coeffs|)
  {
    sum := 0.0;
    for j := 0 to |coeffs|
      invariant sum == Tapped(samples, coeffs, i, j)
    {
      if i - j >= 0 {
        sum := sum + coeffs[j] * samples[i - j];
      }
    }
  }

  /** ApplyFilter. */
  method ApplyFilter(samples: seq<real>, coeffs: seq<real>) returns (filtered: seq<real>)
    ensures filtered == Convolved(samples, coeffs)
  {
    var out := new real[|samples|];
    for i := 0 to |samples|
      invariant forall k :: 0 <= k < i ==> out[k] == Tapped(samples, coeffs, k, |coeffs|)
    {
      out[i] := TapSum(samples, coeffs, i);
    }
    filtered := out[..];
  }

  // ---------------------------------------------------------------------
  // Resampling

  /** Every factor-th sample, starting with the first. */
  function Decimated(samples: seq<real>, factor: nat): (r: seq<real>)
    requires factor >= 1
    ensures |r| == |samples| / factor
  {
    seq(|samples| / factor, i requires 0 <= i < |samples| / factor => samples[IndexBelow(i, factor, |samples|)])
  }

  /** i·factor is in range when i < n/factor. */
  function IndexBelow(i: nat, factor: nat, n: nat): (k: nat)
    requires factor >= 1 && i < n / factor
    ensures k == i * factor && k < n
  {
    MulBelow(i, factor, n / factor);
    i * factor
  }

  /** A product with a factor of at least one keeps its sign and grows. */
  lemma MulAtLeast(d: int, f: int)
    requires f >= 1
    ensures d >= 1 ==> d * f >= f
    ensures d <= -1 ==> d * f <= -f
  {
    if d >= 1 {
      assert (d - 1) * f >= 0;
    } else if d <= -1 {
      assert (-d - 1) * f >= 0;
    }
  }

  /** i < m gives i·f + f ≤ m·f. */
  lemma MulBelow(i: nat, f: nat, m: nat)
    requires i < m && f >= 1
    ensures i * f + f <= m * f
  {
    MulAtLeast(m - i, f);
    assert (m - i) * f == m * f - i * f;
  }

  /** Quotient and remainder are the unique pair with 0 ≤ r < f. */
  lemma DivModUnique(j: int, f: int, q: int, r: int)
    requires f >= 1 && 0 <= r < f && j == q * f + r
    ensures j / f == q && j % f == r
  {
    var q', r' := j / f, j % f;
    assert (q - q') * f == r' - r;
    MulAtLeast(q - q', f);
  }

  /** factor − 1 zeros after every sample. */
  function Interpolated(samples: seq<real>, factor: nat): (r: seq<real>)
    requires factor >= 1
    ensures |r| == |samples| * factor
  {
    seq(|samples| * factor, j requires 0 <= j < |samples| * factor =>
      if j % factor == 0 then samples[QuotientBelow(j, factor, |samples|)] else 0.0)
  }

  /** j/factor is in range when j < n·factor. */
  function QuotientBelow(j: nat, factor: nat, n: nat): (k: nat)
    requires factor >= 1 && j < n * factor
    ensures k == j / factor && k < n
  {
    var q := j / factor;
    MulAtLeast(q - n + 1, factor);
    assert (q - n + 1) * factor == q * factor - n * factor + factor;
    q
  }

  /** Index arithmetic on the multiples of a factor. */
  lemma MultipleFacts(i: nat, factor: nat)
    requires factor >= 1
    ensures (i * factor) % factor == 0 && (i * factor) / factor == i
  {
    DivModUnique(i * factor, factor, i, 0);
  }

  /** Interpolating then decimating by the same factor gives the signal
      back. */
  lemma DecimateUndoesInterpolate(samples: seq<real>, factor: nat)
    requires factor >= 1
    ensures Decimated(Interpolated(samples, factor), factor) == samples
  {
    var up := Interpolated(samples, factor);
    assert |up| / factor == |samples| by {
      MultipleFacts(|samples|, factor);
    }
    forall i | 0 <= i < |samples|
      ensures Decimated(up, factor)[i] == samples[i]
    {
      MultipleFacts(i, factor);
      assert Decimated(up, factor)[i] == up[i * factor];
    }
  }

  /** Decimate. */
  method Decimate(samples: seq<real>, factor: nat) returns (decimated: seq<real>)
    requires factor >= 1
    ensures decimated == Decimated(samples, factor)
  {
    var out := new real[|samples| / factor];
    for i := 0 to out.Length
      invariant forall k :: 0 <= k < i ==> out[k] == samples[k * factor]
    {
      var idx := IndexBelow(i, factor, |samples|);
      out[i] := samples[idx];
    }
    decimated := out[..];
  }

  /** Interpolate: a zeroed buffer with sample i written at i·factor. */
  method Interpolate(samples: seq<real>, factor: nat) returns (interpolated: seq<real>)
    requires factor >= 1
    ensures interpolated == Interpolated(samples, factor)
  {
    var out := new real[|samples| * factor](_ => 0.0);
    for i := 0 to |samples|
      invariant forall j :: 0 <= j < out.Length ==>
        out[j] == if j % factor == 0 && j / factor < i then samples[j / factor] else 0.0
    {
      MulBelow(i, factor, |samples|);
      MultipleFacts(i, factor);
      out[i * factor] := samples[i];
      forall j | 0 <= j < out.Length && j % factor == 0
        ensures j / factor == i ==> j == i * factor
      {
        assert j == (j / factor) * factor + j % factor;
      }
    }
    interpolated := out[..];
    forall j | 0 <= j < out.Length
      ensures interpolated[j] == Interpolated(samples, factor)[j]
    {
      var q := QuotientBelow(j, factor, |samples|);
    }
  }

  /** The anti-aliasing filter for decimation: a Hamming-windowed low-pass
      with 10·factor + 1 taps at the new Nyquist frequency. */
  method CreateDecimationFilter(trig: Trig, factor: nat, sampleRate: real) returns (coeffs: array<real>)
    requires factor >= 1 && sampleRate != 0.0
    ensures fresh(coeffs) && coeffs.Length == 10 * factor + 1
    ensures coeffs[..] == Designed(trig, LowPass, sampleRate / (2 * factor) as real, sampleRate, 10 * factor + 1, Hamming)
  {
    var cutoffFreq := sampleRate / (2 * factor) as real;
    var numTaps := factor * 10 + 1;
    coeffs := DesignFIR(trig, LowPass, cutoffFreq, sampleRate, numTaps, Hamming);
  }

  /** The interpolation filter: the decimation filter's taps times the
      factor, restoring the gain lost to the inserted zeros. */
  method CreateInterpolationFilter(trig: Trig, factor: nat, sampleRate: real) returns (coeffs: array<real>)
    requires factor >= 1 && sampleRate != 0.0
    ensures fresh(coeffs) && coeffs.Length == 10 * factor + 1
    ensures forall i :: 0 <= i < coeffs.Length ==>
      coeffs[i] == Designed(trig, LowPass, sampleRate / (2 * factor) as real, sampleRate, 10 * factor + 1, Hamming)[i] * (factor as real)
  {
    var cutoffFreq := sampleRate / (2 * factor) as real;
    var numTaps := factor * 10 + 1;
    coeffs := DesignFIR(trig, LowPass, cutoffFreq, sampleRate, numTaps, Hamming);
    ScaleTaps(coeffs, factor as real);
  }

  /** Multiplies every tap by k in place. */
  method ScaleTaps(coeffs: array<real>, k: real)
    modifies coeffs
    ensures forall i :: 0 <= i < coeffs.Length ==> coeffs[i] == old(coeffs[i]) * k
  {
    for i := 0 to coeffs.Length
      invariant forall j :: 0 <= j < i ==> coeffs[j] == old(coeffs[j]) * k
      invariant forall j :: i <= j < coeffs.Length ==> coeffs[j] == old(coeffs[j])
    {
      coeffs[i] := coeffs[i] * k;
    }
  }
}
