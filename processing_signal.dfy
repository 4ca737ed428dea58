/** The mutable Signal of internal/processing/signal.go: a sample slice and
    its rate, with appending, duration, in-place peak normalisation and
    in-place FIR filtering. */
module SignalProcessing {
  import opened RealSeq
  import FirProcessing

  /** Every sample divided by p. */
  function DividedBy(s: seq<real>, p: real): (r: seq<real>)
    requires p != 0.0
    ensures |r| == |s| && forall i :: 0 <= i < |s| ==> r[i] * p == s[i]
  {
    seq(|s|, i requires 0 <= i < |s| => Quotient(s[i], p))
  }

  /** What Normalize leaves: the samples divided by their peak magnitude,
      or the samples themselves when the peak is 0. */
  function Normalized(s: seq<real>): (r: seq<real>)
    ensures |r| == |s|
  {
    var p := Peak(s);
    if p > 0.0 then DividedBy(s, p) else s
  }

  /** A factor above 1 enlarges a positive number. */
  lemma MulAboveOne(a: real, p: real)
    ensures a > 1.0 && p > 0.0 ==> a * p > p
  {
    if a > 1.0 && p > 0.0 {
      MulStrict(1.0, a, p);
    }
  }

  /** One sample against a positive peak that bounds it: the quotient keeps
      the sign, stays within [−1, 1], and has magnitude 1 exactly where the
      sample reaches the peak. */
  lemma DivideByPeak(x: real, p: real, q: real)
    requires p > 0.0 && Abs(x) <= p && q * p == x
    ensures Abs(q) <= 1.0
    ensures Abs(x) == p ==> Abs(q) == 1.0
    ensures (x > 0.0 <==> q > 0.0) && (x < 0.0 <==> q < 0.0)
  {
    if q > 0.0 {
      MulStrict(0.0, q, p);
    } else if q < 0.0 {
      MulStrict(q, 0.0, p);
    }
    if q < 0.0 {
      assert (-q) * p == -(q * p);
    }
    assert Abs(q) * p == Abs(x);
    MulAboveOne(Abs(q), p);
    if Abs(x) == p {
      assert Abs(q) * p == 1.0 * p;
      MulCancel(Abs(q), 1.0, p);
    }
  }

  /** The peak is the one non-negative bound on the magnitudes that some
      sample reaches (or 0 for a signal without samples). */
  lemma PeakUnique(t: seq<real>, m: real)
    requires m >= 0.0 && forall k :: 0 <= k < |t| ==> Abs(t[k]) <= m
    requires m == 0.0 || exists k :: 0 <= k < |t| && Abs(t[k]) == m
    ensures Peak(t) == m
  {
    PeakBound(t);
    if Peak(t) > 0.0 {
      var k :| 0 <= k < |t| && Abs(t[k]) == Peak(t);
    }
  }

  /** Dividing samples bounded by a positive p, one of which reaches it,
      gives samples within [−1, 1] of the same signs, one of magnitude 1. */
  lemma DividedByBound(s: seq<real>, p: real, t: seq<real>)
    requires p > 0.0
    requires forall k :: 0 <= k < |s| ==> Abs(s[k]) <= p
    requires exists k :: 0 <= k < |s| && Abs(s[k]) == p
    requires t == DividedBy(s, p)
    ensures forall i :: 0 <= i < |s| ==> Abs(t[i]) <= 1.0
    ensures exists i :: 0 <= i < |s| && Abs(t[i]) == 1.0
    ensures forall i :: 0 <= i < |s| ==> (t[i] > 0.0 <==> s[i] > 0.0) && (t[i] < 0.0 <==> s[i] < 0.0)
  {
    forall i | 0 <= i < |s|
      ensures Abs(t[i]) <= 1.0
      ensures Abs(s[i]) == p ==> Abs(t[i]) == 1.0
      ensures (t[i] > 0.0 <==> s[i] > 0.0) && (t[i] < 0.0 <==> s[i] < 0.0)
    {
      DivideByPeak(s[i], p, t[i]);
    }
    var k :| 0 <= k < |s| && Abs(s[k]) == p;
    assert Abs(t[k]) == 1.0;
  }

  /** After normalising a signal with a non-zero sample its peak is 1, and
      every sample keeps its sign. */
  lemma NormalizedPeakIsOne(s: seq<real>)
    requires exists k :: 0 <= k < |s| && s[k] != 0.0
    ensures Peak(Normalized(s)) == 1.0
    ensures forall i :: 0 <= i < |s| ==>
      (Normalized(s)[i] > 0.0 <==> s[i] > 0.0) && (Normalized(s)[i] < 0.0 <==> s[i] < 0.0)
  {
    var p := Peak(s);
    PeakBound(s);
    assert p > 0.0 by {
      PeakZero(s);
    }
    var t := Normalized(s);
    DividedByBound(s, p, t);
    PeakUnique(t, 1.0);
  }

  /** An all-zero signal is left as it is. */
  lemma SilenceIsUnchanged(s: seq<real>)
    requires forall k :: 0 <= k < |s| ==> s[k] == 0.0
    ensures Normalized(s) == s
  {
    PeakZero(s);
  }

  /** Normalising twice is normalising once. */
  lemma NormalizeIdempotent(s: seq<real>)
    ensures Normalized(Normalized(s)) == Normalized(s)
  {
    PeakBound(s);
    if Peak(s) > 0.0 {
      PeakZero(s);
      NormalizedPeakIsOne(s);
      var t := Normalized(s);
      var u := DividedBy(t, 1.0);
      assert Normalized(t) == u;
      forall i | 0 <= i < |t|
        ensures u[i] == t[i]
      {
        assert u[i] * 1.0 == t[i];
      }
    }
  }

  /** The first loop of Normalize: the largest magnitude. */
  method PeakOf(s: seq<real>) returns (maxAmp: real)
    ensures maxAmp == Peak(s)
  {
    maxAmp := 0.0;
    for i := 0 to |s|
      invariant maxAmp == Peak(s[..i])
    {
      assert s[..i + 1][..i] == s[..i];
      var a := Abs(s[i]);
      if a > maxAmp {
        maxAmp := a;
      }
    }
    assert s[..|s|] == s;
  }

  class Signal {
    var samples: seq<real>
    var sampleRate: real

    /** NewSignal: no samples yet, at the given rate. */
    constructor(sampleRate: real)
      ensures samples == [] && this.sampleRate == sampleRate
    {
      samples := [];
      this.sampleRate := sampleRate;
    }

    /** AddSample: one sample at the end, nothing else touched. */
    method AddSample(sample: real)
      modifies this`samples
      ensures samples == old(samples) + [sample]
    {
      samples := samples + [sample];
    }

    /** GetDuration: the length in seconds, that is the sample count over
        the rate. */
    function GetDuration(): (d: real)
      reads this
      requires sampleRate != 0.0
      ensures d * sampleRate == |samples| as real
    {
      Quotient(|samples| as real, sampleRate)
    }

    /** Normalize: divides every sample by the peak magnitude in place,
        when that peak is positive. */
    method Normalize()
      modifies this`samples
      ensures samples == Normalized(old(samples))
    {
      var maxAmp := PeakOf(samples);
      if maxAmp > 0.0 {
        ghost var s := samples;
        for i := 0 to |samples|
          invariant |samples| == |s|
          invariant forall j :: 0 <= j < i ==> samples[j] == Quotient(s[j], maxAmp)
          invariant forall j :: i <= j < |s| ==> samples[j] == s[j]
        {
          samples := samples[i := samples[i] / maxAmp];
        }
        assert samples == DividedBy(s, maxAmp);
      }
    }

    /** Filter: the samples replaced by their causal convolution with the
        taps. */
    method Filter(coeffs: seq<real>)
      modifies this`samples
      ensures samples == FirProcessing.Convolved(old(samples), coeffs)
    {
      samples := FirProcessing.ApplyFilter(samples, coeffs);
    }
  }
}
