/** Statistics helpers of pkg/filter/utils.go: arithmetic mean, the variance
    under the square root of the sample standard deviation, and the median of
    a sorted copy. The loops live in methods; each method is proved equal to
    the specification function beside it. */
module Stats {
  import opened RealSeq

  /** 0 for the empty sequence, otherwise sum / length. */
  function Mean(s: seq<real>): real
  {
    if |s| == 0 then 0.0 else Sum(s) / (|s| as real)
  }

  /** Sum of squared deviations from `m`. */
  function SumSquares(s: seq<real>, m: real): real
  {
    if |s| == 0 then 0.0 else SumSquares(s[..|s| - 1], m) + (s[|s| - 1] - m) * (s[|s| - 1] - m)
  }

  /** The sample variance: 0 for fewer than two values, otherwise
      sum of (v - mean)^2 over n - 1. */
  function Variance(s: seq<real>): real
  {
    if |s| < 2 then 0.0 else SumSquares(s, Mean(s)) / ((|s| - 1) as real)
  }

  /** The middle element of an odd-length sequence, the mean of the two
      middle elements of an even-length one. */
  function Middle(t: seq<real>): real
    requires |t| > 0
  {
    var m := |t| / 2;
    if |t| % 2 == 0 then (t[m - 1] + t[m]) / 2.0 else t[m]
  }

  /** 0 for the empty sequence, otherwise the middle of the sorted copy. */
  function MedianOf(s: seq<real>): real
  {
    if |s| == 0 then 0.0
    else
      SortSeqCorrect(s);
      Middle(SortSeq(s))
  }

  /** Reads the middle of the first n cells of a sorted buffer: the cell at
      n / 2 for odd n, the mean of the cells at n / 2 - 1 and n / 2 for even n. */
  method ReadMiddle(a: array<real>, n: nat) returns (m: real)
    requires 0 < n <= a.Length
    ensures m == Middle(a[..n])
  {
    var medianIdx := n / 2;
    if n % 2 == 0 {
      m := (a[medianIdx - 1] + a[medianIdx]) / 2.0;
    } else {
      m := a[medianIdx];
    }
  }

  method CalculateMean(data: seq<real>) returns (mean: real)
    ensures mean == Mean(data)
  {
    if |data| == 0 {
      return 0.0;
    }
    var sum := 0.0;
    for i := 0 to |data|
      invariant sum == Sum(data[..i])
    {
      SumPrefixStep(data, i + 1);
      sum := sum + data[i];
    }
    assert data[..|data|] == data;
    mean := sum / (|data| as real);
  }

  /** The part of calculateStdDev before its square root. */
  method CalculateVariance(data: seq<real>) returns (variance: real)
    ensures variance == Variance(data)
  {
    if |data| < 2 {
      return 0.0;
    }
    var mean := CalculateMean(data);
    var sumSquares := 0.0;
    for i := 0 to |data|
      invariant sumSquares == SumSquares(data[..i], mean)
    {
      assert data[..i + 1][..i] == data[..i];
      var diff := data[i] - mean;
      sumSquares := sumSquares + diff * diff;
    }
    assert data[..|data|] == data;
    variance := sumSquares / ((|data| - 1) as real);
  }

  /** The library sort applied to the first `n` cells of `a`: those cells end
      up holding the sorted permutation of what they held, the rest is left
      alone. */
  method SortPrefix(a: array<real>, n: nat)
    requires n <= a.Length
    modifies a
    ensures a[..n] == SortSeq(old(a[..n]))
    ensures a[n..] == old(a[n..])
  {
    SortSeqCorrect(a[..n]);
    var sorted := SortSeq(a[..n]);
    for k := 0 to n
      invariant forall t :: 0 <= t < k ==> a[t] == sorted[t]
      invariant a[n..] == old(a[n..])
    {
      a[k] := sorted[k];
    }
    assert a[..n] == sorted;
  }

  /** Copies the data into a fresh buffer, sorts the buffer and reads its
      middle: the input is a value and cannot be changed by the sort. */
  method CalculateMedian(data: seq<real>) returns (median: real)
    ensures median == MedianOf(data)
  {
    var n := |data|;
    if n == 0 {
      return 0.0;
    }
    var temp := new real[n];
    for k := 0 to n
      invariant temp[..k] == data[..k]
    {
      temp[k] := data[k];
    }
    assert temp[..n] == data;
    SortPrefix(temp, n);
    SortSeqCorrect(data);
    median := ReadMiddle(temp, n);
  }

  /** The mean of a non-empty constant sequence is that constant. */
  lemma MeanOfConstant(n: nat, v: real)
    requires n > 0
    ensures Mean(seq(n, _ => v)) == v
  {
    SumConstant(n, v);
  }

  lemma {:induction false} SumBounds(s: seq<real>, lo: real, hi: real)
    requires forall k :: 0 <= k < |s| ==> lo <= s[k] <= hi
    ensures (|s| as real) * lo <= Sum(s) <= (|s| as real) * hi
    decreases |s|
  {
    if |s| > 0 {
      var n' := (|s| - 1) as real;
      SumBounds(s[..|s| - 1], lo, hi);
      assert n' * lo + lo == (|s| as real) * lo;
      assert n' * hi + hi == (|s| as real) * hi;
    }
  }

  lemma QuotientBounds(total: real, n: real, lo: real, hi: real)
    requires n > 0.0 && n * lo <= total <= n * hi
    ensures lo <= total / n <= hi
  {
    assert total / n - lo == (total - n * lo) / n;
    assert hi - total / n == (n * hi - total) / n;
  }

  /** A mean of values within [lo, hi] is within [lo, hi]. */
  lemma MeanBetween(s: seq<real>, lo: real, hi: real)
    requires |s| > 0
    requires forall k :: 0 <= k < |s| ==> lo <= s[k] <= hi
    ensures lo <= Mean(s) <= hi
  {
    SumBounds(s, lo, hi);
    var total, n := Sum(s), |s| as real;
    QuotientBounds(total, n, lo, hi);
  }

  lemma MeanWithinBounds(s: seq<real>)
    requires |s| > 0
    ensures Min(s) <= Mean(s) <= Max(s)
  {
    MinMaxBound(s);
    MeanBetween(s, Min(s), Max(s));
  }

  lemma {:induction false} SumSquaresNonNegative(s: seq<real>, m: real)
    ensures SumSquares(s, m) >= 0.0
    decreases |s|
  {
    if |s| > 0 {
      SumSquaresNonNegative(s[..|s| - 1], m);
      var d := s[|s| - 1] - m;
      assert d * d >= 0.0;
    }
  }

  lemma {:induction false} SumSquaresConstant(n: nat, v: real)
    ensures SumSquares(seq(n, _ => v), v) == 0.0
  {
    if n > 0 {
      assert seq(n, _ => v)[..n - 1] == seq(n - 1, _ => v);
      SumSquaresConstant(n - 1, v);
    }
  }

  /** The variance is never negative and is 0 for a constant sequence. */
  lemma VarianceFacts(s: seq<real>, n: nat, v: real)
    ensures Variance(s) >= 0.0
    ensures Variance(seq(n, _ => v)) == 0.0
  {
    if |s| >= 2 {
      SumSquaresNonNegative(s, Mean(s));
    }
    if n >= 2 {
      MeanOfConstant(n, v);
      SumSquaresConstant(n, v);
    }
  }

  /** The median lies between the smallest and the largest value. */
  lemma MedianWithinBounds(s: seq<real>)
    requires |s| > 0
    ensures Min(s) <= MedianOf(s) <= Max(s)
  {
    SortSeqWithinBounds(s);
  }
}
