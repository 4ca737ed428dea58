/** Facts about finite sequences of real samples used by the statistics,
    filter, demodulator and signal modules: absolute value, sums, extrema,
    peak magnitude and an insertion sort that stands for the library sort. */
module RealSeq {

  function Abs(x: real): real
  {
    if x < 0.0 then -x else x
  }

  // Small facts of real multiplication and division, stated once so that
  // callers do not leave them to the solver's non-linear reasoning.

  lemma MulMonotone(a: real, b: real, c: real)
    requires a <= b && c >= 0.0
    ensures a * c <= b * c
  {
  }

  lemma MulStrict(a: real, b: real, c: real)
    requires a < b && c > 0.0
    ensures a * c < b * c
  {
  }

  lemma MulNonNegative(a: real, b: real)
    requires a >= 0.0 && b >= 0.0
    ensures a * b >= 0.0
  {
  }

  lemma MulCancel(a: real, b: real, c: real)
    requires a * c == b * c && c != 0.0
    ensures a == b
  {
  }

  lemma DivCancel(c: real, p: real)
    requires p != 0.0
    ensures p * (c / p) == c && (c / p) * p == c
  {
  }

  /** x/p, with its defining property. */
  function Quotient(x: real, p: real): (q: real)
    requires p != 0.0
    ensures q * p == x
    ensures x >= 0.0 && p > 0.0 ==> q >= 0.0
  {
    DivCancel(x, p);
    x / p
  }

  /** Sum of a sequence, accumulated front to back as the source's loops do. */
  function Sum(s: seq<real>): real
  {
    if |s| == 0 then 0.0 else Sum(s[..|s| - 1]) + s[|s| - 1]
  }

  lemma {:induction false} SumAppend(a: seq<real>, b: seq<real>)
    ensures Sum(a + b) == Sum(a) + Sum(b)
    decreases |b|
  {
    if |b| == 0 {
      assert a + b == a;
    } else {
      assert (a + b)[..|a + b| - 1] == a + b[..|b| - 1];
      SumAppend(a, b[..|b| - 1]);
    }
  }

  lemma SumSingle(x: real)
    ensures Sum([x]) == x
  {
    assert [x][..0] == [];
  }

  /** Overwriting one element changes the sum by the difference. */
  lemma SumUpdate(s: seq<real>, i: nat, v: real)
    requires i < |s|
    ensures Sum(s[i := v]) == Sum(s) - s[i] + v
  {
    assert s == s[..i] + [s[i]] + s[i + 1..];
    assert s[i := v] == s[..i] + [v] + s[i + 1..];
    SumAppend(s[..i] + [s[i]], s[i + 1..]);
    SumAppend(s[..i], [s[i]]);
    SumAppend(s[..i] + [v], s[i + 1..]);
    SumAppend(s[..i], [v]);
    SumSingle(s[i]);
    SumSingle(v);
  }

  /** Sum of the first `k` elements equals the previous partial sum plus s[k-1]. */
  lemma SumPrefixStep(s: seq<real>, k: nat)
    requires 0 < k <= |s|
    ensures Sum(s[..k]) == Sum(s[..k - 1]) + s[k - 1]
  {
    assert s[..k][..k - 1] == s[..k - 1];
  }

  lemma {:induction false} SumConstant(n: nat, v: real)
    ensures Sum(seq(n, _ => v)) == (n as real) * v
  {
    if n > 0 {
      assert seq(n, _ => v)[..n - 1] == seq(n - 1, _ => v);
      SumConstant(n - 1, v);
    }
  }

  /** Dividing every element by `g` divides the sum by `g`. */
  lemma {:induction false} SumDivide(s: seq<real>, g: real)
    requires g != 0.0
    ensures Sum(seq(|s|, i requires 0 <= i < |s| => s[i] / g)) == Sum(s) / g
    decreases |s|
  {
    var t := seq(|s|, i requires 0 <= i < |s| => s[i] / g);
    if |s| > 0 {
      var s' := s[..|s| - 1];
      assert t[..|t| - 1] == seq(|s'|, i requires 0 <= i < |s'| => s'[i] / g);
      SumDivide(s', g);
      var a, b := Sum(s'), s[|s| - 1];
      assert Sum(t) == a / g + b / g;
      assert a / g + b / g == (a + b) / g;
      assert s == s' + [b];
    }
  }

  function Min(s: seq<real>): real
    requires |s| > 0
  {
    if |s| == 1 then s[0] else var m := Min(s[1..]); if s[0] <= m then s[0] else m
  }

  function Max(s: seq<real>): real
    requires |s| > 0
  {
    if |s| == 1 then s[0] else var m := Max(s[1..]); if s[0] >= m then s[0] else m
  }

  /** Min and Max are attained and bound every element. */
  lemma {:induction false} MinMaxBound(s: seq<real>)
    requires |s| > 0
    ensures Min(s) in s && Max(s) in s
    ensures forall k :: 0 <= k < |s| ==> Min(s) <= s[k] <= Max(s)
  {
    if |s| > 1 {
      MinMaxBound(s[1..]);
      assert forall k :: 1 <= k < |s| ==> s[k] == s[1..][k - 1];
    }
  }

  /** The largest magnitude in `s`, 0 for the empty sequence; it is the
      `maxAmp` the source tracks while it scans a signal. */
  function Peak(s: seq<real>): real
  {
    if |s| == 0 then 0.0
    else var p := Peak(s[..|s| - 1]); if Abs(s[|s| - 1]) > p then Abs(s[|s| - 1]) else p
  }

  lemma {:induction false} PeakBound(s: seq<real>)
    ensures Peak(s) >= 0.0
    ensures forall k :: 0 <= k < |s| ==> Abs(s[k]) <= Peak(s)
    ensures Peak(s) > 0.0 ==> exists k :: 0 <= k < |s| && Abs(s[k]) == Peak(s)
  {
    if |s| > 0 {
      var s' := s[..|s| - 1];
      PeakBound(s');
      assert forall k :: 0 <= k < |s'| ==> s[k] == s'[k];
      if Peak(s') > 0.0 && Peak(s) == Peak(s') {
        var k :| 0 <= k < |s'| && Abs(s'[k]) == Peak(s');
        assert Abs(s[k]) == Peak(s);
      }
    }
  }

  /** The peak is 0 exactly when every sample is 0. */
  lemma PeakZero(s: seq<real>)
    ensures Peak(s) == 0.0 <==> forall k :: 0 <= k < |s| ==> s[k] == 0.0
  {
    PeakBound(s);
  }

  ghost predicate Sorted(s: seq<real>)
  {
    forall i, j :: 0 <= i < j < |s| ==> s[i] <= s[j]
  }

  function Insert(x: real, s: seq<real>): seq<real>
  {
    if s == [] || x <= s[0] then [x] + s else [s[0]] + Insert(x, s[1..])
  }

  /** Insertion sort: the reference meaning of the library sort. */
  function SortSeq(s: seq<real>): seq<real>
  {
    if s == [] then [] else Insert(s[0], SortSeq(s[1..]))
  }

  lemma {:induction false} InsertPermutes(x: real, s: seq<real>)
    ensures multiset(Insert(x, s)) == multiset{x} + multiset(s)
    ensures |Insert(x, s)| == |s| + 1
  {
    if s != [] && x > s[0] {
      InsertPermutes(x, s[1..]);
      assert s == [s[0]] + s[1..];
    }
  }

  /** Inserting a value no smaller than `m` into values no smaller than `m`
      keeps every value no smaller than `m`. */
  lemma {:induction false} InsertLowerBound(x: real, s: seq<real>, m: real)
    requires m <= x && forall k :: 0 <= k < |s| ==> m <= s[k]
    ensures forall k :: 0 <= k < |Insert(x, s)| ==> m <= Insert(x, s)[k]
  {
    if s != [] && x > s[0] {
      InsertLowerBound(x, s[1..], m);
    }
  }

  lemma {:induction false} InsertSorted(x: real, s: seq<real>)
    requires Sorted(s)
    ensures Sorted(Insert(x, s))
  {
    if s != [] && x > s[0] {
      var rest := Insert(x, s[1..]);
      InsertSorted(x, s[1..]);
      InsertLowerBound(x, s[1..], s[0]);
      var r := [s[0]] + rest;
      assert Insert(x, s) == r;
      forall i, j | 0 <= i < j < |r| ensures r[i] <= r[j] {
        if i > 0 {
          assert r[i] == rest[i - 1] && r[j] == rest[j - 1];
        } else {
          assert r[j] == rest[j - 1];
        }
      }
    }
  }

  lemma {:induction false} SortSeqCorrect(s: seq<real>)
    ensures Sorted(SortSeq(s))
    ensures multiset(SortSeq(s)) == multiset(s)
    ensures |SortSeq(s)| == |s|
  {
    if s != [] {
      SortSeqCorrect(s[1..]);
      InsertSorted(s[0], SortSeq(s[1..]));
      InsertPermutes(s[0], SortSeq(s[1..]));
      assert s == [s[0]] + s[1..];
      assert |multiset(SortSeq(s))| == |multiset(s)|;
    }
  }

  /** Every element of the sorted copy lies between the extrema of the input. */
  lemma SortSeqWithinBounds(s: seq<real>)
    requires |s| > 0
    ensures |SortSeq(s)| == |s|
    ensures forall k :: 0 <= k < |s| ==> Min(s) <= SortSeq(s)[k] <= Max(s)
  {
    SortSeqCorrect(s);
    MinMaxBound(s);
    var t := SortSeq(s);
    forall k | 0 <= k < |t| ensures Min(s) <= t[k] <= Max(s) {
      assert t[k] in multiset(t);
      assert t[k] in s;
    }
  }
}
