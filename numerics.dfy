/**
 * The numpy descriptive statistics the analyzer and the classifier call
 * (`np.mean`, `np.median`, `np.var(x, ddof=1)`), computed exactly over the
 * reals, with the facts about them that the engines rely on.
 */
module Numerics {

  function Sum(x: seq<real>): real {
    if x == [] then 0.0 else x[0] + Sum(x[1..])
  }

  /** `np.mean`, defined for a non-empty sample. */
  function Mean(x: seq<real>): real
    requires |x| > 0
  {
    Sum(x) / (|x| as real)
  }

  function Minimum(x: seq<real>): (m: real)
    requires |x| > 0
    ensures m in x
    ensures forall v :: v in x ==> m <= v
  {
    if |x| == 1 then x[0]
    else
      var r := Minimum(x[1..]);
      assert forall v :: v in x ==> v == x[0] || v in x[1..];
      if x[0] <= r then x[0] else r
  }

  function Maximum(x: seq<real>): (m: real)
    requires |x| > 0
    ensures m in x
    ensures forall v :: v in x ==> v <= m
  {
    if |x| == 1 then x[0]
    else
      var r := Maximum(x[1..]);
      assert forall v :: v in x ==> v == x[0] || v in x[1..];
      if x[0] >= r then x[0] else r
  }

  /** Every value of the sample is the same. */
  predicate Constant(x: seq<real>) {
    forall i :: 0 <= i < |x| ==> x[i] == x[0]
  }

  function Square(d: real): real {
    d * d
  }

  /** The sum of squared deviations of the sample from `m`. */
  function SquaredDeviations(x: seq<real>, m: real): real {
    if x == [] then 0.0 else Square(x[0] - m) + SquaredDeviations(x[1..], m)
  }

  /** `np.var(x, ddof=1)`: the sample variance, with divisor n - 1. */
  function SampleVariance(x: seq<real>): real
    requires |x| >= 2
  {
    SquaredDeviations(x, Mean(x)) / ((|x| - 1) as real)
  }

  predicate Sorted(s: seq<real>) {
    forall i, j :: 0 <= i < j < |s| ==> s[i] <= s[j]
  }

  function Insert(v: real, s: seq<real>): (r: seq<real>)
    requires Sorted(s)
    ensures Sorted(r)
    ensures multiset(r) == multiset(s) + multiset{v}
  {
    if s == [] then [v]
    else if v <= s[0] then [v] + s
    else
      var rest := Insert(v, s[1..]);
      InsertAfterHead(v, s, rest);
      [s[0]] + rest
  }

  /** Putting the head back in front of the insertion into the tail keeps the order. */
  lemma InsertAfterHead(v: real, s: seq<real>, rest: seq<real>)
    requires Sorted(s) && |s| > 0 && s[0] < v
    requires Sorted(rest) && multiset(rest) == multiset(s[1..]) + multiset{v}
    ensures Sorted([s[0]] + rest)
    ensures multiset([s[0]] + rest) == multiset(s) + multiset{v}
  {
    assert s == [s[0]] + s[1..];
    forall i | 0 <= i < |rest| ensures s[0] <= rest[i] {
      assert rest[i] in multiset(rest);
      assert rest[i] == v || rest[i] in multiset(s[1..]);
    }
  }

  /** The sample in ascending order. */
  function Sort(x: seq<real>): (r: seq<real>)
    ensures Sorted(r)
    ensures multiset(r) == multiset(x)
    ensures |r| == |x|
  {
    if x == [] then []
    else
      assert x == [x[0]] + x[1..];
      var r := Insert(x[0], Sort(x[1..]));
      assert |multiset(r)| == |r|;
      r
  }

  /** `np.median`: the middle value of the sorted sample, or the mean of the two middle values. */
  function Median(x: seq<real>): real
    requires |x| > 0
  {
    Middle(Sort(x))
  }

  /** The middle value of a sequence, or the mean of its two middle values. */
  function Middle(s: seq<real>): real
    requires |s| > 0
  {
    var mid := |s| / 2;
    if |s| % 2 == 1 then s[mid] else (s[mid - 1] + s[mid]) / 2.0
  }

  /** The middle of values that lie in a range lies in that range. */
  lemma MiddleBounded(s: seq<real>, lo: real, hi: real)
    requires |s| > 0 && forall k :: 0 <= k < |s| ==> lo <= s[k] <= hi
    ensures lo <= Middle(s) <= hi
  {
    var mid := |s| / 2;
    if |s| % 2 == 0 {
      assert lo <= s[mid - 1] <= hi && lo <= s[mid] <= hi;
    }
  }

  /** The sum is at least `|x|` times any lower bound of the values. */
  lemma {:induction false} SumLowerBound(x: seq<real>, lo: real)
    requires forall i :: 0 <= i < |x| ==> lo <= x[i]
    ensures (|x| as real) * lo <= Sum(x)
  {
    if x != [] {
      SumLowerBound(x[1..], lo);
      Distribute(|x|, lo);
    }
  }

  /** The sum is at most `|x|` times any upper bound of the values. */
  lemma {:induction false} SumUpperBound(x: seq<real>, hi: real)
    requires forall i :: 0 <= i < |x| ==> x[i] <= hi
    ensures Sum(x) <= (|x| as real) * hi
  {
    if x != [] {
      SumUpperBound(x[1..], hi);
      Distribute(|x|, hi);
    }
  }

  /** The mean is at least any lower bound of the values. */
  lemma MeanAtLeast(x: seq<real>, lo: real)
    requires |x| > 0 && forall i :: 0 <= i < |x| ==> lo <= x[i]
    ensures lo <= Mean(x)
  {
    SumLowerBound(x, lo);
    var total, n := Sum(x), |x| as real;
    QuotientLower(total, n, lo);
  }

  /** The mean is at most any upper bound of the values. */
  lemma MeanAtMost(x: seq<real>, hi: real)
    requires |x| > 0 && forall i :: 0 <= i < |x| ==> x[i] <= hi
    ensures Mean(x) <= hi
  {
    SumUpperBound(x, hi);
    var total, n := Sum(x), |x| as real;
    QuotientUpper(total, n, hi);
  }

  /** The mean lies between the smallest and the largest value. */
  lemma MeanBounds(x: seq<real>)
    requires |x| > 0
    ensures Minimum(x) <= Mean(x) <= Maximum(x)
  {
    var lo, hi := Minimum(x), Maximum(x);
    forall i | 0 <= i < |x| ensures lo <= x[i] <= hi {
      assert x[i] in x;
    }
    MeanAtLeast(x, lo);
    MeanAtMost(x, hi);
  }

  /** Sorting keeps every value between the smallest and the largest one. */
  lemma SortBounded(x: seq<real>)
    requires |x| > 0
    ensures forall k :: 0 <= k < |Sort(x)| ==> Minimum(x) <= Sort(x)[k] <= Maximum(x)
  {
    var s := Sort(x);
    forall k | 0 <= k < |s| ensures Minimum(x) <= s[k] <= Maximum(x) {
      assert s[k] in multiset(s);
      assert s[k] in x;
    }
  }

  /** The median lies between the smallest and the largest value. */
  lemma MedianBounds(x: seq<real>)
    requires |x| > 0
    ensures Minimum(x) <= Median(x) <= Maximum(x)
  {
    SortBounded(x);
    MiddleBounded(Sort(x), Minimum(x), Maximum(x));
  }

  lemma {:induction false} SquaredDeviationsNonNegative(x: seq<real>, m: real)
    ensures SquaredDeviations(x, m) >= 0.0
  {
    if x != [] {
      SquaredDeviationsNonNegative(x[1..], m);
      SquareNonNegative(x[0] - m);
    }
  }

  /** The squared deviations from `m` vanish when every value equals `m`. */
  lemma {:induction false} SquaredDeviationsAtConstant(x: seq<real>, m: real)
    requires forall i :: 0 <= i < |x| ==> x[i] == m
    ensures SquaredDeviations(x, m) == 0.0
  {
    if x != [] {
      assert forall i :: 0 <= i < |x| - 1 ==> x[1..][i] == x[i + 1];
      SquaredDeviationsAtConstant(x[1..], m);
      SquareOfZero(x[0] - m);
    }
  }

  lemma {:induction false} SumConstant(x: seq<real>)
    requires |x| > 0 && Constant(x)
    ensures Sum(x) == (|x| as real) * x[0]
  {
    if |x| > 1 {
      assert Constant(x[1..]) by {
        forall i | 0 <= i < |x| - 1 ensures x[1..][i] == x[1..][0] {
          assert x[1..][i] == x[i + 1];
        }
      }
      SumConstant(x[1..]);
      Distribute(|x|, x[0]);
    }
  }

  /** The sample variance is never negative. */
  lemma VarianceNonNegative(x: seq<real>)
    requires |x| >= 2
    ensures SampleVariance(x) >= 0.0
  {
    SquaredDeviationsNonNegative(x, Mean(x));
    DivideZero(SquaredDeviations(x, Mean(x)), (|x| - 1) as real);
  }

  /** A constant sample has zero variance. */
  lemma ConstantVarianceZero(x: seq<real>)
    requires |x| >= 2 && Constant(x)
    ensures SampleVariance(x) == 0.0
  {
    SumConstant(x);
    DivideMultiple(|x| as real, x[0]);
    assert Mean(x) == x[0];
    SquaredDeviationsAtConstant(x, x[0]);
    DivideZero(SquaredDeviations(x, x[0]), (|x| - 1) as real);
  }

  // Small facts of real arithmetic, each kept apart so that the solver sees
  // one product or quotient at a time.

  lemma Distribute(n: int, v: real)
    ensures (n as real) * v == ((n - 1) as real) * v + v
  {
  }

  lemma QuotientLower(s: real, n: real, lo: real)
    requires n > 0.0 && n * lo <= s
    ensures lo <= s / n
  {
  }

  lemma QuotientUpper(s: real, n: real, hi: real)
    requires n > 0.0 && s <= n * hi
    ensures s / n <= hi
  {
  }

  lemma DivideMultiple(n: real, v: real)
    requires n > 0.0
    ensures (n * v) / n == v
  {
  }

  lemma DivideZero(s: real, n: real)
    requires n > 0.0
    ensures s >= 0.0 ==> s / n >= 0.0
    ensures s / n == 0.0 <==> s == 0.0
  {
  }

  lemma SquareNonNegative(d: real)
    ensures Square(d) >= 0.0
  {
    ProductOfSameNonNegative(d);
  }

  lemma ProductOfSameNonNegative(d: real)
    ensures d * d >= 0.0
  {
  }

  lemma SquareOfZero(d: real)
    requires d == 0.0
    ensures Square(d) == 0.0
  {
  }

  lemma ProductNonNegative(a: real, b: real)
    requires a >= 0.0 && b >= 0.0
    ensures a * b >= 0.0
  {
  }

  lemma QuotientTimesDivisor(a: real, b: real)
    requires b != 0.0
    ensures (a / b) * b == a
  {
  }

  lemma QuotientSign(a: real, b: real)
    requires b > 0.0
    ensures (a / b > 0.0 <==> a > 0.0) && (a / b < 0.0 <==> a < 0.0) && (a / b == 0.0 <==> a == 0.0)
  {
  }

  lemma QuotientOfNegation(a: real, b: real)
    requires b != 0.0
    ensures (-a) / b == -(a / b)
  {
  }
}
