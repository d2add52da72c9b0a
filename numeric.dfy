/** Real-number helpers shared by the registration and co-segmentation models:
    running sums, a quotient that stays total, truncation toward zero, and the
    median as Armadillo computes it (mean of the two middle elements). */
module Numeric {

  /** Left-to-right running total, the order in which the source accumulates. */
  function Sum(s: seq<real>): real
  {
    if s == [] then 0.0 else Sum(s[..|s| - 1]) + s[|s| - 1]
  }

  lemma SumAppend(s: seq<real>, x: real)
    ensures Sum(s + [x]) == Sum(s) + x
  {
    assert (s + [x])[..|s + [x]| - 1] == s;
  }

  lemma {:induction false} SumNonNegative(s: seq<real>)
    requires forall i :: 0 <= i < |s| ==> s[i] >= 0.0
    ensures Sum(s) >= 0.0
  {
    if s != [] {
      SumNonNegative(s[..|s| - 1]);
    }
  }

  lemma {:induction false} SumZeros(s: seq<real>)
    requires forall i :: 0 <= i < |s| ==> s[i] == 0.0
    ensures Sum(s) == 0.0
  {
    if s != [] {
      SumZeros(s[..|s| - 1]);
    }
  }

  /** Sum of the elementwise sum of two sequences. */
  lemma {:induction false} SumPointwiseAdd(a: seq<real>, b: seq<real>, c: seq<real>)
    requires |a| == |b| == |c|
    requires forall i :: 0 <= i < |c| ==> c[i] == a[i] + b[i]
    ensures Sum(c) == Sum(a) + Sum(b)
  {
    if c != [] {
      SumPointwiseAdd(a[..|a| - 1], b[..|b| - 1], c[..|c| - 1]);
    }
  }

  /** Sum of a sequence scaled by a constant. */
  lemma {:induction false} SumScale(a: seq<real>, k: real, c: seq<real>)
    requires |a| == |c|
    requires forall i :: 0 <= i < |c| ==> c[i] == k * a[i]
    ensures Sum(c) == k * Sum(a)
  {
    if c != [] {
      SumScale(a[..|a| - 1], k, c[..|c| - 1]);
    }
  }

  /** Every element of a sequence of non-negative reals is at most its sum. */
  lemma {:induction false} ElementAtMostSum(s: seq<real>, i: nat)
    requires i < |s|
    requires forall j :: 0 <= j < |s| ==> s[j] >= 0.0
    ensures s[i] <= Sum(s)
  {
    SumNonNegative(s[..|s| - 1]);
    if i < |s| - 1 {
      ElementAtMostSum(s[..|s| - 1], i);
    }
  }

  /** The source divides floats; a zero divisor gives an IEEE infinity or NaN,
      which this model does not represent. `Quot` is the ordinary quotient for a
      non-zero divisor and 0 otherwise, so every contract about a quotient is
      stated for a non-zero divisor. */
  function Quot(a: real, b: real): real
  {
    if b == 0.0 then 0.0 else a / b
  }

  /** For a non-zero divisor the quotient undoes the multiplication. */
  lemma QuotInverse(a: real, b: real)
    requires b != 0.0
    ensures Quot(a, b) * b == a
  {
  }

  lemma QuotNonNegative(a: real, b: real)
    requires a >= 0.0 && b >= 0.0
    ensures Quot(a, b) >= 0.0
  {
  }

  lemma QuotAsProduct(a: real, d: real)
    requires d != 0.0
    ensures Quot(a, d) == (1.0 / d) * a
  {
  }

  /** Every element divided by mu. */
  function Divided(s: seq<real>, mu: real): (p: seq<real>)
    ensures |p| == |s|
  {
    seq(|s|, j requires 0 <= j < |s| => Quot(s[j], mu))
  }

  /** Dividing every element by mu divides the sum by mu. */
  lemma QuotientSum(s: seq<real>, mu: real)
    ensures Sum(Divided(s, mu)) == if mu == 0.0 then 0.0 else (1.0 / mu) * Sum(s)
  {
    var p := Divided(s, mu);
    if mu == 0.0 {
      SumZeros(p);
    } else {
      var c := 1.0 / mu;
      forall j | 0 <= j < |p| ensures p[j] == c * s[j] {
        QuotAsProduct(s[j], mu);
      }
      SumScale(s, c, p);
    }
  }

  /** A quotient of a non-negative value by a divisor it does not exceed lies
      in [0, 1], and is 1 when the two are equal. */
  lemma QuotUnit(t: real, d: real)
    requires 0.0 <= t <= d && d != 0.0
    ensures 0.0 <= Quot(t, d) <= 1.0
    ensures t == d ==> Quot(t, d) == 1.0
  {
  }

  /** Dividing by a divisor at least the (non-negative) sum leaves a sum in
      [0, 1]; dividing by the sum itself leaves exactly 1. */
  lemma DividedSumBounds(s: seq<real>, d: real)
    requires 0.0 <= Sum(s) <= d
    ensures 0.0 <= Sum(Divided(s, d)) <= 1.0
    ensures Sum(s) == d != 0.0 ==> Sum(Divided(s, d)) == 1.0
  {
    QuotientSum(s, d);
    if d != 0.0 {
      QuotAsProduct(Sum(s), d);
      QuotUnit(Sum(s), d);
    }
  }

  /** A constant sequence of length n sums to n times the constant. */
  lemma {:induction false} SumConstant(n: nat, c: real)
    ensures Sum(seq(n, _ => c)) == n as real * c
  {
    if n > 0 {
      assert seq(n, _ => c)[..n - 1] == seq(n - 1, _ => c);
      SumConstant(n - 1, c);
    }
  }

  /** C++ `int(x)`: truncation toward zero. */
  function Trunc(x: real): (r: int)
    ensures x >= 0.0 ==> r as real <= x < r as real + 1.0
    ensures x < 0.0 ==> r as real - 1.0 < x <= r as real
  {
    if x >= 0.0 then x.Floor else -((-x).Floor)
  }

  ghost predicate Sorted(s: seq<real>)
  {
    forall i, j :: 0 <= i < j < |s| ==> s[i] <= s[j]
  }

  /** Places x before the first element it does not exceed. */
  function Insert(x: real, s: seq<real>): (r: seq<real>)
    ensures multiset(r) == multiset(s) + multiset{x} && |r| == |s| + 1
    decreases |s|
  {
    if s == [] || x <= s[0] then
      [x] + s
    else
      assert s == [s[0]] + s[1..];
      [s[0]] + Insert(x, s[1..])
  }

  lemma {:induction false} InsertSorted(x: real, s: seq<real>)
    requires Sorted(s)
    ensures Sorted(Insert(x, s))
    decreases |s|
  {
    if s != [] && x > s[0] {
      var t := Insert(x, s[1..]);
      InsertSorted(x, s[1..]);
      forall k | 0 <= k < |t| ensures s[0] <= t[k] {
        assert t[k] in multiset(s[1..]) + multiset{x} by {
          assert t[k] in multiset(t);
        }
      }
      SortedCons(s[0], t);
    }
  }

  lemma SortedCons(a: real, t: seq<real>)
    requires Sorted(t) && forall k :: 0 <= k < |t| ==> a <= t[k]
    ensures Sorted([a] + t)
  {
  }

  /** Insertion sort, standing in for the partial sort inside `arma::median`. */
  function SortReals(s: seq<real>): (r: seq<real>)
    ensures Sorted(r) && multiset(r) == multiset(s) && |r| == |s|
    decreases |s|
  {
    if s == [] then
      []
    else
      assert s == s[..|s| - 1] + [s[|s| - 1]];
      var t := SortReals(s[..|s| - 1]);
      InsertSorted(s[|s| - 1], t);
      Insert(s[|s| - 1], t)
  }

  /** `arma::median` of a non-empty vector of floating-point values: the middle
      element of the sorted vector, or the mean of the two middle ones. */
  function Median(s: seq<real>): real
    requires |s| > 0
  {
    var t := SortReals(s);
    var half := |t| / 2;
    if |t| % 2 == 1 then t[half] else (t[half - 1] + t[half]) / 2.0
  }

  /** `arma::median` of an unsigned-integer vector: the mean of the two middle
      elements is taken in integer arithmetic (lo + (hi - lo) / 2), so it is
      truncated. */
  function MedianCount(counts: seq<nat>): nat
    requires |counts| > 0
  {
    MedianOfCountsNonNegative(counts);
    Median(AsReals(counts)).Floor
  }

  function AsReals(counts: seq<nat>): (r: seq<real>)
    ensures |r| == |counts| && forall i :: 0 <= i < |r| ==> r[i] == counts[i] as real
  {
    seq(|counts|, i requires 0 <= i < |counts| => counts[i] as real)
  }

  lemma InMultiset(s: seq<real>, t: seq<real>, i: nat)
    requires multiset(s) == multiset(t) && i < |t|
    ensures exists j :: 0 <= j < |s| && s[j] == t[i]
  {
    assert t[i] in multiset(t);
    assert t[i] in multiset(s);
  }

  /** The median lies between two of the values it summarises. */
  lemma MedianBetweenElements(s: seq<real>)
    requires |s| > 0
    ensures exists i :: 0 <= i < |s| && s[i] <= Median(s)
    ensures exists j :: 0 <= j < |s| && Median(s) <= s[j]
  {
    var t := SortReals(s);
    var half := |t| / 2;
    if |t| % 2 == 1 {
      InMultiset(s, t, half);
    } else {
      assert t[half - 1] <= t[half];
      InMultiset(s, t, half - 1);
      InMultiset(s, t, half);
    }
  }

  /** The truncated median of counts is at least one of the counts and at
      most another. */
  lemma MedianCountBetween(counts: seq<nat>)
    requires |counts| > 0
    ensures exists i :: 0 <= i < |counts| && counts[i] <= MedianCount(counts)
    ensures exists j :: 0 <= j < |counts| && MedianCount(counts) <= counts[j]
  {
    var r := AsReals(counts);
    MedianBetweenElements(r);
    var i :| 0 <= i < |r| && r[i] <= Median(r);
    var j :| 0 <= j < |r| && Median(r) <= r[j];
    MedianOfCountsNonNegative(counts);
    assert counts[i] <= MedianCount(counts);
    assert MedianCount(counts) <= counts[j];
  }

  /** Every median of non-negative counts is itself non-negative, so its floor
      is a count. */
  lemma MedianOfCountsNonNegative(counts: seq<nat>)
    requires |counts| > 0
    ensures Median(AsReals(counts)) >= 0.0
  {
    var r := AsReals(counts);
    MedianBetweenElements(r);
    var i :| 0 <= i < |r| && r[i] <= Median(r);
    var t := SortReals(r);
    assert forall k :: 0 <= k < |t| ==> t[k] >= 0.0 by {
      forall k | 0 <= k < |t| ensures t[k] >= 0.0 {
        InMultiset(r, t, k);
      }
    }
  }

  /** A product of two positive reals is positive (stated about a named
      product, which keeps the solver's rewriting of squares out of the way). */
  lemma ProductPositive(a: real, b: real, p: real)
    requires a > 0.0 && b > 0.0 && p == a * b
    ensures p > 0.0
  {
  }

  lemma ProductNonNegative(a: real, b: real, p: real)
    requires a >= 0.0 && b >= 0.0 && p == a * b
    ensures p >= 0.0
  {
  }

  /** The largest entry of a non-empty sequence of naturals (`arma::max` on
      an index or label vector). */
  function NatMax(s: seq<nat>): (m: nat)
    requires |s| > 0
    ensures m in s && forall i :: 0 <= i < |s| ==> s[i] <= m
  {
    if |s| == 1 then s[0]
    else
      var m := NatMax(s[..|s| - 1]);
      if s[|s| - 1] > m then s[|s| - 1] else m
  }

  /** `std::vector::resize`: cut to n elements, or extend with `fill`. */
  function Resize<T>(s: seq<T>, n: nat, fill: T): (r: seq<T>)
    ensures |r| == n
    ensures forall i :: 0 <= i < n ==> r[i] == if i < |s| then s[i] else fill
  {
    if n <= |s| then s[..n] else s + seq(n - |s|, _ => fill)
  }
}
