/** The fusion step of the JRCS co-segmentation engine (`step_d`): the model
    points are rebuilt as the running mean of the weighted views carried back
    into the model frame object by object, every object's points are then
    moved so that their mean sits on the object's position, and the model
    weights and precisions are recomputed from the responsibilities. */
module Fusion {
  import opened Numeric
  import opened Geometry
  import opened Matrices

  /** One object's pose in one view (an entry of `rt_lst_`): x -> R x + t. */
  datatype Pose = Pose(r: Mat3, t: Vec3)

  // ---------------------------------------------------------------------------
  // Object ranges (`obj_range_`: first and last column of every object)

  function Start(ranges: seq<int>, o: nat): int
    requires 2 * o + 1 < |ranges|
  {
    ranges[2 * o]
  }

  function End(ranges: seq<int>, o: nat): int
    requires 2 * o + 1 < |ranges|
  {
    ranges[2 * o + 1]
  }

  predicate InRange(ranges: seq<int>, o: nat, c: int)
    requires 2 * o + 1 < |ranges|
  {
    Start(ranges, o) <= c <= End(ranges, o)
  }

  /** Every one of the n objects has a non-empty range inside the k model
      columns (`cols(s, e)` rejects anything else). */
  ghost predicate RangesValid(ranges: seq<int>, n: nat, k: nat)
  {
    2 * n <= |ranges| && forall o :: 0 <= o < n ==> 0 <= Start(ranges, o) <= End(ranges, o) < k
  }

  /** No column belongs to two objects. */
  ghost predicate Disjoint(ranges: seq<int>, n: nat)
    requires 2 * n <= |ranges|
  {
    forall o1, o2, c :: 0 <= o1 < n && 0 <= o2 < n && o1 != o2 && InRange(ranges, o1, c) ==> !InRange(ranges, o2, c)
  }

  /** The columns of object o. */
  function Slice(xs: seq<Vec3>, ranges: seq<int>, o: nat): (s: seq<Vec3>)
    requires 2 * o + 1 < |ranges| && 0 <= Start(ranges, o) <= End(ranges, o) < |xs|
    ensures |s| > 0
  {
    xs[Start(ranges, o)..End(ranges, o) + 1]
  }

  // ---------------------------------------------------------------------------
  // Running mean of the views

  /** What the blending reads: the weighted points and normals of every view
      (`wvs_ptrlst_`, `wns_ptrlst_`), every view's per-object poses
      (`rt_lst_`), the object ranges and count, the number of model columns,
      and the matrix inverse `R.i()`, which the model takes as given. */
  datatype Scene = Scene(wvs: seq<seq<Vec3>>, wns: seq<seq<Vec3>>, poses: seq<seq<Pose>>,
                         ranges: seq<int>, objNum: nat, k: nat, inv: Mat3 -> Mat3)

  ghost predicate Consistent(sc: Scene)
  {
    |sc.wns| == |sc.wvs| && |sc.wvs| <= |sc.poses| && RangesValid(sc.ranges, sc.objNum, sc.k)
    && forall i :: 0 <= i < |sc.wvs| ==> |sc.wvs[i]| == sc.k && |sc.wns[i]| == sc.k && |sc.poses[i]| >= sc.objNum
  }

  /** rate0 of view i: i / (i + 1). */
  function Rate(i: nat): real
  {
    i as real / (i + 1) as real
  }

  /** rate0 x + rate1 y with rate1 = 1 - rate0. */
  function Blend(x: Vec3, y: Vec3, i: nat): Vec3
  {
    Add(Scale(Rate(i), x), Scale(1.0 - Rate(i), y))
  }

  /** A weighted point of a view carried back by the object's pose:
      R^-1 (w - t). */
  function BackTransformed(inv: Mat3 -> Mat3, pose: Pose, w: Vec3): Vec3
  {
    Apply(inv(pose.r), Sub(w, pose.t))
  }

  /** The model points and normals being rebuilt. */
  datatype Fused = Fused(xv: seq<Vec3>, xn: seq<Vec3>)

  ghost predicate Sized(f: Fused, k: nat)
  {
    |f.xv| == k && |f.xn| == k
  }

  /** Object o of view i: its columns of xv are blended with the view's
      back-transformed points, then its columns of xn are blended from the
      NEW xv columns (not from xn) and the view's back-rotated normals. */
  function BlendObject(f: Fused, sc: Scene, i: nat, o: nat): (g: Fused)
    requires Consistent(sc) && i < |sc.wvs| && o < sc.objNum && Sized(f, sc.k)
    ensures Sized(g, sc.k)
  {
    var pose := sc.poses[i][o];
    var xv := seq(sc.k, c requires 0 <= c < sc.k =>
      if InRange(sc.ranges, o, c) then Blend(f.xv[c], BackTransformed(sc.inv, pose, sc.wvs[i][c]), i) else f.xv[c]);
    var xn := seq(sc.k, c requires 0 <= c < sc.k =>
      if InRange(sc.ranges, o, c) then Blend(xv[c], Apply(sc.inv(pose.r), sc.wns[i][c]), i) else f.xn[c]);
    Fused(xv, xn)
  }

  /** Objects 0 .. n-1 of view i, in order. */
  function BlendObjects(f: Fused, sc: Scene, i: nat, n: nat): (g: Fused)
    requires Consistent(sc) && i < |sc.wvs| && n <= sc.objNum && Sized(f, sc.k)
    ensures Sized(g, sc.k)
  {
    if n == 0 then f else BlendObject(BlendObjects(f, sc, i, n - 1), sc, i, n - 1)
  }

  /** Views 0 .. m-1, in order, from zero-filled points and normals. */
  function BlendViews(sc: Scene, m: nat): (f: Fused)
    requires Consistent(sc) && m <= |sc.wvs|
    ensures Sized(f, sc.k)
  {
    if m == 0 then Fused(ZeroPoints(sc.k), ZeroPoints(sc.k))
    else BlendObjects(BlendViews(sc, m - 1), sc, m - 1, sc.objNum)
  }

  /** The view loop of `step_d` over its object loop. */
  method BlendAll(sc: Scene) returns (f: Fused)
    requires Consistent(sc)
    ensures f == BlendViews(sc, |sc.wvs|)
  {
    f := Fused(ZeroPoints(sc.k), ZeroPoints(sc.k));
    var i := 0;
    while i < |sc.wvs|
      invariant 0 <= i <= |sc.wvs| && f == BlendViews(sc, i)
    {
      var g := f;
      var o := 0;
      while o < sc.objNum
        invariant 0 <= o <= sc.objNum && g == BlendObjects(f, sc, i, o)
      {
        g := BlendObject(g, sc, i, o);
        o := o + 1;
      }
      f := g;
      i := i + 1;
    }
  }

  /** What views 0 .. m-1 contribute to column c of object o. */
  function Contributions(sc: Scene, o: nat, c: nat, m: nat): (ys: seq<Vec3>)
    requires Consistent(sc) && o < sc.objNum && c < sc.k && m <= |sc.wvs|
    ensures |ys| == m
  {
    seq(m, j requires 0 <= j < m => BackTransformed(sc.inv, sc.poses[j][o], sc.wvs[j][c]))
  }

  /** A column that lies in none of the first n ranges keeps its point and
      normal. */
  lemma {:induction false} ObjectsOutside(f: Fused, sc: Scene, i: nat, n: nat, c: nat)
    requires Consistent(sc) && i < |sc.wvs| && n <= sc.objNum && Sized(f, sc.k) && c < sc.k
    requires forall o :: 0 <= o < n ==> !InRange(sc.ranges, o, c)
    ensures BlendObjects(f, sc, i, n).xv[c] == f.xv[c] && BlendObjects(f, sc, i, n).xn[c] == f.xn[c]
  {
    if n > 0 {
      ObjectsOutside(f, sc, i, n - 1, c);
    }
  }

  /** With disjoint ranges, a column of object o is blended exactly once per
      view: its point with the view's back-transformed point, its normal from
      that new point and the view's back-rotated normal. */
  lemma {:induction false} ObjectsAt(f: Fused, sc: Scene, i: nat, n: nat, o: nat, c: nat)
    requires Consistent(sc) && Disjoint(sc.ranges, sc.objNum) && i < |sc.wvs| && Sized(f, sc.k)
    requires o < n <= sc.objNum && c < sc.k && InRange(sc.ranges, o, c)
    ensures var g := BlendObjects(f, sc, i, n);
            var pose := sc.poses[i][o];
            g.xv[c] == Blend(f.xv[c], BackTransformed(sc.inv, pose, sc.wvs[i][c]), i)
            && g.xn[c] == Blend(g.xv[c], Apply(sc.inv(pose.r), sc.wns[i][c]), i)
  {
    if o == n - 1 {
      forall q | 0 <= q < n - 1 ensures !InRange(sc.ranges, q, c) {
      }
      ObjectsOutside(f, sc, i, n - 1, c);
    } else {
      ObjectsAt(f, sc, i, n - 1, o, c);
      assert !InRange(sc.ranges, n - 1, c);
    }
  }

  /** One more value moves the running mean to the mean of all of them. */
  lemma MeanStep(s: real, n: nat, y: real)
    requires n == 0 ==> s == 0.0
    ensures Rate(n) * Quot(s, n as real) + (1.0 - Rate(n)) * y == Quot(s + y, (n + 1) as real)
  {
    var d := (n + 1) as real;
    if n > 0 {
      var m := n as real;
      assert Rate(n) * (s / m) == s / d by {
        assert Rate(n) == m / d;
        assert (m / d) * (s / m) == (m * s) / (d * m);
      }
      assert 1.0 - Rate(n) == 1.0 / d;
    }
  }

  lemma {:induction false} BlendMean(ys: seq<Vec3>, y: Vec3)
    ensures Blend(Mean(ys), y, |ys|) == Mean(ys + [y])
  {
    var s := SumV(ys);
    assert (ys + [y])[..|ys|] == ys;
    assert SumV(ys + [y]) == Add(s, y);
    if ys == [] {
      assert s == Zero;
    }
    MeanStep(s.x, |ys|, y.x);
    MeanStep(s.y, |ys|, y.y);
    MeanStep(s.z, |ys|, y.z);
  }

  /** After views 0 .. m-1, with disjoint ranges, every column of an object
      holds the mean of what those views contribute to it (0 before any
      view), and its normal comes from that point and the last view's normal
      alone. */
  lemma {:induction false} FusedIsMean(sc: Scene, m: nat, o: nat, c: nat)
    requires Consistent(sc) && Disjoint(sc.ranges, sc.objNum) && m <= |sc.wvs|
    requires o < sc.objNum && c < sc.k && InRange(sc.ranges, o, c)
    ensures BlendViews(sc, m).xv[c] == Mean(Contributions(sc, o, c, m))
    ensures m > 0 ==> var pose := sc.poses[m - 1][o];
            BlendViews(sc, m).xn[c] == Blend(BlendViews(sc, m).xv[c], Apply(sc.inv(pose.r), sc.wns[m - 1][c]), m - 1)
  {
    var ys := Contributions(sc, o, c, m);
    if m == 0 {
      assert ys == [];
    } else {
      var prev := BlendViews(sc, m - 1);
      FusedIsMean(sc, m - 1, o, c);
      ObjectsAt(prev, sc, m - 1, sc.objNum, o, c);
      assert Contributions(sc, o, c, m - 1) + [ys[m - 1]] == ys;
      BlendMean(Contributions(sc, o, c, m - 1), ys[m - 1]);
    }
  }

  /** A column outside every range stays at 0. */
  lemma {:induction false} FusedOutside(sc: Scene, m: nat, c: nat)
    requires Consistent(sc) && m <= |sc.wvs| && c < sc.k
    requires forall o :: 0 <= o < sc.objNum ==> !InRange(sc.ranges, o, c)
    ensures BlendViews(sc, m).xv[c] == Zero && BlendViews(sc, m).xn[c] == Zero
  {
    if m > 0 {
      FusedOutside(sc, m - 1, c);
      ObjectsOutside(BlendViews(sc, m - 1), sc, m - 1, sc.objNum, c);
    }
  }

  // ---------------------------------------------------------------------------
  // Re-centring the objects

  /** Object o's columns moved by pos - (their mean). */
  function CentreObject(xv: seq<Vec3>, ranges: seq<int>, o: nat, pos: Vec3): (ys: seq<Vec3>)
    requires 2 * o + 1 < |ranges| && 0 <= Start(ranges, o) <= End(ranges, o) < |xv|
    ensures |ys| == |xv|
  {
    var t := Sub(pos, Mean(Slice(xv, ranges, o)));
    seq(|xv|, c requires 0 <= c < |xv| => if InRange(ranges, o, c) then Add(xv[c], t) else xv[c])
  }

  /** Objects 0 .. n-1 re-centred in order. */
  function CentreObjects(xv: seq<Vec3>, ranges: seq<int>, positions: seq<Vec3>, n: nat): (ys: seq<Vec3>)
    requires RangesValid(ranges, n, |xv|) && n <= |positions|
    ensures |ys| == |xv|
  {
    if n == 0 then xv
    else
      assert RangesValid(ranges, n - 1, |xv|);
      CentreObject(CentreObjects(xv, ranges, positions, n - 1), ranges, n - 1, positions[n - 1])
  }

  /** The re-centring loop of `step_d`. */
  method CentreAll(xv: seq<Vec3>, ranges: seq<int>, positions: seq<Vec3>, n: nat) returns (ys: seq<Vec3>)
    requires RangesValid(ranges, n, |xv|) && n <= |positions|
    ensures ys == CentreObjects(xv, ranges, positions, n)
  {
    ys := xv;
    var o := 0;
    while o < n
      invariant 0 <= o <= n && ys == CentreObjects(xv, ranges, positions, o)
    {
      ys := CentreObject(ys, ranges, o, positions[o]);
      o := o + 1;
    }
  }

  /** Re-centring one object leaves the columns of a disjoint object alone. */
  lemma CentreObjectElsewhere(xv: seq<Vec3>, ranges: seq<int>, o: nat, q: nat, pos: Vec3)
    requires 2 * o + 1 < |ranges| && 0 <= Start(ranges, o) <= End(ranges, o) < |xv|
    requires 2 * q + 1 < |ranges| && 0 <= Start(ranges, q) <= End(ranges, q) < |xv|
    requires forall c :: InRange(ranges, q, c) ==> !InRange(ranges, o, c)
    ensures Slice(CentreObject(xv, ranges, o, pos), ranges, q) == Slice(xv, ranges, q)
  {
    var ys := CentreObject(xv, ranges, o, pos);
    var s := Start(ranges, q);
    forall j | 0 <= j < |Slice(xv, ranges, q)| ensures Slice(ys, ranges, q)[j] == Slice(xv, ranges, q)[j] {
      assert InRange(ranges, q, s + j);
    }
  }

  /** With disjoint ranges, every object's points end with their mean on
      the object's position. */
  lemma {:induction false} CentredMeans(xv: seq<Vec3>, ranges: seq<int>, positions: seq<Vec3>, n: nat, o: nat)
    requires RangesValid(ranges, n, |xv|) && Disjoint(ranges, n) && n <= |positions| && o < n
    ensures Mean(Slice(CentreObjects(xv, ranges, positions, n), ranges, o)) == positions[o]
  {
    assert RangesValid(ranges, n - 1, |xv|);
    var prev := CentreObjects(xv, ranges, positions, n - 1);
    if o == n - 1 {
      CentreObjectMean(prev, ranges, o, positions[o]);
    } else {
      DisjointPrefix(ranges, n);
      CentredMeans(xv, ranges, positions, n - 1, o);
      DisjointPair(ranges, n, n - 1, o);
      CentreObjectElsewhere(prev, ranges, n - 1, o, positions[n - 1]);
    }
  }

  lemma DisjointPrefix(ranges: seq<int>, n: nat)
    requires 2 * n <= |ranges| && Disjoint(ranges, n) && n > 0
    ensures Disjoint(ranges, n - 1)
  {
  }

  /** Two distinct objects share no column. */
  lemma DisjointPair(ranges: seq<int>, n: nat, o: nat, q: nat)
    requires 2 * n <= |ranges| && Disjoint(ranges, n) && o < n && q < n && o != q
    ensures forall c :: InRange(ranges, q, c) ==> !InRange(ranges, o, c)
  {
    forall c | InRange(ranges, q, c) ensures !InRange(ranges, o, c) {
    }
  }

  /** Re-centring an object puts the mean of its points on its position. */
  lemma CentreObjectMean(xv: seq<Vec3>, ranges: seq<int>, o: nat, pos: Vec3)
    requires 2 * o + 1 < |ranges| && 0 <= Start(ranges, o) <= End(ranges, o) < |xv|
    ensures Mean(Slice(CentreObject(xv, ranges, o, pos), ranges, o)) == pos
  {
    var v := Slice(xv, ranges, o);
    var t := Sub(pos, Mean(v));
    assert Slice(CentreObject(xv, ranges, o, pos), ranges, o) == Translate(v, t);
    SeededCentroid(v, pos);
  }

  // ---------------------------------------------------------------------------
  // Model weights and precisions

  /** `alpha_sum`: the column totals of the first buffer, then each further
      buffer's column totals added on. */
  method AlphaSum(alphas: seq<Matrix>, k: nat) returns (s: seq<real>)
    requires |alphas| > 0 && AllWide(alphas, k)
    ensures s == WeightTotals(alphas, k)
  {
    s := ColSums(alphas[0], k);
    FirstWeightTotals(alphas, k);
    var i := 1;
    while i < |alphas|
      invariant 1 <= i <= |alphas| && s == WeightTotals(alphas[..i], k)
    {
      assert alphas[..i + 1][..i] == alphas[..i];
      s := AddSeq(s, ColSums(alphas[i], k));
      i := i + 1;
    }
    assert alphas[..i] == alphas;
  }

  lemma FirstWeightTotals(alphas: seq<Matrix>, k: nat)
    requires |alphas| > 0 && AllWide(alphas, k)
    ensures WeightTotals(alphas[..1], k) == ColSums(alphas[0], k)
  {
    assert alphas[..1][..0] == [];
  }

  /** `x_invvar_`: three times each column's total weight over the column's
      summed variance plus beta. */
  function InvVariances(alphaSum: seq<real>, varSums: seq<real>, beta: real): (p: seq<real>)
    requires |alphaSum| == |varSums|
    ensures |p| == |alphaSum|
  {
    seq(|alphaSum|, j requires 0 <= j < |alphaSum| => Quot(3.0 * alphaSum[j], varSums[j] + beta))
  }

  /** mu: the grand total weight times (1 + beta). */
  function WeightMass(alphaSum: seq<real>, beta: real): real
  {
    Sum(alphaSum) * (1.0 + beta)
  }

  /** `x_p_`: the column totals divided by mu, or left as they are when mu
      is 0. */
  function ModelWeights(alphaSum: seq<real>, beta: real): (p: seq<real>)
    ensures |p| == |alphaSum|
  {
    var mu := WeightMass(alphaSum, beta);
    if mu != 0.0 then Divided(alphaSum, mu) else alphaSum
  }

  /** When mu is not 0 the model weights sum to 1 / (1 + beta), the share
      left after the outlier weight; otherwise they are the totals
      themselves. */
  lemma ModelWeightsMass(alphaSum: seq<real>, beta: real)
    ensures WeightMass(alphaSum, beta) != 0.0 ==> Sum(ModelWeights(alphaSum, beta)) == 1.0 / (1.0 + beta)
    ensures WeightMass(alphaSum, beta) == 0.0 ==> ModelWeights(alphaSum, beta) == alphaSum
  {
    var mu := WeightMass(alphaSum, beta);
    if mu != 0.0 {
      QuotientSum(alphaSum, mu);
      var s := Sum(alphaSum);
      assert s != 0.0 && 1.0 + beta != 0.0;
      assert (1.0 / mu) * s == 1.0 / (1.0 + beta) by {
        assert mu == s * (1.0 + beta);
        assert (1.0 / (s * (1.0 + beta))) * s == (s / s) / (1.0 + beta);
      }
    }
  }

  /** For non-negative totals and variance sums and a non-negative beta,
      every model weight and every precision is non-negative. */
  lemma WeightsNonNegative(alphaSum: seq<real>, varSums: seq<real>, beta: real)
    requires |alphaSum| == |varSums| && beta >= 0.0
    requires forall j :: 0 <= j < |alphaSum| ==> alphaSum[j] >= 0.0 && varSums[j] >= 0.0
    ensures forall j :: 0 <= j < |alphaSum| ==> ModelWeights(alphaSum, beta)[j] >= 0.0
    ensures forall j :: 0 <= j < |alphaSum| ==> InvVariances(alphaSum, varSums, beta)[j] >= 0.0
  {
    SumNonNegative(alphaSum);
    var mu := WeightMass(alphaSum, beta);
    assert mu >= 0.0 by {
      ProductNonNegative(Sum(alphaSum), 1.0 + beta, mu);
    }
    forall j | 0 <= j < |alphaSum|
      ensures ModelWeights(alphaSum, beta)[j] >= 0.0
      ensures InvVariances(alphaSum, varSums, beta)[j] >= 0.0
    {
      QuotNonNegative(alphaSum[j], mu);
      QuotNonNegative(3.0 * alphaSum[j], varSums[j] + beta);
    }
  }
}
