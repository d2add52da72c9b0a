/** Dense real matrices as sequences of rows (one row per point of a view,
    one column per model point), and the column operations the registration
    and co-segmentation steps share. */
module Matrices {
  import opened Numeric
  import opened Geometry

  /** A responsibility buffer of one view: one row per view point, one column
      per model point. */
  type Matrix = seq<seq<real>>

  predicate Wide(m: Matrix, cols: nat)
  {
    forall r :: 0 <= r < |m| ==> |m[r]| == cols
  }

  predicate Shaped(m: Matrix, rows: nat, cols: nat)
  {
    |m| == rows && Wide(m, cols)
  }

  /** A rows x cols buffer of zeros. */
  function ZeroMatrix(rows: nat, cols: nat): (m: Matrix)
    ensures Shaped(m, rows, cols)
  {
    seq(rows, _ => seq(cols, _ => 0.0))
  }

  function Column(m: Matrix, cols: nat, j: nat): (c: seq<real>)
    requires Wide(m, cols) && j < cols
    ensures |c| == |m|
  {
    seq(|m|, r requires 0 <= r < |m| => m[r][j])
  }

  /** `arma::sum(alpha)`: the column sums. */
  function ColSums(m: Matrix, cols: nat): (s: seq<real>)
    requires Wide(m, cols)
    ensures |s| == cols
  {
    seq(cols, j requires 0 <= j < cols => Sum(Column(m, cols, j)))
  }

  /** A column of `V * alpha`: the points of a view weighted by one column of
      responsibilities. */
  function WeightedSum(view: seq<Vec3>, w: seq<real>): Vec3
    requires |w| == |view|
  {
    SumV(seq(|view|, r requires 0 <= r < |view| => Scale(w[r], view[r])))
  }

  /** A point divided componentwise by a weight. */
  function DivVec(v: Vec3, w: real): Vec3
  {
    Vec3(Quot(v.x, w), Quot(v.y, w), Quot(v.z, w))
  }

  lemma ColSumsNonNegative(m: Matrix, cols: nat)
    requires Wide(m, cols)
    requires forall r, j :: 0 <= r < |m| && 0 <= j < |m[r]| ==> m[r][j] >= 0.0
    ensures Sum(ColSums(m, cols)) >= 0.0
  {
    var s := ColSums(m, cols);
    forall j | 0 <= j < cols ensures s[j] >= 0.0 {
      SumNonNegative(Column(m, cols, j));
    }
    SumNonNegative(s);
  }

  lemma ScaleDivVec(v: Vec3, s: real)
    requires s != 0.0
    ensures Scale(s, DivVec(v, s)) == v
  {
  }

  function AddSeq(a: seq<real>, b: seq<real>): (c: seq<real>)
    requires |a| == |b|
    ensures |c| == |a|
  {
    seq(|a|, j requires 0 <= j < |a| => a[j] + b[j])
  }

  ghost predicate AllWide(alphas: seq<Matrix>, cols: nat)
  {
    forall i :: 0 <= i < |alphas| ==> Wide(alphas[i], cols)
  }

  /** alpha_sum: the column weights summed over the buffers. */
  function WeightTotals(alphas: seq<Matrix>, cols: nat): (s: seq<real>)
    requires AllWide(alphas, cols)
    ensures |s| == cols
  {
    if alphas == [] then Filled(cols, 0.0)
    else AddSeq(WeightTotals(alphas[..|alphas| - 1], cols), ColSums(alphas[|alphas| - 1], cols))
  }

  function Filled(n: nat, c: real): (s: seq<real>)
    ensures |s| == n
  {
    seq(n, _ => c)
  }

  /** n points at the origin. */
  function ZeroPoints(n: nat): (s: seq<Vec3>)
    ensures |s| == n
  {
    seq(n, _ => Zero)
  }
}
