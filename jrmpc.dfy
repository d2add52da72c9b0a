/** Joint registration of multiple point clouds (JRMPC): an EM loop over
    per-view rigid poses (R_i, t_i), K latent model points X, their
    precisions and their occupancy weights. The view and model point sets are
    3 x N matrices in the source; here they are sequences of points, one per
    column. */
module Jrmpc {
  import opened Numeric
  import opened Geometry
  import opened Matrices

  /** Outcome of `arma::svd`: the factors U and V, or a failure. */
  datatype SvdResult = Converged(u: Mat3, v: Mat3) | Failed

  /** The numeric library calls the engine makes, given only by contracts
      (see `Sound`): the standard and the default SVD, the Gaussian kernel
      exp(-0.5 * var * d) * var^1.5 * P, and the square root. */
  datatype Numerics = Numerics(
    svdStd: Mat3 -> SvdResult,
    svdDefault: Mat3 -> SvdResult,
    kernel: (real, real, real) -> NonNegReal,
    sqrt: real -> NonNegReal)

  type NonNegReal = r: real | r >= 0.0

  /** Converged SVD factors are orthonormal. Each fact is used only where a
      proof names the SVD result it is about. */
  ghost predicate Sound(num: Numerics)
  {
    (forall a {:trigger OrthonormalFactors(num.svdStd(a))} :: OrthonormalFactors(num.svdStd(a)))
    && (forall a {:trigger OrthonormalFactors(num.svdDefault(a))} :: OrthonormalFactors(num.svdDefault(a)))
  }

  ghost predicate OrthonormalFactors(r: SvdResult)
  {
    r.Converged? ==> Orthonormal(r.u) && Orthonormal(r.v)
  }

  /** The fields of the configuration record a fresh `Info` carries into
      initialisation (its defaults are declared outside this model). */
  datatype Config = Config(k: int, gamma: real, maxIter: int)

  /** `info_ptr->mode` as `isEnd` leaves it. */
  datatype Mode = NotEnded | MaxIter | Force

  // ---------------------------------------------------------------------------
  // Model size

  function PointCounts(source: seq<seq<Vec3>>): (c: seq<real>)
    ensures |c| == |source| && forall i :: 0 <= i < |source| ==> c[i] == |source[i]| as real
  {
    seq(|source|, i requires 0 <= i < |source| => |source[i]| as real)
  }

  function MaxInt(a: int, b: int): int { if a >= b then a else b }

  /** The model size `initK` settles on: a configured non-zero k, or else
      twice the median view size truncated toward zero, at least 12. */
  function ModelSize(source: seq<seq<Vec3>>, k: int): int
    requires k == 0 ==> |source| > 0
  {
    if k != 0 then k else MaxInt(12, Trunc(2.0 * Median(PointCounts(source))))
  }

  /** An automatically chosen model size is at least 12 and never exceeds
      twice the median view size (unless that is below 12). */
  lemma AutoModelSize(source: seq<seq<Vec3>>)
    requires |source| > 0
    ensures ModelSize(source, 0) >= 12
    ensures ModelSize(source, 0) as real <= RMax(12.0, 2.0 * Median(PointCounts(source)))
  {
    MedianBetweenElements(PointCounts(source));
  }

  // ---------------------------------------------------------------------------
  // Initialisation

  /** Componentwise maximum over every point of every view. */
  function BoxMaxAll(vs: seq<seq<Vec3>>): Vec3
    requires |vs| > 0 && forall i :: 0 <= i < |vs| ==> |vs[i]| > 0
  {
    if |vs| == 1 then BoxMax(vs[0]) else VMax(BoxMax(vs[|vs| - 1]), BoxMaxAll(vs[..|vs| - 1]))
  }

  /** Componentwise minimum over every point of every view. */
  function BoxMinAll(vs: seq<seq<Vec3>>): Vec3
    requires |vs| > 0 && forall i :: 0 <= i < |vs| ==> |vs[i]| > 0
  {
    if |vs| == 1 then BoxMin(vs[0]) else VMin(BoxMin(vs[|vs| - 1]), BoxMinAll(vs[..|vs| - 1]))
  }

  /** The uniform occupancy 1/K sums to one. */
  lemma UniformOccupancy(k: nat)
    ensures k > 0 ==> Sum(Filled(k, Quot(1.0, k as real))) == 1.0
  {
    SumConstant(k, Quot(1.0, k as real));
  }

  function Average(s: seq<real>): real
  {
    Quot(Sum(s), |s| as real)
  }

  /** beta = gamma / (h (gamma + 1)) with h = 2 / mean(var): with every
      precision 1/maxvar this is gamma / (2 maxvar (gamma + 1)), and it is
      non-negative whenever gamma is. */
  function OutlierWeight(gamma: real, precision: seq<real>): real
  {
    var h := Quot(2.0, Average(precision));
    Quot(gamma, h * (gamma + 1.0))
  }

  lemma OutlierWeightValue(gamma: real, k: nat, maxvar: real)
    requires k > 0 && maxvar > 0.0 && gamma >= 0.0
    ensures OutlierWeight(gamma, Filled(k, Quot(1.0, maxvar))) == gamma / (2.0 * maxvar * (gamma + 1.0))
  {
    var c := Quot(1.0, maxvar);
    SumConstant(k, c);
    assert Average(Filled(k, c)) == c;
    assert Quot(2.0, c) == 2.0 * maxvar;
  }

  // ---------------------------------------------------------------------------
  // E-step

  /** The squared distances of every view point (rows) to every model point
      (columns): the first thing the E-step writes into a responsibility
      buffer, and the `alpha_2` buffer of the precision update. */
  function Distances(x: seq<Vec3>, view: seq<Vec3>): (d: Matrix)
    ensures Shaped(d, |view|, |x|)
  {
    seq(|view|, r requires 0 <= r < |view| => DistanceRow(x, view[r]))
  }

  function DistanceRow(x: seq<Vec3>, v: Vec3): (row: seq<real>)
    ensures |row| == |x|
  {
    seq(|x|, j requires 0 <= j < |x| => SqDist(x[j], v))
  }

  /** Unnormalised responsibilities of one view point, from its row of
      squared distances. */
  function KernelRow(kernel: (real, real, real) -> NonNegReal, precision: seq<real>,
                     occupancy: seq<real>, dist: seq<real>): (row: seq<real>)
    requires |precision| == |dist| && |occupancy| == |dist|
    ensures |row| == |dist|
  {
    seq(|dist|, j requires 0 <= j < |dist| => kernel(precision[j], dist[j], occupancy[j]))
  }

  /** A row divided by (its sum + beta). */
  function NormalizeRow(raw: seq<real>, beta: real): (row: seq<real>)
    ensures |row| == |raw|
  {
    Divided(raw, Sum(raw) + beta)
  }

  /** With non-negative raw values and beta >= 0 every normalised entry is
      non-negative and the row sums to a value in [0, 1]; with beta = 0 and a
      positive row it sums to exactly 1. */
  lemma NormalizedRowBounds(raw: seq<real>, beta: real)
    requires forall j :: 0 <= j < |raw| ==> raw[j] >= 0.0
    requires beta >= 0.0
    ensures forall j :: 0 <= j < |raw| ==> NormalizeRow(raw, beta)[j] >= 0.0
    ensures 0.0 <= Sum(NormalizeRow(raw, beta)) <= 1.0
    ensures beta == 0.0 && Sum(raw) > 0.0 ==> Sum(NormalizeRow(raw, beta)) == 1.0
  {
    NormalizedEntries(raw, beta);
    NormalizedSum(raw, beta);
    if beta == 0.0 && Sum(raw) > 0.0 {
      NormalizedSumOne(raw, beta);
    }
  }

  lemma NormalizedEntries(raw: seq<real>, beta: real)
    requires forall j :: 0 <= j < |raw| ==> raw[j] >= 0.0
    requires beta >= 0.0
    ensures forall j :: 0 <= j < |raw| ==> NormalizeRow(raw, beta)[j] >= 0.0
  {
    var d := Sum(raw) + beta;
    SumNonNegative(raw);
    forall j | 0 <= j < |raw| ensures Divided(raw, d)[j] >= 0.0 {
      QuotNonNegative(raw[j], d);
    }
  }

  lemma NormalizedSum(raw: seq<real>, beta: real)
    requires forall j :: 0 <= j < |raw| ==> raw[j] >= 0.0
    requires beta >= 0.0
    ensures 0.0 <= Sum(NormalizeRow(raw, beta)) <= 1.0
  {
    SumNonNegative(raw);
    DividedSumBounds(raw, Sum(raw) + beta);
  }

  lemma NormalizedSumOne(raw: seq<real>, beta: real)
    requires forall j :: 0 <= j < |raw| ==> raw[j] >= 0.0
    requires beta == 0.0 && Sum(raw) > 0.0
    ensures Sum(NormalizeRow(raw, beta)) == 1.0
  {
    DividedSumBounds(raw, Sum(raw) + beta);
  }

  /** Kernel and row normalisation applied to a buffer of squared distances. */
  function Normalized(kernel: (real, real, real) -> NonNegReal, precision: seq<real>, occupancy: seq<real>,
                      beta: real, dist: Matrix): (alpha: Matrix)
    requires Wide(dist, |precision|) && |occupancy| == |precision|
    ensures Shaped(alpha, |dist|, |precision|)
  {
    seq(|dist|, r requires 0 <= r < |dist| => NormalizeRow(KernelRow(kernel, precision, occupancy, dist[r]), beta))
  }

  /** The E-step result for one view. */
  function Responsibilities(kernel: (real, real, real) -> NonNegReal, x: seq<Vec3>, precision: seq<real>,
                            occupancy: seq<real>, beta: real, view: seq<Vec3>): (alpha: Matrix)
    requires |precision| == |x| && |occupancy| == |x|
    ensures Shaped(alpha, |view|, |x|)
  {
    Normalized(kernel, precision, occupancy, beta, Distances(x, view))
  }

  /** Every responsibility is non-negative and every row sums into [0, 1]
      when beta >= 0 (the kernel is non-negative). */
  lemma ResponsibilityBounds(kernel: (real, real, real) -> NonNegReal, x: seq<Vec3>, precision: seq<real>,
                             occupancy: seq<real>, beta: real, view: seq<Vec3>, r: nat)
    requires |precision| == |x| && |occupancy| == |x| && r < |view|
    requires beta >= 0.0
    ensures forall j :: 0 <= j < |x| ==> Responsibilities(kernel, x, precision, occupancy, beta, view)[r][j] >= 0.0
    ensures 0.0 <= Sum(Responsibilities(kernel, x, precision, occupancy, beta, view)[r]) <= 1.0
  {
    var raw := KernelRow(kernel, precision, occupancy, Distances(x, view)[r]);
    NormalizedRowBounds(raw, beta);
  }

  /** The row loop of the E-step and of the precision update: row r of the
      buffer receives the squared distances of view point r to every model
      point. */
  method DistanceBuffer(x: seq<Vec3>, view: seq<Vec3>) returns (d: Matrix)
    ensures d == Distances(x, view)
  {
    d := ZeroMatrix(|view|, |x|);
    var r := 0;
    while r < |view|
      invariant 0 <= r <= |view| == |d|
      invariant forall q :: 0 <= q < r ==> d[q] == DistanceRow(x, view[q])
    {
      d := d[r := DistanceRow(x, view[r])];
      r := r + 1;
    }
    assert forall q :: 0 <= q < |view| ==> d[q] == Distances(x, view)[q];
  }

  // ---------------------------------------------------------------------------
  // M-step (a): pose update

  function SumM(ms: seq<Mat3>): Mat3
  {
    if ms == [] then Mat3(Zero, Zero, Zero) else MatAdd(SumM(ms[..|ms| - 1]), ms[|ms| - 1])
  }

  /** The quantities one pose fit derives from a view and its responsibilities. */
  datatype FitInputs = FitInputs(
    w: seq<Vec3>,             // W: weighted view points, one per model point
    lambda: seq<real>,        // square_lambda: precision times column weight
    normLambda: seq<real>,    // square_norm_lambda: lambda divided by its total
    a: Mat3)                  // A = sum_j p_j lambda_j x_j w_j^T

  function PrepareFit(x: seq<Vec3>, precision: seq<real>, view: seq<Vec3>, alpha: Matrix): (f: FitInputs)
    requires |precision| == |x| && Shaped(alpha, |view|, |x|)
    ensures |f.w| == |x| && |f.lambda| == |x| && |f.normLambda| == |x|
  {
    var colsum := ColSums(alpha, |x|);
    var lambda := Products(precision, colsum);
    var w := WeightedMeans(view, alpha, colsum);
    var normLambda := Divided(lambda, Sum(lambda));
    FitInputs(w, lambda, normLambda, CrossCovariance(x, w, lambda, normLambda))
  }

  /** Elementwise product: square_lambda = var % alpha_colsum. */
  function Products(a: seq<real>, b: seq<real>): (c: seq<real>)
    requires |a| == |b|
    ensures |c| == |a|
  {
    seq(|a|, j requires 0 <= j < |a| => a[j] * b[j])
  }

  /** W = V alpha with each column divided by its weight total. */
  function WeightedMeans(view: seq<Vec3>, alpha: Matrix, colsum: seq<real>): (w: seq<Vec3>)
    requires Shaped(alpha, |view|, |colsum|)
    ensures |w| == |colsum|
  {
    seq(|colsum|, j requires 0 <= j < |colsum| => DivVec(WeightedSum(view, Column(alpha, |colsum|, j)), colsum[j]))
  }

  /** A = sum_j (1 - normLambda_j) lambda_j x_j w_j^T. */
  function CrossCovariance(x: seq<Vec3>, w: seq<Vec3>, lambda: seq<real>, normLambda: seq<real>): Mat3
    requires |w| == |x| && |lambda| == |x| && |normLambda| == |x|
  {
    SumM(seq(|x|, j requires 0 <= j < |x| => Outer(Scale((1.0 - normLambda[j]) * lambda[j], x[j]), w[j])))
  }

  /** The change of pose for one view: rotation dR, translation dt, and
      whether both SVD attempts failed. */
  datatype PoseDelta = PoseDelta(dR: Mat3, dt: Vec3, failed: bool)

  /** The SVD the pose fit uses: the standard SVD of A or, when that does
      not converge, the default SVD of A + 1e-6 I; `Failed` when neither
      converges. */
  function SvdOf(num: Numerics, a: Mat3): SvdResult
  {
    var first := num.svdStd(a);
    if first.Converged? then first else num.svdDefault(MatAdd(a, Jitter))
  }

  /** 1e-6 I, added to A before the second SVD attempt. */
  const Jitter := Mat3(Vec3(0.000001, 0.0, 0.0), Vec3(0.0, 0.000001, 0.0), Vec3(0.0, 0.0, 0.000001))

  /** dR = U C V^T from the SVD factors of A. After a double failure the
      source sets U = V = I, whose fitted rotation is I (`FallbackRotation`). */
  function FitRotation(num: Numerics, a: Mat3): Mat3
  {
    match SvdOf(num, a)
    case Converged(u, v) => FittedRotation(u, v)
    case Failed => Identity
  }

  function FitPose(num: Numerics, x: seq<Vec3>, precision: seq<real>, view: seq<Vec3>, alpha: Matrix): PoseDelta
    requires |precision| == |x| && Shaped(alpha, |view|, |x|)
  {
    var f := PrepareFit(x, precision, view, alpha);
    var dR := FitRotation(num, f.a);
    PoseDelta(dR, FitTranslation(x, f.w, f.normLambda, dR), SvdOf(num, f.a).Failed?)
  }

  /** dt = sum_j normLambda_j (x_j - dR w_j). */
  function FitTranslation(x: seq<Vec3>, w: seq<Vec3>, normLambda: seq<real>, dR: Mat3): Vec3
    requires |w| == |x| && |normLambda| == |x|
  {
    SumV(seq(|x|, j requires 0 <= j < |x| => Scale(normLambda[j], Sub(x[j], Apply(dR, w[j])))))
  }

  /** The fallback U = V = I gives dR = I. */
  lemma FallbackRotation()
    ensures FittedRotation(Identity, Identity) == Identity
  {
    TransposeIdentity();
    MulIdentity(Identity);
    DetIdentity();
    FittedRotationProper(Identity, Identity);
  }

  /** Whichever attempt supplies them, converged SVD factors are orthonormal. */
  lemma SvdOrthonormal(num: Numerics, a: Mat3)
    requires Sound(num)
    ensures OrthonormalFactors(SvdOf(num, a))
  {
    if num.svdStd(a).Converged? {
      assert OrthonormalFactors(num.svdStd(a));
    } else {
      assert OrthonormalFactors(num.svdDefault(MatAdd(a, Jitter)));
    }
  }

  /** Every fitted rotation is proper. */
  lemma FitRotationIsRotation(num: Numerics, a: Mat3)
    requires Sound(num)
    ensures IsRotation(FitRotation(num, a))
  {
    match SvdOf(num, a)
    case Converged(u, v) =>
      SvdOrthonormal(num, a);
      FittedRotationIsRotation(u, v);
    case Failed =>
      assert FitRotation(num, a) == Identity;
      IdentityIsRotation();
  }

  /** Every pose change is a proper rotation; after a double SVD failure it
      is the identity. */
  lemma FitPoseRotation(num: Numerics, x: seq<Vec3>, precision: seq<real>, view: seq<Vec3>, alpha: Matrix)
    requires Sound(num) && |precision| == |x| && Shaped(alpha, |view|, |x|)
    ensures IsRotation(FitPose(num, x, precision, view, alpha).dR)
    ensures FitPose(num, x, precision, view, alpha).failed ==> FitPose(num, x, precision, view, alpha).dR == Identity
  {
    FitRotationIsRotation(num, PrepareFit(x, precision, view, alpha).a);
  }

  /** Applying the same change to the pose and to the stored points keeps the
      points equal to the pose applied to the original view. */
  lemma PoseUpdateKeepsRegistration(source: seq<Vec3>, r: Mat3, t: Vec3, d: PoseDelta)
    requires IsRotation(r) && IsRotation(d.dR)
    ensures Transform(Transform(source, r, t), d.dR, d.dt) == Transform(source, Mul(d.dR, r), Add(Apply(d.dR, t), d.dt))
    ensures IsRotation(Mul(d.dR, r))
  {
    TransformCompose(source, r, t, d.dR, d.dt);
    RotationMul(d.dR, r);
  }

  // ---------------------------------------------------------------------------
  // M-steps (b, c, d): model points, precisions and occupancy

  function AddVecs(a: seq<Vec3>, b: seq<Vec3>): (c: seq<Vec3>)
    requires |a| == |b|
    ensures |c| == |a|
  {
    seq(|a|, j requires 0 <= j < |a| => Add(a[j], b[j]))
  }

  ghost predicate Matches(views: seq<seq<Vec3>>, alphas: seq<Matrix>, cols: nat)
  {
    |views| == |alphas| && forall i :: 0 <= i < |alphas| ==> Shaped(alphas[i], |views[i]|, cols)
  }

  /** X_sum: the responsibility-weighted view points summed over the views. */
  function PointTotals(views: seq<seq<Vec3>>, alphas: seq<Matrix>, cols: nat): (s: seq<Vec3>)
    requires Matches(views, alphas, cols)
    ensures |s| == cols
  {
    if alphas == [] then ZeroPoints(cols)
    else
      var n := |alphas| - 1;
      AddVecs(PointTotals(views[..n], alphas[..n], cols), ViewPoints(views[n], alphas[n], cols))
  }

  /** `V * alpha` for one view: each model point's responsibility-weighted
      sum of the view's points. */
  function ViewPoints(view: seq<Vec3>, alpha: Matrix, cols: nat): (s: seq<Vec3>)
    requires Shaped(alpha, |view|, cols)
    ensures |s| == cols
  {
    seq(cols, j requires 0 <= j < cols => WeightedSum(view, Column(alpha, cols, j)))
  }

  /** var_sum: responsibility-weighted squared distances to each model
      point, summed over the views. */
  function SpreadTotals(x: seq<Vec3>, views: seq<seq<Vec3>>, alphas: seq<Matrix>): (s: seq<real>)
    requires Matches(views, alphas, |x|)
    ensures |s| == |x|
  {
    if alphas == [] then Filled(|x|, 0.0)
    else
      var n := |alphas| - 1;
      AddSeq(SpreadTotals(x, views[..n], alphas[..n]), ViewSpread(x, views[n], alphas[n]))
  }

  /** `sum(alpha_2 % alpha)` for one view: each model point's
      responsibility-weighted squared distances. */
  function ViewSpread(x: seq<Vec3>, view: seq<Vec3>, alpha: Matrix): (s: seq<real>)
    requires Shaped(alpha, |view|, |x|)
    ensures |s| == |x|
  {
    ColSums(Hadamard(Distances(x, view), alpha, |x|), |x|)
  }

  /** Elementwise product of two equally shaped buffers. */
  function Hadamard(a: Matrix, b: Matrix, cols: nat): (c: Matrix)
    requires |a| == |b| && Wide(a, cols) && Wide(b, cols)
    ensures Shaped(c, |a|, cols)
  {
    seq(|a|, r requires 0 <= r < |a| => seq(cols, j requires 0 <= j < cols => a[r][j] * b[r][j]))
  }

  /** The new model points, X_sum divided column by column by alpha_sum. */
  function Centres(pointTotals: seq<Vec3>, weightTotals: seq<real>): (c: seq<Vec3>)
    requires |pointTotals| == |weightTotals|
    ensures |c| == |pointTotals|
  {
    seq(|pointTotals|, j requires 0 <= j < |pointTotals| => DivVec(pointTotals[j], weightTotals[j]))
  }

  /** A new precision: 1 / (var_sum / (3 alpha_sum) + 1e-6). */
  function Precision(spread: real, weight: real): real
  {
    Quot(1.0, Quot(spread, 3.0 * weight) + 0.000001)
  }

  function Precisions(spreadTotals: seq<real>, weightTotals: seq<real>): (p: seq<real>)
    requires |spreadTotals| == |weightTotals|
    ensures |p| == |spreadTotals|
  {
    seq(|spreadTotals|, j requires 0 <= j < |spreadTotals| => Precision(spreadTotals[j], weightTotals[j]))
  }

  /** The 1e-6 floor does not guard a column with no weight: there the
      source divides by zero before adding the floor, and its precision is 0
      or NaN, while the total quotient of this model makes it 1e6. */
  lemma ZeroWeightPrecision(spread: real)
    ensures Precision(spread, 0.0) == 1000000.0
  {
  }

  /** The 1e-6 floor bounds the precision by 1e6 from above, and it stays
      positive, whenever the spread is non-negative and the weight positive. */
  lemma PrecisionBounds(spread: real, weight: real)
    requires spread >= 0.0 && weight > 0.0
    ensures 0.0 < Precision(spread, weight) <= 1000000.0
    ensures Precision(spread, weight) * (spread / (3.0 * weight) + 0.000001) == 1.0
  {
    var v := spread / (3.0 * weight);
    assert v >= 0.0;
    var d := v + 0.000001;
    assert Precision(spread, weight) == 1.0 / d;
    assert 1.0 / d <= 1.0 / 0.000001;
  }

  /** mu before the (gamma + 1) factor: the running prefix totals of
      alpha_sumij, summed over the buffers. */
  function PrefixMass(alphas: seq<Matrix>, cols: nat): real
    requires AllWide(alphas, cols)
  {
    if alphas == [] then 0.0
    else PrefixMass(alphas[..|alphas| - 1], cols) + Sum(WeightTotals(alphas, cols))
  }

  /** The new occupancy weights P. */
  function Occupancy(alphas: seq<Matrix>, cols: nat, gamma: real): (p: seq<real>)
    requires AllWide(alphas, cols)
    ensures |p| == cols
  {
    OccupancyOf(WeightTotals(alphas, cols), PrefixMass(alphas, cols), gamma)
  }

  /** P from alpha_sumij and mu: every total divided by mu (gamma + 1). */
  function OccupancyOf(sumij: seq<real>, mu: real, gamma: real): (p: seq<real>)
    ensures |p| == |sumij|
  {
    Divided(sumij, mu * (gamma + 1.0))
  }

  ghost predicate NonNegativeBuffers(alphas: seq<Matrix>)
  {
    forall i, r, j :: 0 <= i < |alphas| && 0 <= r < |alphas[i]| && 0 <= j < |alphas[i][r]| ==> alphas[i][r][j] >= 0.0
  }

  /** The total responsibility mass after a prefix of buffers grows by the
      mass of the next buffer. */
  lemma MassStep(alphas: seq<Matrix>, cols: nat)
    requires |alphas| > 0 && AllWide(alphas, cols)
    ensures Sum(WeightTotals(alphas, cols))
            == Sum(WeightTotals(alphas[..|alphas| - 1], cols)) + Sum(ColSums(alphas[|alphas| - 1], cols))
  {
    var prev := WeightTotals(alphas[..|alphas| - 1], cols);
    var last := ColSums(alphas[|alphas| - 1], cols);
    SumPointwiseAdd(prev, last, WeightTotals(alphas, cols));
  }

  /** With non-negative responsibilities the total mass is non-negative and
      at most mu (before the (gamma + 1) factor). */
  lemma {:induction false} MassBelowPrefixMass(alphas: seq<Matrix>, cols: nat)
    requires AllWide(alphas, cols) && NonNegativeBuffers(alphas)
    ensures 0.0 <= Sum(WeightTotals(alphas, cols)) <= PrefixMass(alphas, cols)
  {
    if alphas == [] {
      SumZeros(WeightTotals(alphas, cols));
    } else {
      var n := |alphas| - 1;
      MassBelowPrefixMass(alphas[..n], cols);
      MassStep(alphas, cols);
      ColSumsNonNegative(alphas[n], cols);
    }
  }

  /** The occupancy weights sum to at most 1 / (1 + gamma): mu adds up the
      running prefix totals, which are never below the final total. */
  lemma {:induction false} OccupancyMass(alphas: seq<Matrix>, cols: nat, gamma: real)
    requires AllWide(alphas, cols) && NonNegativeBuffers(alphas) && gamma >= 0.0
    ensures Sum(Occupancy(alphas, cols, gamma)) <= 1.0 / (1.0 + gamma)
  {
    MassBelowPrefixMass(alphas, cols);
    DividedMass(WeightTotals(alphas, cols), PrefixMass(alphas, cols), gamma);
  }

  /** With a single buffer of positive mass the occupancy weights sum to
      exactly 1 / (1 + gamma). */
  lemma {:induction false} SingleOccupancyMass(alphas: seq<Matrix>, cols: nat, gamma: real)
    requires |alphas| == 1 && AllWide(alphas, cols) && NonNegativeBuffers(alphas) && gamma >= 0.0
    requires Sum(WeightTotals(alphas, cols)) > 0.0
    ensures Sum(Occupancy(alphas, cols, gamma)) == 1.0 / (1.0 + gamma)
  {
    SinglePrefixMass(alphas, cols);
    DividedMass(WeightTotals(alphas, cols), PrefixMass(alphas, cols), gamma);
  }

  /** Totals of mass at most pm, each divided by pm (1 + gamma), sum to at
      most 1 / (1 + gamma), and to exactly that when the mass is pm. */
  lemma DividedMass(totals: seq<real>, pm: real, gamma: real)
    requires 0.0 <= Sum(totals) <= pm && gamma >= 0.0
    ensures Sum(OccupancyOf(totals, pm, gamma)) <= 1.0 / (1.0 + gamma)
    ensures 0.0 < Sum(totals) == pm ==> Sum(OccupancyOf(totals, pm, gamma)) == 1.0 / (1.0 + gamma)
  {
    var mu := pm * (gamma + 1.0);
    var mass := Sum(totals);
    QuotientSum(totals, mu);
    assert OccupancyOf(totals, pm, gamma) == Divided(totals, mu);
    if mu != 0.0 {
      MassRatio(mass, pm, gamma, mu);
    } else {
      assert Sum(Divided(totals, mu)) == 0.0;
      GammaShare(gamma);
    }
  }

  lemma GammaShare(gamma: real)
    requires gamma >= 0.0
    ensures 0.0 < 1.0 / (1.0 + gamma)
  {
  }

  lemma SinglePrefixMass(alphas: seq<Matrix>, cols: nat)
    requires |alphas| == 1 && AllWide(alphas, cols)
    ensures PrefixMass(alphas, cols) == Sum(WeightTotals(alphas, cols))
  {
    assert alphas[..0] == [];
  }

  /** mass / (pm (1 + gamma)) is at most 1 / (1 + gamma) for mass <= pm, with
      equality at mass == pm. */
  lemma MassRatio(mass: real, pm: real, gamma: real, mu: real)
    requires 0.0 <= mass <= pm && gamma >= 0.0 && mu == pm * (gamma + 1.0) && mu != 0.0
    ensures (1.0 / mu) * mass <= 1.0 / (1.0 + gamma)
    ensures mass == pm ==> (1.0 / mu) * mass == 1.0 / (1.0 + gamma)
  {
    var g := gamma + 1.0;
    assert pm > 0.0;
    assert (1.0 / mu) * mass == (mass / pm) / g;
    assert mass / pm <= 1.0;
  }

  ghost predicate NonEmptyViews(vs: seq<seq<Vec3>>)
  {
    |vs| > 0 && forall i :: 0 <= i < |vs| ==> |vs[i]| > 0
  }

  /** n identity rotations. */
  function Identities(n: nat): (rs: seq<Mat3>)
    ensures |rs| == n && forall i :: 0 <= i < n ==> rs[i] == Identity
  {
    seq(n, _ => Identity)
  }

  lemma IdentitiesAreRotations(n: nat)
    ensures forall i :: 0 <= i < n ==> IsRotation(Identities(n)[i])
  {
    IdentityIsRotation();
  }

  /** `X *= c`. */
  function ScaledPoints(x: seq<Vec3>, c: real): (s: seq<Vec3>)
    ensures |s| == |x|
  {
    seq(|x|, j requires 0 <= j < |x| => Scale(c, x[j]))
  }

  /** The initial translations: mean(X) - mean(V_i). */
  function Offsets(source: seq<seq<Vec3>>, target: seq<Vec3>): (ts: seq<Vec3>)
    ensures |ts| == |source|
  {
    seq(|source|, i requires 0 <= i < |source| => Sub(Mean(target), Mean(source[i])))
  }

  /** Every view shifted by its initial translation. */
  function Shifted(source: seq<seq<Vec3>>, target: seq<Vec3>): (vs: seq<seq<Vec3>>)
    ensures |vs| == |source| && forall i :: 0 <= i < |source| ==> |vs[i]| == |source[i]|
  {
    seq(|source|, i requires 0 <= i < |source| => Translate(source[i], Sub(Mean(target), Mean(source[i]))))
  }

  lemma ShiftedNonEmpty(source: seq<seq<Vec3>>, target: seq<Vec3>)
    requires NonEmptyViews(source)
    ensures NonEmptyViews(Shifted(source, target))
  {
  }

  /** The model's squared bounding-box extent over all views: `maxvar`. */
  function SquaredExtent(vs: seq<seq<Vec3>>): (e: real)
    requires NonEmptyViews(vs)
    ensures e >= 0.0
  {
    SqDist(BoxMaxAll(vs), BoxMinAll(vs))
  }

  /** The shifted views are the sources under (I, t_i), and each has the
      centroid of the target before it is scaled. */
  lemma SeededViews(source: seq<seq<Vec3>>, target: seq<Vec3>)
    requires NonEmptyViews(source)
    ensures forall i :: 0 <= i < |source| ==>
              Shifted(source, target)[i] == Transform(source[i], Identity, Offsets(source, target)[i])
              && Mean(Shifted(source, target)[i]) == Mean(target)
  {
    forall i | 0 <= i < |source|
      ensures Shifted(source, target)[i] == Transform(source[i], Identity, Offsets(source, target)[i])
      ensures Mean(Shifted(source, target)[i]) == Mean(target)
    {
      TranslateIsTransform(source[i], Offsets(source, target)[i]);
      SeededCentroid(source[i], Mean(target));
    }
  }

  lemma OutlierWeightNonNegative(gamma: real, precision: seq<real>)
    requires gamma >= 0.0 && forall j :: 0 <= j < |precision| ==> precision[j] >= 0.0
    ensures OutlierWeight(gamma, precision) >= 0.0
  {
    SumNonNegative(precision);
    QuotNonNegative(Sum(precision), |precision| as real);
    QuotNonNegative(2.0, Average(precision));
    var h := Quot(2.0, Average(precision));
    QuotNonNegative(gamma, h * (gamma + 1.0));
  }

  /** The beta `reset` computes from a uniform precision. */
  lemma UniformOutlierWeight(gamma: real, k: nat, maxvar: real)
    requires maxvar >= 0.0
    ensures gamma >= 0.0 ==> OutlierWeight(gamma, Filled(k, Quot(1.0, maxvar))) >= 0.0
  {
    if gamma >= 0.0 {
      QuotNonNegative(1.0, maxvar);
      OutlierWeightNonNegative(gamma, Filled(k, Quot(1.0, maxvar)));
    }
  }

  /** What the pose-seeding loop leaves behind, read as the initial poses:
      identity rotations, the offsets, and the shifted views. */
  lemma SeedPosesAreOffsets(source: seq<seq<Vec3>>, target: seq<Vec3>,
                            vs: seq<seq<Vec3>>, rs: seq<Mat3>, ts: seq<Vec3>)
    requires |vs| == |source| && |rs| == |source| && |ts| == |source|
    requires forall i :: 0 <= i < |source| ==>
               rs[i] == Identity && ts[i] == Sub(Mean(target), Mean(source[i])) && vs[i] == Translate(source[i], ts[i])
    ensures vs == Shifted(source, target) && ts == Offsets(source, target) && rs == Identities(|source|)
  {
    var sh, off := Shifted(source, target), Offsets(source, target);
    forall i | 0 <= i < |source|
      ensures vs[i] == sh[i] && ts[i] == off[i]
    {
    }
  }

  /** The pose-seeding loop of `reset`: for each view an identity rotation
      and the translation mean(X) - mean(V_i), with the view shifted by it. */
  method SeedPoses(source: seq<seq<Vec3>>, target: seq<Vec3>) returns (vs: seq<seq<Vec3>>, rs: seq<Mat3>, ts: seq<Vec3>)
    ensures vs == Shifted(source, target) && rs == Identities(|source|) && ts == Offsets(source, target)
  {
    var meanX := Mean(target);
    vs, rs, ts := source, [], [];
    var i := 0;
    while i < |vs|
      invariant 0 <= i <= |vs| == |source|
      invariant |rs| == i && |ts| == i
      invariant forall q :: 0 <= q < i ==>
                  rs[q] == Identity && ts[q] == Sub(meanX, Mean(source[q])) && vs[q] == Translate(source[q], ts[q])
      invariant forall q :: i <= q < |vs| ==> vs[q] == source[q]
    {
      var t := Sub(meanX, Mean(vs[i]));
      rs := rs + [Identity];
      ts := ts + [t];
      vs := vs[i := Translate(vs[i], t)];
      i := i + 1;
    }
    SeedPosesAreOffsets(source, target, vs, rs, ts);
  }

  /** The bounding-box loop of `reset`: the componentwise maximum and minimum
      over all views, seeded from the first view. */
  method BoundingBox(vs: seq<seq<Vec3>>) returns (maxAll: Vec3, minAll: Vec3)
    requires NonEmptyViews(vs)
    ensures maxAll == BoxMaxAll(vs) && minAll == BoxMinAll(vs)
  {
    maxAll, minAll := Zero, Zero;
    var i := 0;
    while i < |vs|
      invariant 0 <= i <= |vs|
      invariant i > 0 ==> maxAll == BoxMaxAll(vs[..i]) && minAll == BoxMinAll(vs[..i])
    {
      var maxV, minV := BoxMax(vs[i]), BoxMin(vs[i]);
      if i == 0 {
        maxAll, minAll := maxV, minV;
      } else {
        maxAll, minAll := VMax(maxV, maxAll), VMin(minV, minAll);
      }
      PrefixOfPrefix(vs, i);
      i := i + 1;
    }
    assert vs[..i] == vs;
  }

  // ---------------------------------------------------------------------------
  // One EM iteration over all views, as functions of the state before it

  /** Every stored view is its original under its pose, and every pose
      rotation is proper: V_i = R_i V0_i + t_i. */
  ghost predicate Registered(sources: seq<seq<Vec3>>, views: seq<seq<Vec3>>, rs: seq<Mat3>, ts: seq<Vec3>)
  {
    |rs| == |views| && |ts| == |views| && |sources| == |views|
    && (forall i :: 0 <= i < |views| ==> views[i] == Transform(sources[i], rs[i], ts[i]))
    && (forall i :: 0 <= i < |rs| ==> IsRotation(rs[i]))
  }

  /** The E-step result for every view. */
  function EStepAll(kernel: (real, real, real) -> NonNegReal, x: seq<Vec3>, precision: seq<real>,
                    occupancy: seq<real>, beta: real, views: seq<seq<Vec3>>): (alphas: seq<Matrix>)
    requires |precision| == |x| && |occupancy| == |x|
    ensures Matches(views, alphas, |x|)
  {
    seq(|views|, i requires 0 <= i < |views| => Responsibilities(kernel, x, precision, occupancy, beta, views[i]))
  }

  /** The buffer list after the first n buffers have been (re)computed: a
      buffer that already exists is overwritten, a missing one is appended,
      and buffers beyond n are kept. */
  function Grown(buffers: seq<Matrix>, computed: seq<Matrix>, n: nat): (r: seq<Matrix>)
    requires n <= |computed|
    ensures |r| == MaxInt(n, |buffers|) && |r| >= |buffers|
    ensures forall q :: 0 <= q < n ==> r[q] == computed[q]
    ensures forall q :: n <= q < |buffers| ==> r[q] == buffers[q]
  {
    seq(MaxInt(n, |buffers|), q requires 0 <= q < MaxInt(n, |buffers|) => if q < n then computed[q] else buffers[q])
  }

  /** Before any buffer is computed the list is as it was; once at least as
      many have been computed as existed, it is exactly the computed ones. */
  lemma GrownEnds(buffers: seq<Matrix>, computed: seq<Matrix>, n: nat)
    requires n <= |computed|
    ensures Grown(buffers, computed, 0) == buffers
    ensures |buffers| <= n ==> Grown(buffers, computed, n) == computed[..n]
  {
    assert forall q :: 0 <= q < |buffers| ==> Grown(buffers, computed, 0)[q] == buffers[q];
    if |buffers| <= n {
      assert forall q :: 0 <= q < n ==> Grown(buffers, computed, n)[q] == computed[..n][q];
    }
  }

  /** Computing buffer n overwrites it when it exists and appends it otherwise. */
  lemma GrownStep(buffers: seq<Matrix>, computed: seq<Matrix>, n: nat)
    requires n < |computed| && |buffers| <= |computed|
    ensures Grown(buffers, computed, n + 1)
            == if n < |Grown(buffers, computed, n)| then Grown(buffers, computed, n)[n := computed[n]]
               else Grown(buffers, computed, n) + [computed[n]]
  {
    var g, g1 := Grown(buffers, computed, n), Grown(buffers, computed, n + 1);
    if n < |g| {
      assert forall q :: 0 <= q < |g1| ==> g1[q] == g[n := computed[n]][q];
    } else {
      assert forall q :: 0 <= q < |g1| ==> g1[q] == (g + [computed[n]])[q];
    }
  }

  /** The pose change fitted for every view. */
  function Deltas(num: Numerics, x: seq<Vec3>, precision: seq<real>, views: seq<seq<Vec3>>, alphas: seq<Matrix>): (ds: seq<PoseDelta>)
    requires |precision| == |x| && Matches(views, alphas, |x|)
    ensures |ds| == |views|
  {
    seq(|views|, i requires 0 <= i < |views| => FitPose(num, x, precision, views[i], alphas[i]))
  }

  /** Every fitted change is a proper rotation, and the identity where both
      SVD attempts failed. */
  lemma DeltasAreRotations(num: Numerics, x: seq<Vec3>, precision: seq<real>, views: seq<seq<Vec3>>, alphas: seq<Matrix>)
    requires Sound(num) && |precision| == |x| && Matches(views, alphas, |x|)
    ensures forall i :: 0 <= i < |views| ==> IsRotation(Deltas(num, x, precision, views, alphas)[i].dR)
    ensures forall i :: 0 <= i < |views| && Deltas(num, x, precision, views, alphas)[i].failed ==>
              Deltas(num, x, precision, views, alphas)[i].dR == Identity
  {
    forall i | 0 <= i < |views|
      ensures IsRotation(Deltas(num, x, precision, views, alphas)[i].dR)
      ensures Deltas(num, x, precision, views, alphas)[i].failed ==> Deltas(num, x, precision, views, alphas)[i].dR == Identity
    {
      FitPoseRotation(num, x, precision, views[i], alphas[i]);
    }
  }

  /** The index of the first view whose fit failed twice, or the number of
      views when none did. */
  function FirstFailure(ds: seq<PoseDelta>): (f: nat)
    ensures f <= |ds|
  {
    if ds == [] then 0 else if ds[0].failed then 0 else 1 + FirstFailure(ds[1..])
  }

  /** The view found failed twice, and no view before it did. */
  lemma {:induction false} FirstFailureIsFirst(ds: seq<PoseDelta>)
    ensures FirstFailure(ds) < |ds| ==> ds[FirstFailure(ds)].failed
    ensures forall q :: 0 <= q < FirstFailure(ds) ==> !ds[q].failed
  {
    if ds != [] && !ds[0].failed {
      FirstFailureIsFirst(ds[1..]);
      assert forall q :: 1 <= q < FirstFailure(ds) ==> ds[q] == ds[1..][q - 1];
    }
  }

  /** Some view before n failed twice. */
  ghost predicate FailsBefore(ds: seq<PoseDelta>, n: nat)
  {
    exists q :: 0 <= q < n && q < |ds| && ds[q].failed
  }

  lemma FailsBeforeStep(ds: seq<PoseDelta>, n: nat)
    requires n < |ds|
    ensures FailsBefore(ds, n + 1) == (FailsBefore(ds, n) || ds[n].failed)
  {
    if FailsBefore(ds, n + 1) && !ds[n].failed {
      var q :| 0 <= q < n + 1 && q < |ds| && ds[q].failed;
      assert q < n;
    }
  }

  /** The first failure lies before n exactly when some view before n failed. */
  lemma FirstFailureBefore(ds: seq<PoseDelta>, n: nat)
    requires n <= |ds|
    ensures FirstFailure(ds) < n <==> FailsBefore(ds, n)
  {
    FirstFailureIsFirst(ds);
    if FailsBefore(ds, n) {
      var q :| 0 <= q < n && q < |ds| && ds[q].failed;
      assert FirstFailure(ds) <= q;
    }
  }

  /** The views after the first n have taken their change: V <- dR V + dt. */
  function MovedViews(views: seq<seq<Vec3>>, ds: seq<PoseDelta>, n: nat): (vs: seq<seq<Vec3>>)
    requires |ds| == |views| && n <= |views|
    ensures |vs| == |views| && forall i :: 0 <= i < |views| ==> |vs[i]| == |views[i]|
  {
    seq(|views|, i requires 0 <= i < |views| => if i < n then Transform(views[i], ds[i].dR, ds[i].dt) else views[i])
  }

  /** R <- dR R for the first n views. */
  function MovedRotations(rs: seq<Mat3>, ds: seq<PoseDelta>, n: nat): (rs1: seq<Mat3>)
    requires |ds| == |rs| && n <= |rs|
    ensures |rs1| == |rs|
  {
    seq(|rs|, i requires 0 <= i < |rs| => if i < n then Mul(ds[i].dR, rs[i]) else rs[i])
  }

  /** t <- dR t + dt for the first n views. */
  function MovedOffsets(ts: seq<Vec3>, ds: seq<PoseDelta>, n: nat): (ts1: seq<Vec3>)
    requires |ds| == |ts| && n <= |ts|
    ensures |ts1| == |ts|
  {
    seq(|ts|, i requires 0 <= i < |ts| => if i < n then Add(Apply(ds[i].dR, ts[i]), ds[i].dt) else ts[i])
  }

  /** Moving one more view updates exactly that view's points and pose. */
  lemma MovedStep(views: seq<seq<Vec3>>, rs: seq<Mat3>, ts: seq<Vec3>, ds: seq<PoseDelta>, n: nat)
    requires |ds| == |views| == |rs| == |ts| && n < |views|
    ensures MovedViews(views, ds, n + 1) == MovedViews(views, ds, n)[n := Transform(views[n], ds[n].dR, ds[n].dt)]
    ensures MovedRotations(rs, ds, n + 1) == MovedRotations(rs, ds, n)[n := Mul(ds[n].dR, rs[n])]
    ensures MovedOffsets(ts, ds, n + 1) == MovedOffsets(ts, ds, n)[n := Add(Apply(ds[n].dR, ts[n]), ds[n].dt)]
  {
    var v, v1 := MovedViews(views, ds, n), MovedViews(views, ds, n + 1);
    assert forall i :: 0 <= i < |v1| ==> v1[i] == v[n := Transform(views[n], ds[n].dR, ds[n].dt)][i];
    var r, r1 := MovedRotations(rs, ds, n), MovedRotations(rs, ds, n + 1);
    assert forall i :: 0 <= i < |r1| ==> r1[i] == r[n := Mul(ds[n].dR, rs[n])][i];
    var t, t1 := MovedOffsets(ts, ds, n), MovedOffsets(ts, ds, n + 1);
    assert forall i :: 0 <= i < |t1| ==> t1[i] == t[n := Add(Apply(ds[n].dR, ts[n]), ds[n].dt)][i];
  }

  /** Moving none leaves everything as it was. */
  lemma MovedNone(views: seq<seq<Vec3>>, rs: seq<Mat3>, ts: seq<Vec3>, ds: seq<PoseDelta>)
    requires |ds| == |views| == |rs| == |ts|
    ensures MovedViews(views, ds, 0) == views && MovedRotations(rs, ds, 0) == rs && MovedOffsets(ts, ds, 0) == ts
  {
    assert forall i :: 0 <= i < |views| ==> MovedViews(views, ds, 0)[i] == views[i];
    assert forall i :: 0 <= i < |rs| ==> MovedRotations(rs, ds, 0)[i] == rs[i];
    assert forall i :: 0 <= i < |ts| ==> MovedOffsets(ts, ds, 0)[i] == ts[i];
  }

  /** The pose and the stored points take the same change, so every view
      stays its original under its (new) pose, whichever views have moved. */
  lemma MovedRegistered(sources: seq<seq<Vec3>>, views: seq<seq<Vec3>>, rs: seq<Mat3>, ts: seq<Vec3>,
                        ds: seq<PoseDelta>, n: nat)
    requires Registered(sources, views, rs, ts) && |ds| == |views| && n <= |views|
    requires forall i :: 0 <= i < |ds| ==> IsRotation(ds[i].dR)
    ensures Registered(sources, MovedViews(views, ds, n), MovedRotations(rs, ds, n), MovedOffsets(ts, ds, n))
  {
    var vs, rs1, ts1 := MovedViews(views, ds, n), MovedRotations(rs, ds, n), MovedOffsets(ts, ds, n);
    forall i | 0 <= i < n
      ensures vs[i] == Transform(sources[i], rs1[i], ts1[i]) && IsRotation(rs1[i])
    {
      PoseUpdateKeepsRegistration(sources[i], rs[i], ts[i], ds[i]);
    }
  }

  /** Extending the accumulated prefix of views by one adds that view's
      share to each running total. */
  lemma WeightStep(alphas: seq<Matrix>, cols: nat, n: nat)
    requires AllWide(alphas, cols) && n < |alphas|
    ensures WeightTotals(alphas[..n + 1], cols) == AddSeq(WeightTotals(alphas[..n], cols), ColSums(alphas[n], cols))
    ensures PrefixMass(alphas[..n + 1], cols) == PrefixMass(alphas[..n], cols) + Sum(WeightTotals(alphas[..n + 1], cols))
  {
    PrefixOfPrefix(alphas, n);
  }

  lemma MatchesPrefix(views: seq<seq<Vec3>>, alphas: seq<Matrix>, cols: nat, n: nat)
    requires Matches(views, alphas, cols) && n < |alphas|
    ensures Matches(views[..n], alphas[..n], cols) && Matches(views[..n + 1], alphas[..n + 1], cols)
  {
  }

  /** Dropping the last element of a prefix one longer gives the prefix. */
  lemma PrefixOfPrefix<T>(s: seq<T>, n: nat)
    requires n < |s|
    ensures s[..n + 1][..n] == s[..n] && s[..n + 1][n] == s[n]
  {
  }

  lemma TotalsStep(x: seq<Vec3>, views: seq<seq<Vec3>>, alphas: seq<Matrix>, n: nat)
    requires Matches(views, alphas, |x|) && n < |alphas|
    ensures PointTotals(views[..n + 1], alphas[..n + 1], |x|)
            == AddVecs(PointTotals(views[..n], alphas[..n], |x|), ViewPoints(views[n], alphas[n], |x|))
    ensures SpreadTotals(x, views[..n + 1], alphas[..n + 1])
            == AddSeq(SpreadTotals(x, views[..n], alphas[..n]), ViewSpread(x, views[n], alphas[n]))
  {
    PointTotalsStep(x, views, alphas, n);
    SpreadTotalsStep(x, views, alphas, n);
  }

  lemma PointTotalsStep(x: seq<Vec3>, views: seq<seq<Vec3>>, alphas: seq<Matrix>, n: nat)
    requires Matches(views, alphas, |x|) && n < |alphas|
    ensures PointTotals(views[..n + 1], alphas[..n + 1], |x|)
            == AddVecs(PointTotals(views[..n], alphas[..n], |x|), ViewPoints(views[n], alphas[n], |x|))
  {
    PrefixOfPrefix(alphas, n);
    PrefixOfPrefix(views, n);
  }

  lemma SpreadTotalsStep(x: seq<Vec3>, views: seq<seq<Vec3>>, alphas: seq<Matrix>, n: nat)
    requires Matches(views, alphas, |x|) && n < |alphas|
    ensures SpreadTotals(x, views[..n + 1], alphas[..n + 1])
            == AddSeq(SpreadTotals(x, views[..n], alphas[..n]), ViewSpread(x, views[n], alphas[n]))
  {
    MatchesPrefix(views, alphas, |x|, n);
    PrefixOfPrefix(alphas, n);
    PrefixOfPrefix(views, n);
  }

  /** The per-view loop of `stepMa`: fit each view's change and apply it to
      its pose and its points; report whether any fit failed twice. */
  method MovePoses(num: Numerics, x: seq<Vec3>, precision: seq<real>, alphas: seq<Matrix>,
                   views: seq<seq<Vec3>>, rs: seq<Mat3>, ts: seq<Vec3>)
    returns (views': seq<seq<Vec3>>, rs': seq<Mat3>, ts': seq<Vec3>, failed: bool)
    requires |precision| == |x| && Matches(views, alphas, |x|) && |rs| == |views| && |ts| == |views|
    ensures var ds := Deltas(num, x, precision, views, alphas);
            views' == MovedViews(views, ds, |ds|) && rs' == MovedRotations(rs, ds, |ds|)
            && ts' == MovedOffsets(ts, ds, |ds|) && failed == FailsBefore(ds, |ds|)
  {
    ghost var ds := Deltas(num, x, precision, views, alphas);
    MovedNone(views, rs, ts, ds);
    views', rs', ts', failed := views, rs, ts, false;
    var i := 0;
    while i < |views|
      invariant 0 <= i <= |views|
      invariant views' == MovedViews(views, ds, i) && rs' == MovedRotations(rs, ds, i) && ts' == MovedOffsets(ts, ds, i)
      invariant failed == FailsBefore(ds, i)
    {
      var d := FitView(num, x, precision, views, alphas, i, views'[i]);
      views', rs', ts', failed := ApplyDelta(views, rs, ts, ds, i, d, views', rs', ts', failed);
      i := i + 1;
    }
  }

  /** The fit of view i, taken from its current points (which no earlier
      step of the loop has moved). */
  method FitView(num: Numerics, x: seq<Vec3>, precision: seq<real>, views: seq<seq<Vec3>>, alphas: seq<Matrix>,
                 i: nat, current: seq<Vec3>)
    returns (d: PoseDelta)
    requires |precision| == |x| && Matches(views, alphas, |x|) && i < |views| && current == views[i]
    ensures d == Deltas(num, x, precision, views, alphas)[i]
  {
    d := FitPose(num, x, precision, current, alphas[i]);
  }

  /** One pass of the `stepMa` loop body after the fit: R = dR R,
      t = dR t + dt, V = dR V + dt, and the failure flag. */
  method ApplyDelta(views: seq<seq<Vec3>>, rs: seq<Mat3>, ts: seq<Vec3>, ghost ds: seq<PoseDelta>, i: nat, d: PoseDelta,
                    v: seq<seq<Vec3>>, r: seq<Mat3>, t: seq<Vec3>, f: bool)
    returns (v': seq<seq<Vec3>>, r': seq<Mat3>, t': seq<Vec3>, f': bool)
    requires |ds| == |views| == |rs| == |ts| && i < |views| && d == ds[i]
    requires v == MovedViews(views, ds, i) && r == MovedRotations(rs, ds, i) && t == MovedOffsets(ts, ds, i)
    requires f == FailsBefore(ds, i)
    ensures v' == MovedViews(views, ds, i + 1) && r' == MovedRotations(rs, ds, i + 1) && t' == MovedOffsets(ts, ds, i + 1)
    ensures f' == FailsBefore(ds, i + 1)
  {
    MovedStep(views, rs, ts, ds, i);
    FailsBeforeStep(ds, i);
    r' := r[i := Mul(d.dR, r[i])];
    t' := t[i := Add(Apply(d.dR, t[i]), d.dt)];
    v' := v[i := Transform(v[i], d.dR, d.dt)];
    f' := f || d.failed;
  }

  /** The per-view loop of `stepMbc`: X_sum, var_sum and alpha_sum
      accumulated view by view, the squared distances taken to x. */
  method ModelTotals(x: seq<Vec3>, views: seq<seq<Vec3>>, alphas: seq<Matrix>)
    returns (pointSum: seq<Vec3>, spreadSum: seq<real>, weightSum: seq<real>)
    requires Matches(views, alphas, |x|)
    ensures pointSum == PointTotals(views, alphas, |x|)
    ensures spreadSum == SpreadTotals(x, views, alphas)
    ensures weightSum == WeightTotals(alphas, |x|)
  {
    var cols := |x|;
    pointSum, spreadSum, weightSum := ZeroPoints(cols), Filled(cols, 0.0), Filled(cols, 0.0);
    assert views[..0] == [] && alphas[..0] == [];
    var i := 0;
    while i < |views|
      invariant 0 <= i <= |views|
      invariant pointSum == PointTotals(views[..i], alphas[..i], cols)
      invariant spreadSum == SpreadTotals(x, views[..i], alphas[..i])
      invariant weightSum == WeightTotals(alphas[..i], cols)
    {
      TotalsStep(x, views, alphas, i);
      WeightStep(alphas, cols, i);
      weightSum := AddSeq(weightSum, ColSums(alphas[i], cols));
      pointSum := AddVecs(pointSum, ViewPoints(views[i], alphas[i], cols));
      var dist := DistanceBuffer(x, views[i]);
      spreadSum := AddSeq(spreadSum, ColSums(Hadamard(dist, alphas[i], cols), cols));
      i := i + 1;
    }
    assert views[..i] == views && alphas[..i] == alphas;
  }

  /** The buffer loop of `stepMd`: alpha_sumij accumulated buffer by buffer,
      and mu summing alpha_sumij after every step. */
  method OccupancyTotals(alphas: seq<Matrix>, cols: nat) returns (sumij: seq<real>, mu: real)
    requires AllWide(alphas, cols)
    ensures sumij == WeightTotals(alphas, cols) && mu == PrefixMass(alphas, cols)
  {
    mu, sumij := 0.0, Filled(cols, 0.0);
    assert alphas[..0] == [];
    var i := 0;
    while i < |alphas|
      invariant 0 <= i <= |alphas|
      invariant sumij == WeightTotals(alphas[..i], cols) && mu == PrefixMass(alphas[..i], cols)
    {
      WeightStep(alphas, cols, i);
      sumij := AddSeq(sumij, ColSums(alphas[i], cols));
      mu := mu + Sum(sumij);
      i := i + 1;
    }
    assert alphas[..i] == alphas;
  }

  /** One view's share of X_sum, var_sum, alpha_sum and alpha_sumij, and
      the new alpha_sumij total added to mu. */
  method AccumulateView(x: seq<Vec3>, view: seq<Vec3>, a: Matrix, pointSum: seq<Vec3>, spreadSum: seq<real>,
                        weightSum: seq<real>, sumij: seq<real>, mu: real)
    returns (pointSum': seq<Vec3>, spreadSum': seq<real>, weightSum': seq<real>, sumij': seq<real>, mu': real)
    requires Shaped(a, |view|, |x|) && |pointSum| == |spreadSum| == |weightSum| == |sumij| == |x|
    ensures pointSum' == AddVecs(pointSum, ViewPoints(view, a, |x|))
    ensures spreadSum' == AddSeq(spreadSum, ViewSpread(x, view, a))
    ensures weightSum' == AddSeq(weightSum, ColSums(a, |x|)) && sumij' == AddSeq(sumij, ColSums(a, |x|))
    ensures mu' == mu + Sum(sumij')
  {
    var cols := |x|;
    var colsum := ColSums(a, cols);
    weightSum' := AddSeq(weightSum, colsum);
    pointSum' := AddVecs(pointSum, ViewPoints(view, a, cols));
    var dist := DistanceBuffer(x, view);
    spreadSum' := AddSeq(spreadSum, ColSums(Hadamard(dist, a, cols), cols));
    sumij' := AddSeq(sumij, colsum);
    mu' := mu + Sum(sumij');
  }

  /** A double failure at view n, with none before it, makes n the first
      failure. */
  lemma FirstFailureAt(ds: seq<PoseDelta>, n: nat)
    requires n < |ds| && ds[n].failed && !FailsBefore(ds, n)
    ensures FirstFailure(ds) == n
  {
    FirstFailureBefore(ds, n);
    FirstFailureBefore(ds, n + 1);
    FailsBeforeStep(ds, n);
  }

  /** The running state of the per-view loop of `computeOnce`: the
      responsibility buffers, the stored views and their poses, and the
      totals X_sum, var_sum, alpha_sum, alpha_sumij and mu. */
  datatype Sweep = Sweep(buffers: seq<Matrix>, views: seq<seq<Vec3>>, rs: seq<Mat3>, ts: seq<Vec3>,
                         pointSum: seq<Vec3>, spreadSum: seq<real>, weightSum: seq<real>,
                         sumij: seq<real>, mu: real)

  /** The inputs of one pass agree in size: ea holds one E-step result per
      view and ds one pose change per view. */
  ghost predicate PassShape(x: seq<Vec3>, alphas: seq<Matrix>, views: seq<seq<Vec3>>, rs: seq<Mat3>, ts: seq<Vec3>,
                            ea: seq<Matrix>, ds: seq<PoseDelta>)
  {
    Matches(views, ea, |x|) && |ds| == |views| && |rs| == |views| && |ts| == |views| && |alphas| <= |views|
  }

  /** The state once the first n views have been visited with no double
      failure: their buffers written, their changes applied, and the totals
      taken over them (each view's share computed after it moved). */
  ghost function SweepAt(x: seq<Vec3>, alphas: seq<Matrix>, views: seq<seq<Vec3>>, rs: seq<Mat3>, ts: seq<Vec3>,
                         ea: seq<Matrix>, ds: seq<PoseDelta>, n: nat): Sweep
    requires PassShape(x, alphas, views, rs, ts, ea, ds) && n <= |views|
  {
    var vs := MovedViews(views, ds, n);
    assert Matches(vs[..n], ea[..n], |x|);
    Sweep(Grown(alphas, ea, n), vs, MovedRotations(rs, ds, n), MovedOffsets(ts, ds, n),
          PointTotals(vs[..n], ea[..n], |x|), SpreadTotals(x, vs[..n], ea[..n]),
          WeightTotals(ea[..n], |x|), WeightTotals(ea[..n], |x|), PrefixMass(ea[..n], |x|))
  }

  /** The buffers, views and poses of the sweep after n views. */
  lemma SweepParts(x: seq<Vec3>, alphas: seq<Matrix>, views: seq<seq<Vec3>>, rs: seq<Mat3>, ts: seq<Vec3>,
                   ea: seq<Matrix>, ds: seq<PoseDelta>, n: nat)
    requires PassShape(x, alphas, views, rs, ts, ea, ds) && n <= |views|
    ensures var s := SweepAt(x, alphas, views, rs, ts, ea, ds, n);
            s.buffers == Grown(alphas, ea, n) && s.views == MovedViews(views, ds, n)
            && s.rs == MovedRotations(rs, ds, n) && s.ts == MovedOffsets(ts, ds, n)
  {
  }

  /** Before any view is visited the buffers and poses are the inputs and
      every total is zero. */
  lemma SweepStart(x: seq<Vec3>, alphas: seq<Matrix>, views: seq<seq<Vec3>>, rs: seq<Mat3>, ts: seq<Vec3>,
                   ea: seq<Matrix>, ds: seq<PoseDelta>)
    requires PassShape(x, alphas, views, rs, ts, ea, ds)
    ensures SweepAt(x, alphas, views, rs, ts, ea, ds, 0)
            == Sweep(alphas, views, rs, ts, ZeroPoints(|x|), Filled(|x|, 0.0), Filled(|x|, 0.0), Filled(|x|, 0.0), 0.0)
  {
    GrownEnds(alphas, ea, 0);
    MovedNone(views, rs, ts, ds);
    assert MovedViews(views, ds, 0)[..0] == [] && ea[..0] == [];
  }

  /** Once every view is visited the totals are those of the whole moved
      configuration. */
  lemma SweepEnd(x: seq<Vec3>, alphas: seq<Matrix>, views: seq<seq<Vec3>>, rs: seq<Mat3>, ts: seq<Vec3>,
                 ea: seq<Matrix>, ds: seq<PoseDelta>)
    requires PassShape(x, alphas, views, rs, ts, ea, ds)
    ensures var s := SweepAt(x, alphas, views, rs, ts, ea, ds, |views|);
            s.buffers == ea && Matches(s.views, ea, |x|)
            && s.pointSum == PointTotals(s.views, ea, |x|) && s.spreadSum == SpreadTotals(x, s.views, ea)
            && s.weightSum == WeightTotals(ea, |x|) && s.sumij == s.weightSum && s.mu == PrefixMass(ea, |x|)
  {
    var n := |views|;
    GrownEnds(alphas, ea, n);
    assert ea[..n] == ea && MovedViews(views, ds, n)[..n] == MovedViews(views, ds, n);
  }

  /** Visiting view n writes its buffer, applies its change to that view
      alone, and adds its moved points' share to every total. */
  lemma SweepStep(x: seq<Vec3>, alphas: seq<Matrix>, views: seq<seq<Vec3>>, rs: seq<Mat3>, ts: seq<Vec3>,
                  ea: seq<Matrix>, ds: seq<PoseDelta>, n: nat)
    requires PassShape(x, alphas, views, rs, ts, ea, ds) && n < |views|
    ensures var s, s1 := SweepAt(x, alphas, views, rs, ts, ea, ds, n), SweepAt(x, alphas, views, rs, ts, ea, ds, n + 1);
            var moved := Transform(views[n], ds[n].dR, ds[n].dt);
            s.views[n] == views[n] && s.rs[n] == rs[n] && s.ts[n] == ts[n]
            && s1.buffers == (if n < |s.buffers| then s.buffers[n := ea[n]] else s.buffers + [ea[n]])
            && s1.views == s.views[n := moved]
            && s1.rs == s.rs[n := Mul(ds[n].dR, rs[n])]
            && s1.ts == s.ts[n := Add(Apply(ds[n].dR, ts[n]), ds[n].dt)]
            && s1.pointSum == AddVecs(s.pointSum, ViewPoints(moved, ea[n], |x|))
            && s1.spreadSum == AddSeq(s.spreadSum, ViewSpread(x, moved, ea[n]))
            && s1.weightSum == AddSeq(s.weightSum, ColSums(ea[n], |x|)) && s1.sumij == s1.weightSum
            && s1.mu == s.mu + Sum(s1.weightSum)
  {
    GrownStep(alphas, ea, n);
    MovedStep(views, rs, ts, ds, n);
    var vs, vs1 := MovedViews(views, ds, n), MovedViews(views, ds, n + 1);
    assert vs1[..n] == vs[..n];
    TotalsStep(x, vs1, ea, n);
    WeightStep(ea, |x|, n);
  }

  /** One view's turn in the loop of `computeOnce`: its responsibilities
      (E-step) into its buffer, its pose change applied to its pose and
      points (M-step a), and, unless the fit failed twice, its moved points'
      share of X_sum, var_sum, alpha_sum, alpha_sumij and mu. */
  method Visit(num: Numerics, x: seq<Vec3>, precision: seq<real>, occupancy: seq<real>, beta: real, s: Sweep, i: nat,
               ghost alphas: seq<Matrix>, ghost views: seq<seq<Vec3>>, ghost rs: seq<Mat3>, ghost ts: seq<Vec3>,
               ghost ea: seq<Matrix>, ghost ds: seq<PoseDelta>)
    returns (s': Sweep, failed: bool)
    requires |precision| == |x| && |occupancy| == |x|
    requires PassShape(x, alphas, views, rs, ts, ea, ds) && i < |views|
    requires ea[i] == Responsibilities(num.kernel, x, precision, occupancy, beta, views[i])
    requires ds[i] == FitPose(num, x, precision, views[i], ea[i])
    requires s == SweepAt(x, alphas, views, rs, ts, ea, ds, i)
    ensures failed == ds[i].failed
    ensures !failed ==> s' == SweepAt(x, alphas, views, rs, ts, ea, ds, i + 1)
    ensures failed ==> s' == s.(buffers := SweepAt(x, alphas, views, rs, ts, ea, ds, i + 1).buffers)
  {
    SweepStep(x, alphas, views, rs, ts, ea, ds, i);
    var cols := |x|;
    var view := s.views[i];
    var dist := DistanceBuffer(x, view);
    var a := Normalized(num.kernel, precision, occupancy, beta, dist);
    var buffers := if i < |s.buffers| then s.buffers[i := a] else s.buffers + [a];
    var d := FitPose(num, x, precision, view, a);
    if d.failed {
      return s.(buffers := buffers), true;
    }
    var moved := Transform(view, d.dR, d.dt);
    var pointSum, spreadSum, weightSum, sumij, mu :=
      AccumulateView(x, moved, a, s.pointSum, s.spreadSum, s.weightSum, s.sumij, s.mu);
    s' := Sweep(buffers, s.views[i := moved], s.rs[i := Mul(d.dR, s.rs[i])], s.ts[i := Add(Apply(d.dR, s.ts[i]), d.dt)],
                pointSum, spreadSum, weightSum, sumij, mu);
    failed := false;
  }

  /** The per-view loop of `computeOnce`: every view visited in turn, and a
      double SVD failure stops the loop at once, leaving the views after it
      untouched (their buffers too) and the totals unused. */
  method FusedPass(num: Numerics, x: seq<Vec3>, precision: seq<real>, occupancy: seq<real>, beta: real,
                   alphas: seq<Matrix>, views: seq<seq<Vec3>>, rs: seq<Mat3>, ts: seq<Vec3>,
                   ghost ea: seq<Matrix>, ghost ds: seq<PoseDelta>)
    returns (s: Sweep, failed: bool)
    requires |precision| == |x| && |occupancy| == |x|
    requires PassShape(x, alphas, views, rs, ts, ea, ds)
    requires forall i :: 0 <= i < |views| ==> ea[i] == Responsibilities(num.kernel, x, precision, occupancy, beta, views[i])
    requires forall i :: 0 <= i < |views| ==> ds[i] == FitPose(num, x, precision, views[i], ea[i])
    ensures var f := FirstFailure(ds);
            failed == (f < |ds|)
            && s.buffers == Grown(alphas, ea, if failed then f + 1 else f)
            && s.views == MovedViews(views, ds, f) && s.rs == MovedRotations(rs, ds, f) && s.ts == MovedOffsets(ts, ds, f)
            && (!failed ==> s == SweepAt(x, alphas, views, rs, ts, ea, ds, |views|))
  {
    SweepStart(x, alphas, views, rs, ts, ea, ds);
    s := Sweep(alphas, views, rs, ts, ZeroPoints(|x|), Filled(|x|, 0.0), Filled(|x|, 0.0), Filled(|x|, 0.0), 0.0);
    failed := false;
    var i := 0;
    while i < |views|
      invariant 0 <= i <= |views|
      invariant s == SweepAt(x, alphas, views, rs, ts, ea, ds, i)
      invariant !FailsBefore(ds, i)
    {
      FailsBeforeStep(ds, i);
      s, failed := Visit(num, x, precision, occupancy, beta, s, i, alphas, views, rs, ts, ea, ds);
      if failed {
        FirstFailureAt(ds, i);
        SweepParts(x, alphas, views, rs, ts, ea, ds, i);
        SweepParts(x, alphas, views, rs, ts, ea, ds, i + 1);
        return;
      }
      i := i + 1;
    }
    FirstFailureBefore(ds, i);
    SweepParts(x, alphas, views, rs, ts, ea, ds, i);
  }

  /** What one EM iteration leaves behind: the buffers, the views and their
      poses, the model points, precisions and occupancy, and whether a
      double SVD failure stopped it. */
  datatype Outcome = Outcome(alphas: seq<Matrix>, views: seq<seq<Vec3>>, rs: seq<Mat3>, ts: seq<Vec3>,
                             x: seq<Vec3>, precision: seq<real>, occupancy: seq<real>, failed: bool)

  /** `computeOnce` as a function of the state before it. Up to the first
      view whose fit fails twice, every view has its responsibilities
      computed and its change applied. A failure leaves that view's buffer
      written, its pose and every later view untouched, and the model as it
      was. Otherwise the buffers are the E-step results and the model
      points, precisions and occupancy are what `stepMbc` and `stepMd`
      compute from them and the moved views, as after `stepE` and `stepMa`. */
  ghost function AfterIteration(num: Numerics, x: seq<Vec3>, precision: seq<real>, occupancy: seq<real>, beta: real,
                                gamma: real, alphas: seq<Matrix>, views: seq<seq<Vec3>>, rs: seq<Mat3>, ts: seq<Vec3>): Outcome
    requires |precision| == |x| && |occupancy| == |x| && |alphas| <= |views| && |rs| == |views| && |ts| == |views|
  {
    var ea := EStepAll(num.kernel, x, precision, occupancy, beta, views);
    var ds := Deltas(num, x, precision, views, ea);
    var f := FirstFailure(ds);
    var vs, rs1, ts1 := MovedViews(views, ds, f), MovedRotations(rs, ds, f), MovedOffsets(ts, ds, f);
    if f < |ds| then
      Outcome(Grown(alphas, ea, f + 1), vs, rs1, ts1, x, precision, occupancy, true)
    else
      assert Matches(vs, ea, |x|);
      Outcome(ea, vs, rs1, ts1, Centres(PointTotals(vs, ea, |x|), WeightTotals(ea, |x|)),
              Precisions(SpreadTotals(x, vs, ea), WeightTotals(ea, |x|)), Occupancy(ea, |x|, gamma), false)
  }

  /** The whole of `computeOnce` on values: the fused pass, then, unless it
      stopped on a double failure, the model points, precisions and
      occupancy from its totals. */
  method Iteration(num: Numerics, x: seq<Vec3>, precision: seq<real>, occupancy: seq<real>, beta: real, gamma: real,
                   alphas: seq<Matrix>, views: seq<seq<Vec3>>, rs: seq<Mat3>, ts: seq<Vec3>)
    returns (r: Outcome)
    requires |precision| == |x| && |occupancy| == |x| && |alphas| <= |views| && |rs| == |views| && |ts| == |views|
    ensures r == AfterIteration(num, x, precision, occupancy, beta, gamma, alphas, views, rs, ts)
  {
    ghost var ea := EStepAll(num.kernel, x, precision, occupancy, beta, views);
    ghost var ds := Deltas(num, x, precision, views, ea);
    var s, failed := FusedPass(num, x, precision, occupancy, beta, alphas, views, rs, ts, ea, ds);
    if failed {
      return Outcome(s.buffers, s.views, s.rs, s.ts, x, precision, occupancy, true);
    }
    SweepEnd(x, alphas, views, rs, ts, ea, ds);
    r := Outcome(s.buffers, s.views, s.rs, s.ts, Centres(s.pointSum, s.weightSum),
                 Precisions(s.spreadSum, s.weightSum), OccupancyOf(s.sumij, s.mu, gamma), false);
  }

  /** The iteration keeps every view registered to its source (pose and
      points take the same change) and every buffer shaped to its view,
      whether it completes or stops early. */
  lemma IterationKeepsValid(num: Numerics, sources: seq<seq<Vec3>>, x: seq<Vec3>, precision: seq<real>,
                            occupancy: seq<real>, beta: real, gamma: real,
                            alphas: seq<Matrix>, views: seq<seq<Vec3>>, rs: seq<Mat3>, ts: seq<Vec3>)
    requires Sound(num) && Registered(sources, views, rs, ts) && |precision| == |x| && |occupancy| == |x|
    requires |alphas| <= |views| && forall i :: 0 <= i < |alphas| ==> Shaped(alphas[i], |views[i]|, |x|)
    ensures var r := AfterIteration(num, x, precision, occupancy, beta, gamma, alphas, views, rs, ts);
            Registered(sources, r.views, r.rs, r.ts) && |r.precision| == |r.x| == |x| && |r.occupancy| == |x|
            && |r.alphas| <= |r.views| && forall i :: 0 <= i < |r.alphas| ==> Shaped(r.alphas[i], |r.views[i]|, |x|)
  {
    var ea := EStepAll(num.kernel, x, precision, occupancy, beta, views);
    var ds := Deltas(num, x, precision, views, ea);
    DeltasAreRotations(num, x, precision, views, ea);
    MovedRegistered(sources, views, rs, ts, ds, FirstFailure(ds));
  }

  /** The bundle `initForThread` appends: empty, then padded with origin
      points while the model size exceeds its vertex count. The size is
      compared with an unsigned count, so only a non-negative size ends. */
  method Padding(size: nat) returns (target: seq<Vec3>)
    ensures |target| == size
    ensures forall i :: 0 <= i < |target| ==> target[i] == Vec3(0.0, 0.0, 0.0)
  {
    target := [];
    while size > |target|
      invariant |target| <= size
      invariant forall i :: 0 <= i < |target| ==> target[i] == Vec3(0.0, 0.0, 0.0)
      decreases size - |target|
    {
      target := target + [Vec3(0.0, 0.0, 0.0)];
    }
  }

  // ---------------------------------------------------------------------------
  // The engine

  /** The host's list of mesh bundles, each reduced to its vertex positions. */
  class MeshList {
    var meshes: seq<seq<Vec3>>

    constructor(meshes: seq<seq<Vec3>>)
      ensures this.meshes == meshes
    {
      this.meshes := meshes;
    }
  }

  class JRMPC {
    const num: Numerics
    var count: int
    var forced: bool                 // end_
    var X: seq<Vec3>                 // model points
    var precision: seq<real>         // var
    var occupancy: seq<real>         // P_
    var beta: real
    var views: seq<seq<Vec3>>        // V_ptrs
    var Rs: seq<Mat3>
    var ts: seq<Vec3>
    var alphas: seq<Matrix>          // alpha_ptrs
    var k: int                       // the Info the engine keeps
    var gamma: real
    var maxIter: int
    var mode: Mode
    var errorString: string
    /** The views as they were handed over, before any pose was applied. */
    ghost var sources: seq<seq<Vec3>>

    /** Every stored view is its source transformed by the current pose, every
        pose is a proper rotation, and the buffers agree in shape. */
    ghost predicate Valid()
      reads this
    {
      Sound(num) && Registered(sources, views, Rs, ts)
      && |precision| == |X| && |occupancy| == |X|
      && |alphas| <= |views|
      && (forall i :: 0 <= i < |alphas| ==> Shaped(alphas[i], |views[i]|, |X|))
    }

    constructor(num: Numerics)
      requires Sound(num)
      ensures Valid() && this.num == num
      ensures count == 0 && !forced && views == [] && alphas == [] && X == [] && mode == NotEnded
    {
      this.num := num;
      count, forced := 0, false;
      X, precision, occupancy, beta := [], [], [], 0.0;
      views, Rs, ts, alphas := [], [], [], [];
      k, gamma, maxIter, mode := 0, 0.0, 0, NotEnded;
      errorString := "";
      sources := [];
    }

    /** The state `reset` leaves behind for the given views and model points. */
    ghost predicate ResetFrom(source: seq<seq<Vec3>>, target: seq<Vec3>, info: Config)
      reads this
      requires NonEmptyViews(source)
    {
      count == 0 && k == info.k && gamma == info.gamma && maxIter == info.maxIter
      && sources == source && views == Shifted(source, target)
      && Rs == Identities(|source|) && ts == Offsets(source, target)
      && NonEmptyViews(views)
      && occupancy == Filled(|target|, Quot(1.0, |target| as real))
      && precision == Filled(|target|, Quot(1.0, SquaredExtent(views)))
      && X == ScaledPoints(target, 0.5 * num.sqrt(SquaredExtent(views)))
      && beta == OutlierWeight(gamma, precision)
    }

    /** `initK`: the model size, from the configured value or the view sizes. */
    method InitK(source: seq<seq<Vec3>>, k: int) returns (k': int)
      requires k == 0 ==> |source| > 0
      ensures k' == ModelSize(source, k)
      ensures k != 0 ==> k' == k
      ensures k == 0 ==> k' >= 12
    {
      if k != 0 {
        return k;
      }
      var nviews: seq<real> := [];
      var idx := 0;
      while idx < |source|
        invariant 0 <= idx <= |source|
        invariant nviews == PointCounts(source)[..idx]
      {
        nviews := nviews + [|source[idx]| as real];
        idx := idx + 1;
      }
      assert nviews == PointCounts(source);
      k' := Trunc(2.0 * Median(nviews));
      k' := if k' > 12 then k' else 12;
    }

    /** `reset`: identity rotations, translations that move every view's
        centroid onto the unscaled target's, uniform occupancy, precisions from the
        bounding box of the shifted views, the model points scaled to that
        box, and beta. */
    method Reset(source: seq<seq<Vec3>>, target: seq<Vec3>, info: Config)
      requires NonEmptyViews(source)
      modifies this`count, this`k, this`gamma, this`maxIter, this`sources, this`views, this`Rs, this`ts
      modifies this`X, this`occupancy, this`precision, this`beta
      ensures ResetFrom(source, target, info)
    {
      var vs, rs, offsets := SeedPoses(source, target);
      ShiftedNonEmpty(source, target);
      var maxAll, minAll := BoundingBox(vs);
      var maxvar := SqDist(maxAll, minAll);
      StorePoses(info, source, vs, rs, offsets);
      ScaleModel(target, maxvar);
    }

    /** The first half of `reset`: the counter, the configuration and the
        seeded poses. */
    method StorePoses(info: Config, source: seq<seq<Vec3>>, vs: seq<seq<Vec3>>, rs: seq<Mat3>, offsets: seq<Vec3>)
      modifies this`count, this`k, this`gamma, this`maxIter, this`sources, this`views, this`Rs, this`ts
      ensures count == 0 && k == info.k && gamma == info.gamma && maxIter == info.maxIter
      ensures sources == source && views == vs && Rs == rs && ts == offsets
    {
      count, k, gamma, maxIter := 0, info.k, info.gamma, info.maxIter;
      sources, views, Rs, ts := source, vs, rs, offsets;
    }

    /** The second half of `reset`: uniform occupancy, every precision
        1/maxvar, the model points scaled by sqrt(maxvar)/2, and beta. */
    method ScaleModel(target: seq<Vec3>, maxvar: real)
      modifies this`X, this`occupancy, this`precision, this`beta
      ensures occupancy == Filled(|target|, Quot(1.0, |target| as real))
      ensures precision == Filled(|target|, Quot(1.0, maxvar))
      ensures X == ScaledPoints(target, 0.5 * num.sqrt(maxvar))
      ensures beta == OutlierWeight(gamma, precision)
    {
      var c := |target|;
      occupancy := Filled(c, Quot(1.0, c as real));
      precision := Filled(c, Quot(1.0, maxvar));
      X := ScaledPoints(target, 0.5 * num.sqrt(maxvar));
      beta := OutlierWeight(gamma, precision);
    }

    /** What `reset` establishes: every view is its source under the seeded
        pose (identity rotation, centroid offset) and has the centroid of
        the target before scaling, the occupancy sums to one, and beta is non-negative for a
        non-negative outlier ratio. */
    lemma ResetIsValid(source: seq<seq<Vec3>>, target: seq<Vec3>, info: Config)
      requires Sound(num) && alphas == [] && NonEmptyViews(source)
      requires ResetFrom(source, target, info)
      ensures Valid()
      ensures forall i :: 0 <= i < |views| ==> Mean(views[i]) == Mean(target)
      ensures |target| > 0 ==> Sum(occupancy) == 1.0
      ensures info.gamma >= 0.0 ==> beta >= 0.0
    {
      SeededViews(source, target);
      IdentitiesAreRotations(|source|);
      UniformOccupancy(|target|);
      UniformOutlierWeight(info.gamma, |target|, SquaredExtent(Shifted(source, target)));
    }

    /** The successful end of `initForThread`: `reset` on the list's point
        sets and the placed model points, whose results the list shares. */
    method Start(list: MeshList, source: seq<seq<Vec3>>, target: seq<Vec3>, config: Config)
      requires Sound(num) && NonEmptyViews(source)
      modifies list
      modifies this`count, this`k, this`gamma, this`maxIter, this`sources, this`views, this`Rs, this`ts
      modifies this`X, this`occupancy, this`precision, this`beta
      ensures ResetFrom(source, target, config) && list.meshes == views + [X]
      ensures old(alphas) == [] ==> Valid()
    {
      Reset(source, target, config);
      if alphas == [] {
        ResetIsValid(source, target, config);
      }
      list.meshes := views + [X];
    }

    /** Nothing but the error string has changed. */
    twostate predicate Untouched()
      reads this
    {
      unchanged(this`count, this`k, this`gamma, this`maxIter, this`sources, this`views, this`Rs, this`ts)
      && unchanged(this`X, this`occupancy, this`precision, this`beta)
    }

    /** `initForThread`: rejects a missing list and a list of fewer than two
        point sets; otherwise settles the model size, appends one bundle padded
        with origin points up to that size (the padded bundle always has
        exactly that size, so the size check after it never fails),
        places the model points (`initX`, here `draw`) and resets the engine
        on the list's point sets. The engine's views and model points share
        their storage with the list, which therefore ends up holding the
        shifted views and the scaled model. */
    method InitForThread(list: MeshList?, info: Config, draw: nat -> Vec3) returns (ok: bool)
      requires Sound(num)
      requires list != null && |list.meshes| >= 2 ==> NonEmptyViews(list.meshes) && info.k >= 0
      modifies list, this`errorString
      modifies this`count, this`k, this`gamma, this`maxIter, this`sources, this`views, this`Rs, this`ts
      modifies this`X, this`occupancy, this`precision, this`beta
      ensures list == null ==> !ok && errorString == "Can not locate the inputs" && Untouched()
      ensures list != null && |old(list.meshes)| < 2 ==>
                !ok && errorString == "This algorithm is designed for two multiple point clouds"
                && Untouched() && unchanged(list)
      ensures list != null && |old(list.meshes)| >= 2 ==>
                var size := ModelSize(old(list.meshes), info.k);
                ok && size >= 0 && ResetFrom(old(list.meshes), seq(size, draw), info.(k := size))
                && list.meshes == views + [X] && errorString == old(errorString)
      ensures ok && old(alphas) == [] ==> Valid()
    {
      if list == null {
        errorString := "Can not locate the inputs";
        return false;
      }
      if |list.meshes| < 2 {
        errorString := "This algorithm is designed for two multiple point clouds";
        return false;
      }
      var source := list.meshes;
      var size := InitK(source, info.k);
      var target := Padding(size);
      assert |target| == size;
      Start(list, source, seq(size, draw), info.(k := size));
      ok := true;
    }

    /** `stepE`: for every view, a buffer of responsibilities (allocated
        when missing, overwritten otherwise): each row is the kernel row of
        a view point divided by its sum plus beta. */
    method StepE()
      requires Valid()
      modifies this`alphas
      ensures alphas == EStepAll(num.kernel, X, precision, occupancy, beta, views)
      ensures |alphas| >= |old(alphas)|
      ensures Valid()
    {
      var x, p, o, b, vs, kernel := X, precision, occupancy, beta, views, num.kernel;
      ghost var ea := EStepAll(kernel, x, p, o, b, vs);
      var buffers := alphas;
      ghost var alphas0 := alphas;
      GrownEnds(alphas0, ea, 0);
      var i := 0;
      while i < |vs|
        invariant 0 <= i <= |vs|
        invariant buffers == Grown(alphas0, ea, i)
      {
        var dist := DistanceBuffer(x, vs[i]);
        var a := Normalized(kernel, p, o, b, dist);
        GrownStep(alphas0, ea, i);
        if i < |buffers| {
          buffers := buffers[i := a];
        } else {
          buffers := buffers + [a];
        }
        i := i + 1;
      }
      GrownEnds(alphas0, ea, i);
      assert ea[..i] == ea;
      alphas := buffers;
    }

    /** `stepMa`: every view's pose and points take the fitted change
        (R <- dR R, t <- dR t + dt, V <- dR V + dt); a double SVD failure
        sets the force flag and moves the view by the identity rotation. */
    method StepMa()
      requires Valid() && |alphas| == |views|
      modifies this`views, this`Rs, this`ts, this`forced
      ensures var ds := Deltas(num, X, precision, old(views), alphas);
              views == MovedViews(old(views), ds, |ds|) && Rs == MovedRotations(old(Rs), ds, |ds|)
              && ts == MovedOffsets(old(ts), ds, |ds|) && forced == (old(forced) || FailsBefore(ds, |ds|))
      ensures Valid()
    {
      var x, p, buffers := X, precision, alphas;
      ghost var ds := Deltas(num, x, p, views, buffers);
      DeltasAreRotations(num, x, p, views, buffers);
      MovedRegistered(sources, views, Rs, ts, ds, |ds|);
      var vs, rs, offsets, failed := MovePoses(num, x, p, buffers, views, Rs, ts);
      views, Rs, ts, forced := vs, rs, offsets, forced || failed;
    }

    /** `stepMbc`: each model point becomes the responsibility-weighted mean
        of the (moved) view points, and each precision
        1 / (var_sum / (3 alpha_sum) + 1e-6), the squared distances taken to
        the model points as they were before the update. */
    method StepMbc()
      requires Valid() && |alphas| == |views|
      modifies this`X, this`precision
      ensures X == Centres(PointTotals(views, alphas, |old(X)|), WeightTotals(alphas, |old(X)|))
      ensures precision == Precisions(SpreadTotals(old(X), views, alphas), WeightTotals(alphas, |old(X)|))
      ensures Valid()
    {
      var pointSum, spreadSum, weightSum := ModelTotals(X, views, alphas);
      X := Centres(pointSum, weightSum);
      precision := Precisions(spreadSum, weightSum);
    }

    /** `stepMd`: the occupancy weights are the column totals over all
        buffers divided by (gamma + 1) mu, mu summing the running prefix
        totals. */
    method StepMd()
      requires Valid()
      modifies this`occupancy
      ensures occupancy == Occupancy(alphas, |X|, gamma)
      ensures Valid()
    {
      var sumij, mu := OccupancyTotals(alphas, |X|);
      occupancy := OccupancyOf(sumij, mu, gamma);
    }

    /** `computeOnce`: one fused EM iteration. Each view in turn gets its
        responsibilities, its pose change and its share of the totals; a
        double SVD failure sets the force flag and stops at once, leaving
        the later views and the model untouched. Otherwise the model points,
        precisions and occupancy are updated from the totals, as `stepMbc`
        and `stepMd` would update them after `stepE` and `stepMa`. */
    method ComputeOnce()
      requires Valid()
      modifies this`alphas, this`views, this`Rs, this`ts, this`forced, this`X, this`precision, this`occupancy
      ensures var r := AfterIteration(num, old(X), old(precision), old(occupancy), old(beta), old(gamma),
                                      old(alphas), old(views), old(Rs), old(ts));
              alphas == r.alphas && views == r.views && Rs == r.rs && ts == r.ts
              && X == r.x && precision == r.precision && occupancy == r.occupancy
              && forced == (old(forced) || r.failed)
      ensures Valid()
    {
      IterationKeepsValid(num, sources, X, precision, occupancy, beta, gamma, alphas, views, Rs, ts);
      var r := Iteration(num, X, precision, occupancy, beta, gamma, alphas, views, Rs, ts);
      Commit(r);
    }

    method Commit(r: Outcome)
      modifies this`alphas, this`views, this`Rs, this`ts, this`forced, this`X, this`precision, this`occupancy
      ensures alphas == r.alphas && views == r.views && Rs == r.rs && ts == r.ts
      ensures X == r.x && precision == r.precision && occupancy == r.occupancy
      ensures forced == (old(forced) || r.failed)
    {
      alphas, views, Rs, ts := r.alphas, r.views, r.rs, r.ts;
      X, precision, occupancy := r.x, r.precision, r.occupancy;
      forced := forced || r.failed;
    }

    /** `isEnd`: the iteration limit takes precedence over the force flag. */
    method IsEnd() returns (ended: bool)
      modifies this`mode
      ensures ended <==> count >= maxIter || forced
      ensures mode == if count >= maxIter then MaxIter else if forced then Force else old(mode)
    {
      if count >= maxIter {
        mode := MaxIter;
        return true;
      }
      if forced {
        mode := Force;
        return true;
      }
      return false;
    }
  }
}
