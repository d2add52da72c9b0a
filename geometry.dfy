/** Three-dimensional points, 3x3 matrices and the rigid-motion algebra that
    the registration engine relies on: composing poses, applying them to point
    sets, centroids and bounding boxes. Matrices are stored by rows. */
module Geometry {
  import opened Numeric

  datatype Vec3 = Vec3(x: real, y: real, z: real)

  /** Rows r0, r1, r2. */
  datatype Mat3 = Mat3(r0: Vec3, r1: Vec3, r2: Vec3)

  const Zero := Vec3(0.0, 0.0, 0.0)

  const Identity := Mat3(Vec3(1.0, 0.0, 0.0), Vec3(0.0, 1.0, 0.0), Vec3(0.0, 0.0, 1.0))

  function Add(a: Vec3, b: Vec3): Vec3 { Vec3(a.x + b.x, a.y + b.y, a.z + b.z) }

  function Sub(a: Vec3, b: Vec3): Vec3 { Vec3(a.x - b.x, a.y - b.y, a.z - b.z) }

  function Scale(c: real, a: Vec3): Vec3 { Vec3(c * a.x, c * a.y, c * a.z) }

  function Dot(a: Vec3, b: Vec3): real { a.x * b.x + a.y * b.y + a.z * b.z }

  /** Squared Euclidean distance, `sum(square(x - v))` in the source. */
  function SqDist(a: Vec3, b: Vec3): (d: real)
    ensures d >= 0.0
    ensures a == b ==> d == 0.0
  {
    var e := Sub(a, b);
    Dot(e, e)
  }

  /** Matrix times column vector. */
  function Apply(m: Mat3, v: Vec3): Vec3
  {
    Vec3(Dot(m.r0, v), Dot(m.r1, v), Dot(m.r2, v))
  }

  function Transpose(m: Mat3): Mat3
  {
    Mat3(Vec3(m.r0.x, m.r1.x, m.r2.x),
         Vec3(m.r0.y, m.r1.y, m.r2.y),
         Vec3(m.r0.z, m.r1.z, m.r2.z))
  }

  /** Matrix product a * b. */
  function Mul(a: Mat3, b: Mat3): Mat3
  {
    var bt := Transpose(b);
    Mat3(Apply(bt, a.r0), Apply(bt, a.r1), Apply(bt, a.r2))
  }

  function MatAdd(a: Mat3, b: Mat3): Mat3
  {
    Mat3(Add(a.r0, b.r0), Add(a.r1, b.r1), Add(a.r2, b.r2))
  }

  /** Outer product a * b^T. */
  function Outer(a: Vec3, b: Vec3): Mat3
  {
    Mat3(Scale(a.x, b), Scale(a.y, b), Scale(a.z, b))
  }

  /** diag(1, 1, c). */
  function DiagLast(c: real): Mat3
  {
    Mat3(Vec3(1.0, 0.0, 0.0), Vec3(0.0, 1.0, 0.0), Vec3(0.0, 0.0, c))
  }

  function Det(m: Mat3): real
  {
    Det9(m.r0.x, m.r0.y, m.r0.z, m.r1.x, m.r1.y, m.r1.z, m.r2.x, m.r2.y, m.r2.z)
  }

  /** M^T M = M M^T = I. */
  ghost predicate Orthonormal(m: Mat3)
  {
    (Mul(Transpose(m), m), Mul(m, Transpose(m))) == (Identity, Identity)
  }

  /** A proper rotation: orthonormal with determinant +1. */
  ghost predicate IsRotation(m: Mat3)
  {
    Orthonormal(m) && Det(m) == 1.0
  }

  lemma ApplyIdentity(v: Vec3)
    ensures Apply(Identity, v) == v
  {
  }

  lemma ApplyAdd(m: Mat3, u: Vec3, v: Vec3)
    ensures Apply(m, Add(u, v)) == Add(Apply(m, u), Apply(m, v))
  {
  }

  lemma ApplyMul(a: Mat3, b: Mat3, v: Vec3)
    ensures Apply(Mul(a, b), v) == Apply(a, Apply(b, v))
  {
    DotTransposed(b, a.r0, v);
    DotTransposed(b, a.r1, v);
    DotTransposed(b, a.r2, v);
  }

  /** (B^T r) . v == r . (B v). */
  lemma DotTransposed(b: Mat3, r: Vec3, v: Vec3)
    ensures Dot(Apply(Transpose(b), r), v) == Dot(r, Apply(b, v))
  {
  }

  lemma MulAssoc(a: Mat3, b: Mat3, c: Mat3)
    ensures Mul(Mul(a, b), c) == Mul(a, Mul(b, c))
  {
    TransposeMul(b, c);
    ApplyMul(Transpose(c), Transpose(b), a.r0);
    ApplyMul(Transpose(c), Transpose(b), a.r1);
    ApplyMul(Transpose(c), Transpose(b), a.r2);
  }

  lemma TransposeMul(a: Mat3, b: Mat3)
    ensures Transpose(Mul(a, b)) == Mul(Transpose(b), Transpose(a))
  {
  }

  lemma MulIdentity(a: Mat3)
    ensures Mul(a, Identity) == a && Mul(Identity, a) == a
  {
  }

  lemma DetTranspose(a: Mat3)
    ensures Det(Transpose(a)) == Det(a)
  {
  }

  function Det9(a: real, b: real, c: real, d: real, e: real, f: real, g: real, h: real, i: real): real
  {
    a * (e * i - f * h) - b * (d * i - f * g) + c * (d * h - e * g)
  }

  /** The entries of a b, written out row by row. */
  lemma MulEntries(a: Mat3, b: Mat3)
    ensures Mul(a, b).r0 == Vec3(b.r0.x * a.r0.x + b.r1.x * a.r0.y + b.r2.x * a.r0.z,
                                 b.r0.y * a.r0.x + b.r1.y * a.r0.y + b.r2.y * a.r0.z,
                                 b.r0.z * a.r0.x + b.r1.z * a.r0.y + b.r2.z * a.r0.z)
    ensures Mul(a, b).r1 == Vec3(b.r0.x * a.r1.x + b.r1.x * a.r1.y + b.r2.x * a.r1.z,
                                 b.r0.y * a.r1.x + b.r1.y * a.r1.y + b.r2.y * a.r1.z,
                                 b.r0.z * a.r1.x + b.r1.z * a.r1.y + b.r2.z * a.r1.z)
    ensures Mul(a, b).r2 == Vec3(b.r0.x * a.r2.x + b.r1.x * a.r2.y + b.r2.x * a.r2.z,
                                 b.r0.y * a.r2.x + b.r1.y * a.r2.y + b.r2.y * a.r2.z,
                                 b.r0.z * a.r2.x + b.r1.z * a.r2.y + b.r2.z * a.r2.z)
  {
  }

  /** The polynomial identity behind det(a b) = det(a) det(b). */
  lemma DetMulEntries(a: Mat3, b: Mat3)
    ensures Det9(b.r0.x * a.r0.x + b.r1.x * a.r0.y + b.r2.x * a.r0.z,
                 b.r0.y * a.r0.x + b.r1.y * a.r0.y + b.r2.y * a.r0.z,
                 b.r0.z * a.r0.x + b.r1.z * a.r0.y + b.r2.z * a.r0.z,
                 b.r0.x * a.r1.x + b.r1.x * a.r1.y + b.r2.x * a.r1.z,
                 b.r0.y * a.r1.x + b.r1.y * a.r1.y + b.r2.y * a.r1.z,
                 b.r0.z * a.r1.x + b.r1.z * a.r1.y + b.r2.z * a.r1.z,
                 b.r0.x * a.r2.x + b.r1.x * a.r2.y + b.r2.x * a.r2.z,
                 b.r0.y * a.r2.x + b.r1.y * a.r2.y + b.r2.y * a.r2.z,
                 b.r0.z * a.r2.x + b.r1.z * a.r2.y + b.r2.z * a.r2.z)
            == Det(a) * Det(b)
  {
  }

  /** det(a b) = det(a) det(b). */
  lemma DetMul(a: Mat3, b: Mat3)
    ensures Det(Mul(a, b)) == Det(a) * Det(b)
  {
    MulEntries(a, b);
    DetMulEntries(a, b);
  }

  /** The product of two orthonormal matrices is orthonormal. */
  lemma OrthonormalMul(a: Mat3, b: Mat3)
    requires Orthonormal(a) && Orthonormal(b)
    ensures Orthonormal(Mul(a, b))
  {
    var ab := Mul(a, b);
    TransposeMul(a, b);
    calc {
      Mul(Transpose(ab), ab);
      Mul(Mul(Transpose(b), Transpose(a)), Mul(a, b));
      { MulAssoc(Transpose(b), Transpose(a), Mul(a, b)); }
      Mul(Transpose(b), Mul(Transpose(a), Mul(a, b)));
      { MulAssoc(Transpose(a), a, b); }
      Mul(Transpose(b), Mul(Mul(Transpose(a), a), b));
      { MulIdentity(b); }
      Mul(Transpose(b), b);
      Identity;
    }
    calc {
      Mul(ab, Transpose(ab));
      Mul(Mul(a, b), Mul(Transpose(b), Transpose(a)));
      { MulAssoc(a, b, Mul(Transpose(b), Transpose(a))); }
      Mul(a, Mul(b, Mul(Transpose(b), Transpose(a))));
      { MulAssoc(b, Transpose(b), Transpose(a)); }
      Mul(a, Mul(Mul(b, Transpose(b)), Transpose(a)));
      { MulIdentity(Transpose(a)); }
      Mul(a, Transpose(a));
      Identity;
    }
  }

  lemma OrthonormalTranspose(a: Mat3)
    requires Orthonormal(a)
    ensures Orthonormal(Transpose(a))
  {
    assert Transpose(Transpose(a)) == a;
  }

  /** An orthonormal matrix has determinant +1 or -1. */
  lemma OrthonormalDet(a: Mat3)
    requires Orthonormal(a)
    ensures Det(a) == 1.0 || Det(a) == -1.0
  {
    DetMul(Transpose(a), a);
    DetTranspose(a);
    assert Det(Identity) == 1.0;
    var d := Det(a);
    assert d * d == 1.0;
    SquareIsOne(d);
  }

  lemma SquareIsOne(d: real)
    requires d * d == 1.0
    ensures d == 1.0 || d == -1.0
  {
  }

  /** The sign correction of the closed-form rotation fit: diag(1, 1, d)
      with d the sign of det(U V^T), taking 0 as positive. */
  function SignCorrection(u: Mat3, v: Mat3): Mat3
  {
    DiagLast(Sign(Det(Mul(u, Transpose(v)))))
  }

  function Sign(p: real): real
  {
    if p >= 0.0 then 1.0 else -1.0
  }

  /** For det(U V^T) = p, the correction diag(1, 1, sign p) is orthonormal
      with determinant +1 or -1, is the identity when p is non-negative,
      and otherwise is a reflection whose determinant has the sign of p, so
      that the product of the two is never negative. */
  lemma CorrectionProperties(p: real)
    ensures Orthonormal(DiagLast(Sign(p)))
    ensures Det(DiagLast(Sign(p))) == Sign(p) && (Sign(p) == 1.0 || Sign(p) == -1.0)
    ensures p >= 0.0 ==> DiagLast(Sign(p)) == Identity
    ensures Sign(p) * p >= 0.0
  {
    if p >= 0.0 {
      DiagLastOrthonormal(1.0);
      DiagLastDet(1.0);
    } else {
      DiagLastOrthonormal(-1.0);
      DiagLastDet(-1.0);
      NegativeTimesNegative(p);
    }
  }

  lemma DiagLastDet(c: real)
    ensures Det(DiagLast(c)) == c
    ensures c == 1.0 ==> DiagLast(c) == Identity
  {
  }

  lemma NegativeTimesNegative(p: real)
    requires p < 0.0
    ensures -1.0 * p > 0.0
  {
  }

  /** dR = U * C * V^T. */
  function FittedRotation(u: Mat3, v: Mat3): Mat3
  {
    Mul(Mul(u, SignCorrection(u, v)), Transpose(v))
  }

  /** With U and V orthonormal, U C V^T is a proper rotation: the sign
      correction rules out a reflection. */
  lemma FittedRotationIsRotation(u: Mat3, v: Mat3)
    requires Orthonormal(u) && Orthonormal(v)
    ensures IsRotation(FittedRotation(u, v))
  {
    FittedRotationOrthonormal(u, v);
    OrthonormalProductDet(u, v);
    FittedRotationDet(u, v);
  }

  lemma FittedRotationOrthonormal(u: Mat3, v: Mat3)
    requires Orthonormal(u) && Orthonormal(v)
    ensures Orthonormal(FittedRotation(u, v))
  {
    var c := SignCorrection(u, v);
    DiagLastOrthonormal(Sign(Det(Mul(u, Transpose(v)))));
    OrthonormalTranspose(v);
    OrthonormalMul(u, c);
    OrthonormalMul(Mul(u, c), Transpose(v));
  }

  /** When det(U V^T) >= 0 no correction is needed: dR = U V^T. */
  lemma FittedRotationProper(u: Mat3, v: Mat3)
    requires Det(Mul(u, Transpose(v))) >= 0.0
    ensures SignCorrection(u, v) == Identity
    ensures FittedRotation(u, v) == Mul(u, Transpose(v))
  {
    MulIdentity(u);
  }

  lemma DiagLastOrthonormal(c: real)
    requires c * c == 1.0
    ensures Orthonormal(DiagLast(c))
  {
    DiagLastTranspose(c);
    DiagLastSquare(c);
  }

  lemma DiagLastTranspose(c: real)
    ensures Transpose(DiagLast(c)) == DiagLast(c)
  {
  }

  lemma DiagLastSquare(c: real)
    ensures Mul(DiagLast(c), DiagLast(c)) == DiagLast(c * c)
  {
  }

  /** det(U C V^T) = det(U) det(C) det(V^T) = +1: the correction flips
      the sign exactly when det(U V^T) = -1. */
  lemma FittedRotationDet(u: Mat3, v: Mat3)
    requires Det(Mul(u, Transpose(v))) == 1.0 || Det(Mul(u, Transpose(v))) == -1.0
    ensures Det(FittedRotation(u, v)) == 1.0
  {
    var c := SignCorrection(u, v);
    var vt := Transpose(v);
    DetMul(u, vt);
    DetMul(u, c);
    DetMul(Mul(u, c), vt);
    assert Det(c) == c.r2.z;
    SignedProduct(Det(u), c.r2.z, Det(vt));
  }

  lemma SignedProduct(du: real, dc: real, dv: real)
    requires du * dv == 1.0 || du * dv == -1.0
    requires dc == 1.0 <==> du * dv >= 0.0
    requires dc == -1.0 <==> du * dv < 0.0
    ensures du * dc * dv == 1.0
  {
    assert du * dc * dv == dc * (du * dv);
  }

  /** U V^T is orthonormal, so its determinant is +1 or -1. */
  lemma OrthonormalProductDet(u: Mat3, v: Mat3)
    requires Orthonormal(u) && Orthonormal(v)
    ensures Det(Mul(u, Transpose(v))) == 1.0 || Det(Mul(u, Transpose(v))) == -1.0
  {
    OrthonormalTranspose(v);
    OrthonormalMul(u, Transpose(v));
    OrthonormalDet(Mul(u, Transpose(v)));
  }

  lemma RotationMul(a: Mat3, b: Mat3)
    requires IsRotation(a) && IsRotation(b)
    ensures IsRotation(Mul(a, b))
  {
    OrthonormalMul(a, b);
    DetMul(a, b);
  }

  lemma TransposeIdentity()
    ensures Transpose(Identity) == Identity
  {
  }

  lemma DetIdentity()
    ensures Det(Identity) == 1.0
  {
  }

  lemma IdentityIsRotation()
    ensures IsRotation(Identity)
  {
    assert DiagLast(1.0) == Identity;
    DiagLastOrthonormal(1.0);
  }

  // ---------------------------------------------------------------------------
  // Point sets (the 3 x N matrices of the source, one column per point)

  /** x -> R x + t applied to every point. */
  function Transform(vs: seq<Vec3>, r: Mat3, t: Vec3): (ws: seq<Vec3>)
    ensures |ws| == |vs| && forall i :: 0 <= i < |vs| ==> ws[i] == Add(Apply(r, vs[i]), t)
  {
    seq(|vs|, i requires 0 <= i < |vs| => Add(Apply(r, vs[i]), t))
  }

  /** `v.each_col() += t`. */
  function Translate(vs: seq<Vec3>, t: Vec3): (ws: seq<Vec3>)
    ensures |ws| == |vs| && forall i :: 0 <= i < |vs| ==> ws[i] == Add(vs[i], t)
  {
    seq(|vs|, i requires 0 <= i < |vs| => Add(vs[i], t))
  }

  /** Applying (R, t) and then (dR, dt) is applying (dR R, dR t + dt). */
  lemma TransformCompose(vs: seq<Vec3>, r: Mat3, t: Vec3, dr: Mat3, dt: Vec3)
    ensures Transform(Transform(vs, r, t), dr, dt) == Transform(vs, Mul(dr, r), Add(Apply(dr, t), dt))
  {
    var lhs := Transform(Transform(vs, r, t), dr, dt);
    var rhs := Transform(vs, Mul(dr, r), Add(Apply(dr, t), dt));
    forall i | 0 <= i < |vs| ensures lhs[i] == rhs[i] {
      ApplyAdd(dr, Apply(r, vs[i]), t);
      ApplyMul(dr, r, vs[i]);
    }
  }

  lemma TranslateIsTransform(vs: seq<Vec3>, t: Vec3)
    ensures Translate(vs, t) == Transform(vs, Identity, t)
  {
    forall i | 0 <= i < |vs| ensures Translate(vs, t)[i] == Transform(vs, Identity, t)[i] {
      ApplyIdentity(vs[i]);
    }
  }

  function SumV(vs: seq<Vec3>): Vec3
  {
    if vs == [] then Zero else Add(SumV(vs[..|vs| - 1]), vs[|vs| - 1])
  }

  /** `arma::mean(v, 1)`: the centroid of the columns. */
  function Mean(vs: seq<Vec3>): Vec3
  {
    Centroid(SumV(vs), |vs| as real)
  }

  /** A sum of n points divided by n. */
  function Centroid(sum: Vec3, n: real): Vec3
  {
    Vec3(Quot(sum.x, n), Quot(sum.y, n), Quot(sum.z, n))
  }

  lemma {:induction false} SumTranslate(vs: seq<Vec3>, t: Vec3)
    ensures SumV(Translate(vs, t)) == Add(SumV(vs), Scale(|vs| as real, t))
  {
    if vs != [] {
      var n := |vs| - 1;
      var init := vs[..n];
      assert Translate(vs, t)[..n] == Translate(init, t);
      SumTranslate(init, t);
      ScaleSucc(n as real, t);
    }
  }

  lemma ScaleSucc(k: real, t: Vec3)
    ensures Add(Scale(k, t), t) == Scale(k + 1.0, t)
  {
  }

  lemma MeanTranslate(vs: seq<Vec3>, t: Vec3)
    requires |vs| > 0
    ensures Mean(Translate(vs, t)) == Add(Mean(vs), t)
  {
    SumTranslate(vs, t);
    CentroidShift(SumV(vs), |vs| as real, t);
  }

  /** Adding n t to a sum of n points moves their centroid by t. */
  lemma CentroidShift(sum: Vec3, n: real, t: Vec3)
    requires n > 0.0
    ensures Centroid(Add(sum, Scale(n, t)), n) == Add(Centroid(sum, n), t)
  {
    QuotShift(sum.x, n, t.x);
    QuotShift(sum.y, n, t.y);
    QuotShift(sum.z, n, t.z);
  }

  lemma QuotShift(s: real, n: real, t: real)
    requires n > 0.0
    ensures Quot(s + n * t, n) == Quot(s, n) + t
  {
  }

  /** Translating a view by the difference of two centroids moves its
      centroid onto the target centroid. */
  lemma SeededCentroid(v: seq<Vec3>, target: Vec3)
    requires |v| > 0
    ensures Mean(Translate(v, Sub(target, Mean(v)))) == target
  {
    MeanTranslate(v, Sub(target, Mean(v)));
  }

  /** `arma::max(v, 1)` of a non-empty point set: componentwise maximum. */
  function BoxMax(vs: seq<Vec3>): (m: Vec3)
    requires |vs| > 0
    ensures forall i :: 0 <= i < |vs| ==> vs[i].x <= m.x && vs[i].y <= m.y && vs[i].z <= m.z
    ensures exists i :: 0 <= i < |vs| && vs[i].x == m.x
    ensures exists i :: 0 <= i < |vs| && vs[i].y == m.y
    ensures exists i :: 0 <= i < |vs| && vs[i].z == m.z
  {
    if |vs| == 1 then vs[0] else VMax(BoxMax(vs[..|vs| - 1]), vs[|vs| - 1])
  }

  /** `arma::min(v, 1)` of a non-empty point set: componentwise minimum. */
  function BoxMin(vs: seq<Vec3>): (m: Vec3)
    requires |vs| > 0
    ensures forall i :: 0 <= i < |vs| ==> m.x <= vs[i].x && m.y <= vs[i].y && m.z <= vs[i].z
    ensures exists i :: 0 <= i < |vs| && vs[i].x == m.x
    ensures exists i :: 0 <= i < |vs| && vs[i].y == m.y
    ensures exists i :: 0 <= i < |vs| && vs[i].z == m.z
  {
    if |vs| == 1 then vs[0] else VMin(BoxMin(vs[..|vs| - 1]), vs[|vs| - 1])
  }

  function RMax(a: real, b: real): real { if a >= b then a else b }

  function RMin(a: real, b: real): real { if a <= b then a else b }

  function VMax(a: Vec3, b: Vec3): Vec3 { Vec3(RMax(a.x, b.x), RMax(a.y, b.y), RMax(a.z, b.z)) }

  function VMin(a: Vec3, b: Vec3): Vec3 { Vec3(RMin(a.x, b.x), RMin(a.y, b.y), RMin(a.z, b.z)) }
}
