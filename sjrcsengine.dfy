/** The state of the shared co-segmentation engine (`SJRCSBase`) and the
    members of it that change that state: the pass counter, the model-size
    estimate, the object layout of `initx` and the fusion step `step_d`.
    The computations they run are the functions of the Sjrcs and Fusion
    modules. */
module SjrcsEngine {
  import opened Numeric
  import opened Geometry
  import opened Matrices
  import opened Sjrcs
  import opened Fusion

  const NoViews := "need input v before evaluate_k"

  /** `arma::median(k_lst) / 2 + 5` on the point counts of the views. */
  function SizeEstimate(counts: seq<nat>): (k: nat)
    requires |counts| > 0
  {
    MedianCount(counts) / 2 + 5
  }

  /** The estimate is at least 5 and lies between half the smallest and half
      the largest view, plus 5. */
  lemma {:induction false} SizeEstimateBetween(counts: seq<nat>)
    requires |counts| > 0
    ensures SizeEstimate(counts) >= 5
    ensures exists i :: 0 <= i < |counts| && counts[i] / 2 + 5 <= SizeEstimate(counts)
    ensures exists j :: 0 <= j < |counts| && SizeEstimate(counts) <= counts[j] / 2 + 5
  {
    MedianCountBetween(counts);
    var m := MedianCount(counts);
    var i :| 0 <= i < |counts| && counts[i] <= m;
    var j :| 0 <= j < |counts| && m <= counts[j];
    assert counts[i] / 2 <= m / 2 && m / 2 <= counts[j] / 2;
  }

  class Engine {
    /** `max_iter_` and `iter_count_` */
    var maxIter: int
    var iterCount: int
    /** `vvs_ptrlst_`: the number of points of every view. */
    var views: seq<nat>
    /** The model points and normals, one per model column. */
    var xv: seq<Vec3>
    var xn: seq<Vec3>
    var objNum: nat
    var objProb: seq<real>
    var objPos: seq<Vec3>
    var objRange: seq<int>
    var maxObjRadius: real
    var initAlpha: bool
    /** `xtv_ptrlst_`: one transformed copy of the model per view. */
    var xtvs: seq<seq<Vec3>>
    /** `wvs_ptrlst_`, `wns_ptrlst_`, `rt_lst_`: the weighted points and
        normals of every view and every view's per-object poses. */
    var wvs: seq<seq<Vec3>>
    var wns: seq<seq<Vec3>>
    var poses: seq<seq<Pose>>
    /** `alpha_ptrlst_`: one responsibility matrix per view. */
    var alphas: seq<Matrix>
    /** `var_`: one row per view, one column per model column. */
    var variances: Matrix
    var beta: real
    /** `x_invvar_` and `x_p_` */
    var xInvVar: seq<real>
    var xP: seq<real>

    /** The constructor sets the pass bound to 3; the rest of the state
        starts empty (the base class constructor is not part of this
        model). */
    constructor ()
      ensures maxIter == 3 && iterCount == 0
    {
      maxIter, iterCount := 3, 0;
      views, xv, xn, objNum, objProb, objPos, objRange := [], [], [], 0, [], [], [];
      maxObjRadius, initAlpha, xtvs := 0.0, false, [];
      wvs, wns, poses, alphas, variances := [], [], [], [], [];
      beta, xInvVar, xP := 0.0, [], [];
    }

    /** `isEnd`: the passes are over once the counter exceeds the bound. */
    predicate IsEnd()
      reads this
    {
      iterCount > maxIter
    }

    /** `prepare_compute`: the counter restarts and every view gets a zeroed
        copy of the model. */
    method PrepareCompute()
      modifies this`iterCount, this`xtvs
      ensures iterCount == 0 && (maxIter >= 0 ==> !IsEnd())
      ensures |xtvs| == |views|
      ensures forall i :: 0 <= i < |views| ==> xtvs[i] == ZeroPoints(|xv|)
    {
      iterCount := 0;
      var ts := Resize(xtvs, |views|, []);
      var i := 0;
      while i < |views|
        invariant i <= |views| && |ts| == |views|
        invariant forall j :: 0 <= j < i ==> ts[j] == ZeroPoints(|xv|)
      {
        ts := ts[i := ZeroPoints(|xv|)];
        i := i + 1;
      }
      xtvs := ts;
    }

    /** `finish_steps`: one more pass; the engine ends right after the pass
        that takes the counter past the bound. */
    method FinishSteps()
      modifies this`iterCount
      ensures iterCount == old(iterCount) + 1
      ensures IsEnd() <==> old(iterCount) >= maxIter
    {
      iterCount := iterCount + 1;
    }

    /** `evaluate_k`: half the median number of points of the views, plus
        5; without views it fails. */
    method EvaluateK() returns (r: Result<nat>)
      ensures views == [] <==> r.Failure?
      ensures views == [] ==> r == Failure(NoViews)
      ensures views != [] ==> r == Success(SizeEstimate(views)) && r.value >= 5
    {
      if views == [] {
        return Failure(NoViews);
      }
      var counts: seq<nat> := [];
      var idx := 0;
      while idx < |views|
        invariant idx <= |views| && counts == views[..idx]
      {
        counts := counts + [views[idx]];
        idx := idx + 1;
      }
      assert counts == views;
      SizeEstimateBetween(counts);
      r := Success(SizeEstimate(counts));
    }

    /** `initx`: one object per probability, centred on the z axis; the
        column ranges are laid out from column 0 and every object's points
        and normals are redrawn around its position. The last object keeps
        its own share here (unlike the box variant), so columns may be left
        over. */
    method InitX(reset: Redrawer)
      requires |xn| == |xv| && |objProb| > 0
      modifies this`objPos, this`maxObjRadius, this`initAlpha, this`objRange, this`xv, this`xn
      ensures maxObjRadius == 0.5 && !initAlpha
      ensures objPos == ObjectPositions(|old(objProb)|)
      ensures objRange == Ranges(Sizes(|old(xv)|, |old(xv)|, old(objProb), false))
      ensures xv == Redrawn(old(xv), old(objProb), false, objPos, reset, true)
      ensures xn == Redrawn(old(xn), old(objProb), false, objPos, reset, false)
    {
      var positions := ObjectPositions(|objProb|);
      var sizes, ranges, xs, ns := LayOut(|xv|, objProb, false, positions, xv, xn, reset);
      maxObjRadius, initAlpha, objPos, objRange, xv, xn := 0.5, false, positions, ranges, xs, ns;
    }

    /** The scene `step_d` reads. */
    function Scene(inv: Mat3 -> Mat3): Scene
      reads this
    {
      Fusion.Scene(wvs, wns, poses, objRange, objNum, |xv|, inv)
    }

    /** `step_d`: the model is rebuilt as the running mean of the views
        carried back by their poses, every object is moved so its mean sits
        on its position, the normals are normalised, and the precisions and
        weights of the model columns are recomputed from the summed
        responsibilities. `R.i()` and `arma::normalise` are taken as
        given. */
    method StepD(inv: Mat3 -> Mat3, normalise: seq<Vec3> -> seq<Vec3>)
      requires Consistent(Scene(inv)) && objNum <= |objPos|
      requires |alphas| > 0 && AllWide(alphas, |xv|) && Wide(variances, |xv|)
      modifies this`xv, this`xn, this`xInvVar, this`xP
      ensures var f := BlendViews(old(Scene(inv)), |old(wvs)|);
              xv == CentreObjects(f.xv, old(objRange), old(objPos), old(objNum)) && xn == normalise(f.xn)
      ensures var s := WeightTotals(old(alphas), |old(xv)|);
              xInvVar == InvVariances(s, ColSums(old(variances), |old(xv)|), old(beta))
              && xP == ModelWeights(s, old(beta))
    {
      var sc := Scene(inv);
      var k := |xv|;
      var f := BlendAll(sc);
      var centred := CentreAll(f.xv, objRange, objPos, objNum);
      var alphaSum := AlphaSum(alphas, k);
      xv, xn, xInvVar, xP := centred, normalise(f.xn), InvVariances(alphaSum, ColSums(variances, k), beta), ModelWeights(alphaSum, beta);
    }
  }
}
