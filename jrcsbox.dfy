/** The box-guided variant of the co-segmentation engine (`JRCSBox`): the
    number of objects comes from the largest list of bounding boxes, the
    object probabilities from how well each box covers its view, the last
    object takes every remaining model column, and every point is labelled
    with the object that holds most of its responsibility. */
module JrcsBox {
  import opened Numeric
  import opened Geometry
  import opened Matrices
  import opened Sjrcs

  // ---------------------------------------------------------------------------
  // Number of objects

  /** `reset_objw`: the size of the largest cube list, 0 without lists. */
  function LargestList(sizes: seq<nat>): (n: nat)
    ensures forall i :: 0 <= i < |sizes| ==> sizes[i] <= n
    ensures sizes == [] ==> n == 0
    ensures sizes != [] ==> n in sizes
  {
    if sizes == [] then 0 else NatMax(sizes)
  }

  lemma {:induction false} LargestListStep(sizes: seq<nat>, i: nat)
    requires i < |sizes|
    ensures LargestList(sizes[..i + 1]) == if LargestList(sizes[..i]) < sizes[i] then sizes[i] else LargestList(sizes[..i])
  {
    assert sizes[..i + 1][..i] == sizes[..i];
    if i > 0 {
      assert sizes[..i + 1][|sizes[..i + 1]| - 1] == sizes[i];
    }
  }

  // ---------------------------------------------------------------------------
  // Object probabilities from boxes

  /** `Cube::get_dist2_box` summed through `trunc_exp`: the coverage score of
      cube j of list i against view i. It is a geometric computation that is
      not part of this model, so it is taken as given. */
  type Affinity = (nat, nat) -> real

  /** The scores of the n cubes of list i. */
  function CubeScores(affinity: Affinity, i: nat, n: nat): (s: seq<real>)
    ensures |s| == n
  {
    seq(n, j requires 0 <= j < n => affinity(i, j))
  }

  /** `prob / arma::accu(prob)`; a zero total is taken to give zeros (the
      source divides by zero in floating point). */
  function Normalised(s: seq<real>): (p: seq<real>)
    ensures |p| == |s|
    ensures Sum(s) != 0.0 ==> Sum(p) == 1.0
  {
    QuotientSum(s, Sum(s));
    assert Sum(s) != 0.0 ==> (1.0 / Sum(s)) * Sum(s) == 1.0;
    Divided(s, Sum(s))
  }

  /** Non-negative scores with a positive total become shares in [0, 1]
      that keep the order of the scores. */
  lemma {:induction false} NormalisedShares(s: seq<real>, j: nat, l: nat)
    requires forall i :: 0 <= i < |s| ==> s[i] >= 0.0
    requires Sum(s) > 0.0 && j < |s| && l < |s|
    ensures 0.0 <= Normalised(s)[j] <= 1.0
    ensures s[j] <= s[l] ==> Normalised(s)[j] <= Normalised(s)[l]
  {
    ElementAtMostSum(s, j);
    QuotUnit(s[j], Sum(s));
    QuotAsProduct(s[j], Sum(s));
    QuotAsProduct(s[l], Sum(s));
    var c := 1.0 / Sum(s);
    if s[j] <= s[l] {
      assert c >= 0.0;
      ProductNonNegative(c, s[l] - s[j], c * (s[l] - s[j]));
      assert c * (s[l] - s[j]) == c * s[l] - c * s[j];
    }
  }

  /** How far the lockstep walk of `init_from_boxes` gets: it stops at the
      end of the cube lists, or when the view iterator or the colour
      iterator runs out (the other two lockstep lists have one entry per
      view). */
  function Reach(lists: nat, views: nat, colours: nat): (r: nat)
    ensures r <= lists && r <= views && r <= colours
    ensures r == lists || r == views || r == colours
  {
    if lists <= views && lists <= colours then lists
    else if views <= colours then views
    else colours
  }

  /** The first of the first r lists with n cubes; r when there is none. */
  function FirstMatch(sizes: seq<nat>, n: nat, r: nat): (i: nat)
    requires r <= |sizes|
    ensures i <= r && (i < r ==> sizes[i] == n)
    ensures forall j :: 0 <= j < i ==> sizes[j] != n
  {
    if r == 0 then 0
    else
      var f := FirstMatch(sizes, n, r - 1);
      if f < r - 1 then f else if sizes[r - 1] == n then r - 1 else r
  }

  /** `obj_prob_` after `init_from_boxes` has seen the first r lists: the
      normalised scores of the first list with n cubes, or empty. */
  function BoxProbs(sizes: seq<nat>, n: nat, r: nat, affinity: Affinity): (p: seq<real>)
    requires r <= |sizes|
    ensures |p| == 0 || |p| == n
  {
    var i := FirstMatch(sizes, n, r);
    if i < r then Normalised(CubeScores(affinity, i, n)) else []
  }

  /** An object of the box list found first gets a share in proportion to
      its score, and the shares sum to 1 when some cube covers its view. */
  lemma {:induction false} BoxProbsShares(sizes: seq<nat>, n: nat, r: nat, affinity: Affinity)
    requires r <= |sizes|
    requires FirstMatch(sizes, n, r) < r
    ensures var i := FirstMatch(sizes, n, r);
            var s := CubeScores(affinity, i, n);
            BoxProbs(sizes, n, r, affinity) == Divided(s, Sum(s))
            && (Sum(s) != 0.0 ==> Sum(BoxProbs(sizes, n, r, affinity)) == 1.0)
  {
  }

  // ---------------------------------------------------------------------------
  // Labels

  /** The responsibilities of one point for the columns labelled o + 1. */
  function ObjectMass(row: seq<real>, objLabel: seq<nat>, o: nat): real
  {
    Sum(seq(|row|, c requires 0 <= c < |row| => if c < |objLabel| && objLabel[c] == o + 1 then row[c] else 0.0))
  }

  /** The first index of a largest element (`arma::max` with an index). */
  function ArgMax(s: seq<real>): (i: nat)
    requires |s| > 0
    ensures i < |s|
    ensures forall j :: 0 <= j < |s| ==> s[j] <= s[i]
    ensures forall j :: 0 <= j < i ==> s[j] < s[i]
  {
    if |s| == 1 then 0
    else
      var m := ArgMax(s[..|s| - 1]);
      if s[|s| - 1] > s[m] then |s| - 1 else m
  }

  /** The object masses of one point. */
  function Masses(row: seq<real>, objLabel: seq<nat>, n: nat): (p: seq<real>)
    ensures |p| == n
  {
    seq(n, o requires 0 <= o < n => ObjectMass(row, objLabel, o))
  }

  /** The label of every point of a view: one more than the object holding
      most of its responsibility. */
  function Labels(alpha: Matrix, objLabel: seq<nat>, n: nat): (l: seq<nat>)
    requires n > 0
    ensures |l| == |alpha|
  {
    seq(|alpha|, r requires 0 <= r < |alpha| => ArgMax(Masses(alpha[r], objLabel, n)) + 1)
  }

  /** Every label names an object, its object has the largest mass, and
      every object before it has a smaller one. */
  lemma {:induction false} LabelsAreArgMax(alpha: Matrix, objLabel: seq<nat>, n: nat, r: nat)
    requires n > 0 && r < |alpha|
    ensures var l := Labels(alpha, objLabel, n)[r];
            1 <= l <= n
            && (forall o :: 0 <= o < n ==> ObjectMass(alpha[r], objLabel, o) <= ObjectMass(alpha[r], objLabel, l - 1))
            && (forall o :: 0 <= o < l - 1 ==> ObjectMass(alpha[r], objLabel, o) < ObjectMass(alpha[r], objLabel, l - 1))
  {
    var m := Masses(alpha[r], objLabel, n);
    var i := ArgMax(m);
    forall o | 0 <= o < n
      ensures ObjectMass(alpha[r], objLabel, o) <= ObjectMass(alpha[r], objLabel, i)
      ensures o < i ==> ObjectMass(alpha[r], objLabel, o) < ObjectMass(alpha[r], objLabel, i)
    {
      assert m[o] == ObjectMass(alpha[r], objLabel, o);
      assert m[i] == ObjectMass(alpha[r], objLabel, i);
    }
  }

  // ---------------------------------------------------------------------------
  // The engine state

  /** One object's view into the model buffers, given by its first column and its
      number of columns. */
  datatype ObjectView = ObjectView(first: int, size: int)

  /** The block of every object, one after the other from column 0. */
  function ObjectViews(sizes: seq<int>): (b: seq<ObjectView>)
    ensures |b| == |sizes|
  {
    seq(|sizes|, o requires 0 <= o < |sizes| => ObjectView(Total(sizes[..o]), sizes[o]))
  }

  class Box {
    /** `cube_ptrlsts_`: the number of cubes in every list of boxes. */
    var cubeLists: seq<nat>
    /** `obj_num_` */
    var objNum: nat
    /** `vvs_ptrlst_`: the number of points of every view. */
    var views: seq<nat>
    /** The number of colour matrices, `vcs_ptrlst_`. */
    var colourViews: nat
    /** The model points and normals, one per model column. */
    var xv: seq<Vec3>
    var xn: seq<Vec3>
    var objProb: seq<real>
    var objPos: seq<Vec3>
    var maxObjRadius: real
    /** `obj_range_`: first and last column of every object. */
    var objRange: seq<int>
    /** `objv_ptrlst_`, `objn_ptrlst_`, `objc_ptrlst_` */
    var objV: seq<ObjectView>
    var objN: seq<ObjectView>
    var objC: seq<ObjectView>
    /** `alpha_ptrlst_`: one responsibility matrix per view, points x model
        columns. */
    var alphas: seq<Matrix>
    /** `obj_label_`: the object (from 1) every model column belongs to. */
    var objLabel: seq<nat>
    /** The point labels of every view that `update_color_label` colours by. */
    var pointLabels: seq<seq<nat>>

    /** `reset_objw`: a running maximum over the cube lists. */
    method ResetObjW()
      modifies this`objNum
      ensures objNum == LargestList(cubeLists)
    {
      var n := 0;
      var i := 0;
      while i < |cubeLists|
        invariant i <= |cubeLists| && n == LargestList(cubeLists[..i])
      {
        LargestListStep(cubeLists, i);
        if n < cubeLists[i] {
          n := cubeLists[i];
        }
        i := i + 1;
      }
      assert cubeLists[..i] == cubeLists;
      objNum := n;
    }

    /** `obj_prob_from_boxes`: the score of every cube of list i, divided by
        their total. */
    static method ObjProbFromBoxes(i: nat, n: nat, affinity: Affinity) returns (p: seq<real>)
      ensures p == Normalised(CubeScores(affinity, i, n))
    {
      var prob := [];
      var idx := 0;
      while idx < n
        invariant idx <= n && prob == CubeScores(affinity, i, idx)
      {
        prob := prob + [affinity(i, idx)];
        idx := idx + 1;
      }
      p := Normalised(prob);
    }

    /** `init_from_boxes`: walks the cube lists in lockstep with the views
        and takes the probabilities of the first list with `obj_num_`
        cubes. */
    method InitFromBoxes(affinity: Affinity)
      requires cubeLists == [] || (views != [] && colourViews > 0)
      modifies this`objProb
      ensures objProb == BoxProbs(cubeLists, objNum, Reach(|cubeLists|, |views|, colourViews), affinity)
    {
      var p := [];
      var i := 0;
      while i < |cubeLists|
        invariant i <= Reach(|cubeLists|, |views|, colourViews)
        invariant i < |cubeLists| ==> i < |views| && i < colourViews
        invariant p == BoxProbs(cubeLists, objNum, i, affinity)
      {
        if cubeLists[i] == objNum && p == [] {
          p := ObjProbFromBoxes(i, objNum, affinity);
        }
        i := i + 1;
        if i == |views| || i == colourViews {
          break;
        }
      }
      objProb := p;
    }

    /** `initx`: chooses the object probabilities from the boxes, puts the
        objects on the z axis, lays their column ranges out with the last
        object taking every remaining column, redraws every object's points
        and normals around its position, and records one block per object
        in each of the three view lists. */
    method InitX(affinity: Affinity, reset: Redrawer)
      requires |xn| == |xv| && objNum > 0
      requires cubeLists == [] || (views != [] && colourViews > 0)
      modifies this`objProb, this`objPos, this`maxObjRadius, this`objRange, this`objV, this`objN, this`objC, this`xv, this`xn
      ensures objProb == BoxProbs(old(cubeLists), old(objNum), Reach(|old(cubeLists)|, |old(views)|, old(colourViews)), affinity)
      ensures objPos == ObjectPositions(old(objNum)) && maxObjRadius == 0.0
      ensures objProb == [] ==> objRange == Resize(old(objRange), 2 * old(objNum), 0)[0 := 0]
      ensures objProb != [] ==> objRange == Ranges(Sizes(|old(xv)|, |old(xv)|, objProb, true))
      ensures var added := ObjectViews(Sizes(|old(xv)|, |old(xv)|, objProb, true));
              objV == old(objV) + added && objN == old(objN) + added && objC == old(objC) + added
      ensures xv == Redrawn(old(xv), objProb, true, objPos, reset, true)
      ensures xn == Redrawn(old(xn), objProb, true, objPos, reset, false)
    {
      InitFromBoxes(affinity);
      assert cubeLists == old(cubeLists) && objNum == old(objNum) && views == old(views) && colourViews == old(colourViews);
      var positions := ObjectPositions(objNum);
      var ranges, added, xs, ns := PlaceObjects(objProb, objNum, objRange, positions, xv, xn, reset);
      objPos, maxObjRadius, objRange := positions, 0.0, ranges;
      objV, objN, objC, xv, xn := objV + added, objN + added, objC + added, xs, ns;
    }

    /** The object loop of `initx` on the model of k columns: the ranges
        (left as resized, with a first entry of 0, when there is no object),
        the block of every object, and the redrawn points and normals. */
    static method PlaceObjects(probs: seq<real>, n: nat, range: seq<int>, positions: seq<Vec3>,
                               xs: seq<Vec3>, ns: seq<Vec3>, reset: Redrawer)
      returns (ranges: seq<int>, added: seq<ObjectView>, xs': seq<Vec3>, ns': seq<Vec3>)
      requires |ns| == |xs| && n > 0 && |probs| <= |positions|
      ensures probs == [] ==> ranges == Resize(range, 2 * n, 0)[0 := 0]
      ensures probs != [] ==> ranges == Ranges(Sizes(|xs|, |xs|, probs, true))
      ensures added == ObjectViews(Sizes(|xs|, |xs|, probs, true))
      ensures xs' == Redrawn(xs, probs, true, positions, reset, true)
      ensures ns' == Redrawn(ns, probs, true, positions, reset, false)
    {
      var sizes;
      sizes, ranges, xs', ns' := LayOut(|xs|, probs, true, positions, xs, ns, reset);
      if probs == [] {
        ranges := Resize(range, 2 * n, 0)[0 := 0];
      }
      added := ObjectViews(sizes);
    }

    /** `reset_alpha`: one responsibility matrix per view, points x model
        columns; matrices of the right shape are kept, missing ones are
        added and mismatched ones replaced (new buffers are zero), and none
        is dropped. */
    method ResetAlpha()
      modifies this`alphas
      ensures |alphas| == if |old(alphas)| < |views| then |views| else |old(alphas)|
      ensures forall i :: 0 <= i < |views| ==> Shaped(alphas[i], views[i], |xv|)
      ensures forall i :: 0 <= i < |views| && i < |old(alphas)| && Shaped(old(alphas)[i], views[i], |xv|) ==>
                alphas[i] == old(alphas)[i]
      ensures forall i :: |views| <= i < |alphas| ==> alphas[i] == old(alphas)[i]
    {
      var a := alphas;
      var idx := 0;
      while idx < |views|
        invariant idx <= |views|
        invariant |a| == if |alphas| < idx then idx else |alphas|
        invariant forall i :: 0 <= i < idx ==> Shaped(a[i], views[i], |xv|)
        invariant forall i :: 0 <= i < idx && i < |alphas| && Shaped(alphas[i], views[i], |xv|) ==> a[i] == alphas[i]
        invariant forall i :: idx <= i < |a| ==> a[i] == alphas[i]
      {
        if idx >= |a| {
          a := a + [ZeroMatrix(views[idx], |xv|)];
        } else if !Shaped(a[idx], views[idx], |xv|) {
          a := a[idx := ZeroMatrix(views[idx], |xv|)];
        }
        idx := idx + 1;
      }
      alphas := a;
    }

    /** `update_color_label`: for every view, the responsibility mass of
        every object at every point, then the label of every point. */
    method UpdateColorLabel()
      requires objNum > 0 && |alphas| >= |views|
      requires forall i :: 0 <= i < |views| ==> Wide(alphas[i], |objLabel|)
      modifies this`pointLabels
      ensures |pointLabels| == |views|
      ensures forall i :: 0 <= i < |views| ==> pointLabels[i] == Labels(alphas[i], objLabel, objNum)
    {
      var all := [];
      var idx := 0;
      while idx < |views|
        invariant idx <= |views| && |all| == idx
        invariant forall i :: 0 <= i < idx ==> all[i] == Labels(alphas[i], objLabel, objNum)
      {
        var alpha := alphas[idx];
        var n := objNum;
        var masses := ObjectColumns(alpha, objLabel, n);
        var l := [];
        var r := 0;
        while r < |alpha|
          invariant r <= |alpha| && |l| == r
          invariant forall q :: 0 <= q < r ==> l[q] == Labels(alpha, objLabel, objNum)[q]
        {
          var point := seq(n, o requires 0 <= o < n => masses[o][r]);
          assert point == Masses(alpha[r], objLabel, objNum);
          l := l + [ArgMax(point) + 1];
          r := r + 1;
        }
        all := all + [l];
        idx := idx + 1;
      }
      pointLabels := all;
    }

    /** The object loop of `update_color_label`: column o holds, for every
        point, its mass on the model columns labelled o + 1. */
    static method ObjectColumns(alpha: Matrix, objLabel: seq<nat>, n: nat) returns (cols: seq<seq<real>>)
      ensures |cols| == n
      ensures forall o :: 0 <= o < n ==> |cols[o]| == |alpha|
      ensures forall o, r :: 0 <= o < n && 0 <= r < |alpha| ==> cols[o][r] == ObjectMass(alpha[r], objLabel, o)
    {
      cols := [];
      var o := 0;
      while o < n
        invariant o <= n && |cols| == o
        invariant forall q :: 0 <= q < o ==> |cols[q]| == |alpha|
        invariant forall q, r :: 0 <= q < o && 0 <= r < |alpha| ==> cols[q][r] == ObjectMass(alpha[r], objLabel, q)
      {
        cols := cols + [seq(|alpha|, r requires 0 <= r < |alpha| => ObjectMass(alpha[r], objLabel, o))];
        o := o + 1;
      }
    }
  }

  // ---------------------------------------------------------------------------
  // The box partition

  /** With at least one object, the sizes hand out exactly the k columns
      and the last object's range ends at column k - 1. */
  lemma {:induction false} BoxPartitionExact(k: nat, probs: seq<real>)
    requires 0 < k < WordModulus && |probs| > 0
    ensures Total(Sizes(k, k, probs, true)) == k
    ensures Ranges(Sizes(k, k, probs, true))[2 * |probs| - 1] == k - 1
  {
    SizesWithin(k, k, probs, true);
    LastRangeEnds(k, probs);
  }
}
