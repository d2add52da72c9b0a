/** `JRCSInitBase`: the initialiser of the co-segmentation. It keeps the
    labelled input frames, cuts every frame into patches (the points of one
    label), records a feature vector and a size per patch, chooses the
    clustering centres and allocates zero responsibility buffers. The
    feature extractor, the mesh extraction and the Gaussian-mixture fit are
    collaborators given as parameters. */
module JrcsInit {
  import opened Numeric
  import opened Matrices

  /** The feature vector and the vertex count of the patch of label v in
      frame l (`extractMesh` followed by `extract_patch_feature`). */
  type Extractor = (nat, nat) -> (seq<real>, nat)

  /** The Gaussian-mixture fit started from the given centres on the given
      feature columns with the given number of Gaussians to keep; it returns
      the fitted means. */
  type MixtureFit = (seq<seq<real>>, seq<seq<real>>, nat) -> seq<seq<real>>

  /** The three patch records: `input_patch_label_value_` (the label of every
      patch), `patch_features_` (one feature column per patch) and
      `patch_sizes_` (the vertex count of every patch), each a list of
      per-group lists. */
  datatype Patches = Patches(values: seq<seq<nat>>, features: seq<seq<seq<real>>>, sizes: seq<seq<nat>>)

  /** The shape the records keep: one feature list per label list, and at
      least as many size lists (the size lists are never cleared). */
  predicate Aligned(p: Patches)
  {
    |p.features| == |p.values| <= |p.sizes|
  }

  /** The last list with x inserted at its front (`insert_cols(0, ..)`). */
  function PrependLast<T>(s: seq<seq<T>>, x: T): (r: seq<seq<T>>)
    requires |s| > 0
    ensures |r| == |s| && r[..|s| - 1] == s[..|s| - 1] && r[|s| - 1] == [x] + s[|s| - 1]
  {
    s[..|s| - 1] + [[x] + s[|s| - 1]]
  }

  /** Recording the patch of label v in frame l: a new group when there are
      at most l groups, otherwise at the front of the last group. */
  function AddPatch(p: Patches, l: nat, v: nat, f: seq<real>, n: nat): (q: Patches)
    requires Aligned(p)
    ensures Aligned(q)
  {
    if |p.values| <= l then Patches(p.values + [[v]], p.features + [[f]], p.sizes + [[n]])
    else Patches(PrependLast(p.values, v), PrependLast(p.features, f), PrependLast(p.sizes, n))
  }

  /** Labels v .. max of frame l, in increasing order; only labels that some
      point carries make a patch. */
  function ScanLabels(p: Patches, l: nat, labels: seq<nat>, v: nat, max: nat, extract: Extractor): (q: Patches)
    requires Aligned(p)
    ensures Aligned(q)
    decreases if v <= max then max + 1 - v else 0
  {
    if v > max then p
    else
      var next := if v in labels then AddPatch(p, l, v, extract(l, v).0, extract(l, v).1) else p;
      ScanLabels(next, l, labels, v + 1, max, extract)
  }

  /** Frames l .. n-1, each from label 1 up to its largest label. */
  function ScanFrames(p: Patches, frameLabels: seq<seq<nat>>, l: nat, n: nat, extract: Extractor): (q: Patches)
    requires Aligned(p) && l <= n <= |frameLabels|
    requires forall i :: 0 <= i < n ==> |frameLabels[i]| > 0
    ensures Aligned(q)
    decreases n - l
  {
    if l == n then p
    else ScanFrames(ScanLabels(p, l, frameLabels[l], 1, NatMax(frameLabels[l]), extract), frameLabels, l + 1, n, extract)
  }

  ghost predicate Decreasing(s: seq<nat>)
  {
    forall i, j :: 0 <= i < j < |s| ==> s[i] > s[j]
  }

  /** What holds while frame l is scanned at label v, the size lists s0
      having been there before: the groups are non-empty and strictly
      decreasing, their features and (after s0) their sizes line up with
      them, there are at most l + 1 groups, and a group l holds only labels
      below v. */
  ghost predicate Grouped(p: Patches, s0: seq<seq<nat>>, l: nat, v: nat)
  {
    |p.features| == |p.values| && |p.sizes| == |s0| + |p.values| && p.sizes[..|s0|] == s0 &&
    |p.values| <= l + 1 &&
    (forall i :: 0 <= i < |p.values| ==>
       |p.values[i]| > 0 && Decreasing(p.values[i]) &&
       |p.features[i]| == |p.values[i]| && |p.sizes[|s0| + i]| == |p.values[i]|) &&
    (|p.values| == l + 1 ==> forall x :: x in p.values[l] ==> x < v)
  }

  lemma AddPatchGrouped(p: Patches, s0: seq<seq<nat>>, l: nat, v: nat, f: seq<real>, n: nat)
    requires Grouped(p, s0, l, v)
    ensures Aligned(p) && Grouped(AddPatch(p, l, v, f, n), s0, l, v + 1)
  {
    var q := AddPatch(p, l, v, f, n);
    if |p.values| <= l {
      assert q.sizes[..|s0|] == p.sizes[..|s0|];
    } else {
      var last := p.values[l];
      assert q.values[l] == [v] + last;
      assert q.sizes[..|s0|] == p.sizes[..|s0|];
      forall i | 0 <= i < |q.values|
        ensures |q.values[i]| > 0 && Decreasing(q.values[i])
        ensures |q.features[i]| == |q.values[i]| && |q.sizes[|s0| + i]| == |q.values[i]|
      {
        if i == l {
          forall a, b | 0 <= a < b < |q.values[i]|
            ensures q.values[i][a] > q.values[i][b]
          {
            if a == 0 {
              assert q.values[i][b] == last[b - 1] && last[b - 1] in last;
            } else {
              assert q.values[i][a] == last[a - 1] && q.values[i][b] == last[b - 1];
            }
          }
        } else {
          assert q.values[i] == p.values[i] && q.features[i] == p.features[i];
          assert q.sizes[|s0| + i] == p.sizes[|s0| + i];
        }
      }
    }
  }

  lemma {:induction false} ScanLabelsGrouped(p: Patches, s0: seq<seq<nat>>, l: nat, labels: seq<nat>, v: nat, max: nat, extract: Extractor)
    requires Grouped(p, s0, l, v)
    ensures Aligned(p) && Grouped(ScanLabels(p, l, labels, v, max, extract), s0, l, if v <= max then max + 1 else v)
    decreases if v <= max then max + 1 - v else 0
  {
    if v <= max {
      var next := if v in labels then AddPatch(p, l, v, extract(l, v).0, extract(l, v).1) else p;
      if v in labels {
        AddPatchGrouped(p, s0, l, v, extract(l, v).0, extract(l, v).1);
      }
      ScanLabelsGrouped(next, s0, l, labels, v + 1, max, extract);
    }
  }

  lemma {:induction false} ScanFramesGrouped(p: Patches, s0: seq<seq<nat>>, frameLabels: seq<seq<nat>>, l: nat, n: nat, extract: Extractor)
    requires Grouped(p, s0, l, 0) && |p.values| <= l && l <= n <= |frameLabels|
    requires forall i :: 0 <= i < n ==> |frameLabels[i]| > 0
    ensures Aligned(p)
    ensures var q := ScanFrames(p, frameLabels, l, n, extract); Grouped(q, s0, n, 0) && |q.values| <= n
    decreases n - l
  {
    if l < n {
      var max := NatMax(frameLabels[l]);
      ScanLabelsGrouped(p, s0, l, frameLabels[l], 1, max, extract);
      ScanFramesGrouped(ScanLabels(p, l, frameLabels[l], 1, max, extract), s0, frameLabels, l + 1, n, extract);
    }
  }

  /** The patches of frames 0 .. n-1 recorded from empty label and feature
      lists and the size lists s0: at most one group per frame, each group
      non-empty with its labels in strictly decreasing order and one feature
      column per label, and the size lists s0 kept with one size list per
      group appended. */
  lemma ExtractedGroups(s0: seq<seq<nat>>, frameLabels: seq<seq<nat>>, n: nat, extract: Extractor)
    requires n <= |frameLabels| && forall i :: 0 <= i < n ==> |frameLabels[i]| > 0
    ensures var q := ScanFrames(Patches([], [], s0), frameLabels, 0, n, extract);
            |q.values| <= n && |q.features| == |q.values| &&
            |q.sizes| == |s0| + |q.values| && q.sizes[..|s0|] == s0 &&
            forall i :: 0 <= i < |q.values| ==>
              |q.values[i]| > 0 && Decreasing(q.values[i]) &&
              |q.features[i]| == |q.values[i]| && |q.sizes[|s0| + i]| == |q.values[i]|
  {
    assert Grouped(Patches([], [], s0), s0, 0, 0);
    ScanFramesGrouped(Patches([], [], s0), s0, frameLabels, 0, n, extract);
  }

  /** A frame that follows a frame without patches does not get one group:
      with frame 0 carrying only label 0 and frame 1 labels 1, 2 and 3, the
      first patch of frame 1 forms group 0 on its own and the other two
      form group 1. */
  lemma EmptyFrameSplitsNext(extract: Extractor)
    ensures ScanFrames(Patches([], [], []), [[0], [1, 2, 3]], 0, 2, extract).values == [[1], [3, 2]]
  {
    var frames: seq<seq<nat>> := [[0], [1, 2, 3]];
    var p0 := Patches([], [], []);
    assert NatMax(frames[0]) == 0;
    var p1 := ScanLabels(p0, 0, frames[0], 1, 0, extract);
    assert p1 == p0;
    assert NatMax(frames[1]) == 3;
    var a := AddPatch(p1, 1, 1, extract(1, 1).0, extract(1, 1).1);
    assert a.values == [[1]];
    var b := AddPatch(a, 1, 2, extract(1, 2).0, extract(1, 2).1);
    assert b.values == [[1], [2]];
    var c := AddPatch(b, 1, 3, extract(1, 3).0, extract(1, 3).1);
    assert c.values[..1] == [[1]] && c.values[1] == [3, 2];
    assert c.values == [[1], [3, 2]];
    assert ScanLabels(c, 1, frames[1], 4, 3, extract) == c;
    assert ScanLabels(b, 1, frames[1], 3, 3, extract) == c;
    assert ScanLabels(a, 1, frames[1], 2, 3, extract) == c;
    assert ScanLabels(p1, 1, frames[1], 1, 3, extract) == c;
  }

  // ---------------------------------------------------------------------------
  // Centres

  /** The row count of a matrix given by its columns (0 without columns). */
  function Rows(m: seq<seq<real>>): nat
  {
    if m == [] then 0 else |m[0]|
  }

  /** `check_centers`: the centres are usable when they have the configured
      feature dimension as row count and at least two columns. */
  predicate CheckCenters(centers: seq<seq<real>>, featureDim: int)
  {
    Rows(centers) == featureDim && |centers| >= 2
  }

  /** The index of the first group with the most patches among groups
      0 .. n-1, as a running maximum from 0 that moves only on a strictly
      larger count. */
  function LargestGroup(features: seq<seq<seq<real>>>, n: nat): (i: nat)
    requires n <= |features|
    ensures (n == 0 ==> i == 0) && (n > 0 ==> i < n)
  {
    if n == 0 then 0
    else
      var i := LargestGroup(features, n - 1);
      if |features[n - 1]| > (if n - 1 == 0 then 0 else |features[i]|) then n - 1 else i
  }

  /** The chosen group has the most patches, and every group before it has
      strictly fewer: ties keep the earliest. */
  lemma {:induction false} LargestGroupIsFirst(features: seq<seq<seq<real>>>, n: nat)
    requires 0 < n <= |features|
    ensures var i := LargestGroup(features, n);
            i < n && (forall j :: 0 <= j < n ==> |features[j]| <= |features[i]|) &&
            (forall j :: 0 <= j < i ==> |features[j]| < |features[i]|)
  {
    if n > 1 {
      LargestGroupIsFirst(features, n - 1);
    }
  }

  class Initializer {
    var k: int
    /** `vv_`, `vn_`, `vc_`: the point count of every frame, and handles of
        its normals and colours. */
    var points: seq<nat>
    var normals: seq<nat>
    var colors: seq<nat>
    /** `vlc_`: handles of the label colours. */
    var labelColors: seq<nat>
    /** `vl_`: the label of every point of every frame. */
    var frameLabels: seq<seq<nat>>
    var verbose: int
    /** The configured `Feature_dim`. */
    var featureDim: int
    var patches: Patches
    var centers: seq<seq<real>>
    var alpha: seq<Matrix>

    /** `init_with_label`: stores every argument and succeeds. */
    method InitWithLabel(k': int, vv: seq<nat>, vn: seq<nat>, vc: seq<nat>, vlc: seq<nat>, vl: seq<seq<nat>>, verbose': int)
      returns (ok: bool)
      modifies this
      ensures ok
      ensures k == k' && points == vv && normals == vn && colors == vc && labelColors == vlc
      ensures frameLabels == vl && verbose == verbose'
      ensures featureDim == old(featureDim) && patches == old(patches) && centers == old(centers) && alpha == old(alpha)
    {
      k := k';
      points := vv;
      normals := vn;
      colors := vc;
      frameLabels := vl;
      labelColors := vlc;
      verbose := verbose';
      ok := true;
    }

    /** `extract_patch_features`: the label and feature lists are cleared,
        the size lists are not; then every frame is scanned from label 1 to
        its largest label (`arma::max`, which needs a non-empty label
        vector). */
    method ExtractPatchFeatures(extract: Extractor)
      requires |points| <= |frameLabels| && forall i :: 0 <= i < |points| ==> |frameLabels[i]| > 0
      modifies this
      ensures k == old(k) && points == old(points) && normals == old(normals) && colors == old(colors)
      ensures labelColors == old(labelColors) && frameLabels == old(frameLabels) && verbose == old(verbose)
      ensures featureDim == old(featureDim) && centers == old(centers) && alpha == old(alpha)
      ensures patches == ScanFrames(Patches([], [], old(patches.sizes)), frameLabels, 0, |points|, extract)
    {
      var p := Patches([], [], patches.sizes);
      ghost var result := ScanFrames(p, frameLabels, 0, |points|, extract);
      var l := 0;
      while l < |points|
        invariant l <= |points| && Aligned(p)
        invariant ScanFrames(p, frameLabels, l, |points|, extract) == result
      {
        var labels := frameLabels[l];
        var max := NatMax(labels);
        var v := 1;
        while v <= max
          invariant Aligned(p) && 1 <= v <= max + 1
          invariant ScanFrames(ScanLabels(p, l, labels, v, max, extract), frameLabels, l + 1, |points|, extract) == result
          decreases max + 1 - v
        {
          if v in labels {
            var (f, n) := extract(l, v);
            p := AddPatch(p, l, v, f, n);
          }
          v := v + 1;
        }
        l := l + 1;
      }
      patches := p;
    }

    /** `configure` as far as this model reads it: the feature dimension. */
    method Configure(dim: int) returns (ok: bool)
      modifies this
      ensures ok && featureDim == dim
      ensures k == old(k) && points == old(points) && normals == old(normals) && colors == old(colors)
      ensures labelColors == old(labelColors) && frameLabels == old(frameLabels) && verbose == old(verbose)
      ensures patches == old(patches) && centers == old(centers) && alpha == old(alpha)
    {
      featureDim := dim;
      ok := true;
    }

    /** `learn`: finds the first group with the most patches by a running
        maximum; the centres are replaced by that group's features only when
        the current centres fail `check_centers` (which then needs a group
        to exist); finally the mixture fit on all feature columns, keeping
        that many Gaussians, gives the centres. */
    method Learn(fit: MixtureFit) returns (chosen: nat)
      requires CheckCenters(centers, featureDim) || |patches.features| > 0
      modifies this
      ensures k == old(k) && points == old(points) && normals == old(normals) && colors == old(colors)
      ensures labelColors == old(labelColors) && frameLabels == old(frameLabels) && verbose == old(verbose)
      ensures featureDim == old(featureDim) && patches == old(patches) && alpha == old(alpha)
      ensures chosen == LargestGroup(patches.features, |patches.features|)
      ensures var start := if CheckCenters(old(centers), featureDim) then old(centers) else patches.features[chosen];
              centers == fit(start, Joined(patches.features, |patches.features|), MaxPatches(patches.features, |patches.features|))
    {
      var maxNum := 0;
      chosen := 0;
      var data: seq<seq<real>> := [];
      var index := 0;
      while index < |patches.features|
        invariant index <= |patches.features| && chosen == LargestGroup(patches.features, index)
        invariant maxNum == (if index == 0 then 0 else |patches.features[chosen]|) && maxNum == MaxPatches(patches.features, index)
        invariant data == Joined(patches.features, index)
      {
        if |patches.features[index]| > maxNum {
          maxNum := |patches.features[index]|;
          chosen := index;
        }
        data := data + patches.features[index];
        index := index + 1;
      }
      if !CheckCenters(centers, featureDim) {
        centers := patches.features[chosen];
      }
      centers := fit(centers, data, maxNum);
    }

    /** `generate_alpha`: one zero buffer per frame, points x k. */
    method GenerateAlpha()
      requires k >= 0
      modifies this
      ensures k == old(k) && points == old(points) && normals == old(normals) && colors == old(colors)
      ensures labelColors == old(labelColors) && frameLabels == old(frameLabels) && verbose == old(verbose)
      ensures featureDim == old(featureDim) && patches == old(patches) && centers == old(centers)
      ensures |alpha| == |points| && forall i :: 0 <= i < |points| ==> alpha[i] == ZeroMatrix(points[i], k)
    {
      var a: seq<Matrix> := [];
      for index := 0 to |points|
        invariant |a| == index && forall i :: 0 <= i < index ==> a[i] == ZeroMatrix(points[i], k)
      {
        a := a + [ZeroMatrix(points[index], k)];
      }
      alpha := a;
    }
  }

  /** The feature columns of groups 0 .. n-1 side by side (`join_rows`). */
  function Joined(features: seq<seq<seq<real>>>, n: nat): (d: seq<seq<real>>)
    requires n <= |features|
  {
    if n == 0 then [] else Joined(features, n - 1) + features[n - 1]
  }

  /** The running maximum of the patch counts of groups 0 .. n-1, from 0. */
  function MaxPatches(features: seq<seq<seq<real>>>, n: nat): (m: nat)
    requires n <= |features|
    ensures forall j :: 0 <= j < n ==> |features[j]| <= m
  {
    if n == 0 then 0
    else
      var m := MaxPatches(features, n - 1);
      if |features[n - 1]| > m then |features[n - 1]| else m
  }
}
