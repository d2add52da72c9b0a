/** `GraphCutThread`: the label update of the interactive segmentation. For
    every frame it assembles a graph-cut problem over the frame's
    supervoxels (the pixels): a data term with one row per label (label 0 is
    "unknown", label 1 + o is object o), a Potts smoothness term over
    neighbouring supervoxels, and the neighbour weights, and hands them to
    the solver. The solver, the supervoxel graph's matching and the object
    transforms are collaborators this model takes as given. */
module GraphCut {
  import opened Numeric
  import opened Matrices

  /** The configuration entries, each key mapped to its value. */
  datatype Config = Config(entries: map<string, real>)

  const IterKey: string := "GC_iter_num"
  const WeightKey: string := "GC_data_weight"

  /** A pair of neighbouring supervoxels (a column of `voxel_neighbors`). */
  type Pair = (nat, nat)

  /** What a frame's mesh bundle provides: its supervoxel count, the
      neighbour pairs, the similarity and size of supervoxels, and the
      mesh's vertex count. */
  datatype Frame = Frame(pixels: nat, neighbours: seq<Pair>, similarity: (nat, nat) -> real,
                         voxelSize: nat -> real, vertices: nat)

  /** Object o seen in frame f: the matching scores of every pixel when the
      object's transform into the frame succeeds, nothing when it fails. */
  type Scores = (nat, nat) -> Option<seq<real>>

  datatype Option<T> = None | Some(value: T)

  /** The graph-cut solver (setup, expansion, `getAnswer` and `sv2pix`):
      the per-vertex labels of frame f for its data and smoothness terms. */
  type Solver = (nat, Matrix, map<Pair, real>) -> seq<nat>

  ghost predicate ScoresFit(scores: Scores, frames: seq<Frame>, objects: nat)
  {
    forall o, f :: 0 <= o < objects && 0 <= f < |frames| && scores(o, f).Some? ==>
      |scores(o, f).value| == frames[f].pixels
  }

  // ---------------------------------------------------------------------------
  // Data term

  /** Row 1 + o of the data term before the unknown label is written:
      object o's scores, or zeros when its transform fails. */
  function ObjectRow(scores: Scores, f: nat, o: nat, pixels: nat): (r: seq<real>)
    requires scores(o, f).Some? ==> |scores(o, f).value| == pixels
    ensures |r| == pixels
  {
    match scores(o, f)
    case Some(s) => s
    case None => Filled(pixels, 0.0)
  }

  /** The data rows before the unknown label is written. Row 0 is
      overwritten before it is read, so its initial value is immaterial; it
      is taken as zeros. */
  function ObjectRows(scores: Scores, f: nat, objects: nat, pixels: nat): (d: Matrix)
    requires forall o :: 0 <= o < objects && scores(o, f).Some? ==> |scores(o, f).value| == pixels
    ensures Shaped(d, 1 + objects, pixels)
  {
    seq(1 + objects, l requires 0 <= l < 1 + objects =>
      if l == 0 then Filled(pixels, 0.0) else ObjectRow(scores, f, l - 1, pixels))
  }

  /** The data rows with row 0, the unknown label, set to 0.5. */
  function WithUnknown(d: Matrix, pixels: nat): (d0: Matrix)
    requires |d| > 0 && Wide(d, pixels)
    ensures |d0| == |d| && Wide(d0, pixels)
  {
    d[0 := Filled(pixels, 0.5)]
  }

  /** `prepareDataForUnknown`: row 0 becomes 0.5 everywhere, then every
      entry d(l, p) becomes w (colsum_p - d(l, p)): a cost that falls as the
      label's score rises. */
  function UnknownTerm(d: Matrix, pixels: nat, w: real): (e: Matrix)
    requires |d| > 0 && Wide(d, pixels)
    ensures Shaped(e, |d|, pixels)
  {
    var d0 := WithUnknown(d, pixels);
    var s := ColSums(d0, pixels);
    seq(|d|, l requires 0 <= l < |d| => seq(pixels, p requires 0 <= p < pixels => w * (s[p] - d0[l][p])))
  }

  /** The data term of frame f. */
  function DataTerm(scores: Scores, f: nat, objects: nat, pixels: nat, w: real): (e: Matrix)
    requires forall o :: 0 <= o < objects && scores(o, f).Some? ==> |scores(o, f).value| == pixels
    ensures Shaped(e, 1 + objects, pixels)
  {
    UnknownTerm(ObjectRows(scores, f, objects, pixels), pixels, w)
  }

  /** An object whose transform fails scores 0 on every pixel, so its cost
      there is w times the whole column total: no label costs more. */
  lemma FailedObjectRow(scores: Scores, f: nat, objects: nat, pixels: nat, w: real, o: nat, p: nat)
    requires forall o :: 0 <= o < objects && scores(o, f).Some? ==> |scores(o, f).value| == pixels
    requires o < objects && p < pixels && scores(o, f).None?
    ensures ObjectRows(scores, f, objects, pixels)[1 + o] == Filled(pixels, 0.0)
    ensures var s := ColSums(WithUnknown(ObjectRows(scores, f, objects, pixels), pixels), pixels);
            DataTerm(scores, f, objects, pixels, w)[1 + o][p] == w * s[p]
  {
    var d := ObjectRows(scores, f, objects, pixels);
    assert d[1 + o] == Filled(pixels, 0.0);
    assert WithUnknown(d, pixels)[1 + o][p] == 0.0;
  }

  /** Every column of the data term sums to w (L - 1) times the column's
      total score (with 0.5 for the unknown label), L being the number of
      labels. */
  lemma UnknownColumnMass(d: Matrix, pixels: nat, w: real, p: nat)
    requires |d| > 0 && Wide(d, pixels) && p < pixels
    ensures Sum(Column(UnknownTerm(d, pixels, w), pixels, p))
            == w * (|d| as real - 1.0) * ColSums(WithUnknown(d, pixels), pixels)[p]
  {
    var c0 := Column(WithUnknown(d, pixels), pixels, p);
    UnknownColumnEntries(d, pixels, w, p);
    ComplementMass(Column(UnknownTerm(d, pixels, w), pixels, p), c0, w, Sum(c0));
    FactorOut(w, |d| as real, Sum(c0));
  }

  /** Entry l of column p of the data term: w times the column total less
      the entry. */
  lemma UnknownColumnEntries(d: Matrix, pixels: nat, w: real, p: nat)
    requires |d| > 0 && Wide(d, pixels) && p < pixels
    ensures var c0 := Column(WithUnknown(d, pixels), pixels, p);
            var col := Column(UnknownTerm(d, pixels, w), pixels, p);
            forall l :: 0 <= l < |d| ==> col[l] == w * (Sum(c0) - c0[l])
  {
  }

  /** Taking w (k - entry) of every entry of a sequence of n entries sums
      to w (n k - its total); with k the total, w (n - 1) times the total. */
  lemma {:induction false} ComplementMass(col: seq<real>, c: seq<real>, w: real, total: real)
    requires |col| == |c|
    requires forall l :: 0 <= l < |c| ==> col[l] == w * (total - c[l])
    ensures Sum(col) == w * (|c| as real * total - Sum(c))
  {
    if c != [] {
      var n := |c| - 1;
      ComplementMass(col[..n], c[..n], w, total);
      MassArithmetic(Sum(col[..n]), col[n], w, n as real, total, Sum(c[..n]), c[n]);
    }
  }

  lemma FactorOut(w: real, n: real, t: real)
    ensures w * (n * t - t) == w * (n - 1.0) * t
  {
  }

  lemma MassArithmetic(prefix: real, last: real, w: real, n: real, total: real, sp: real, cl: real)
    requires prefix == w * (n * total - sp) && last == w * (total - cl)
    ensures prefix + last == w * ((n + 1.0) * total - (sp + cl))
  {
  }

  /** With a positive weight, a label whose score at a pixel is higher gets
      a strictly lower cost there; equal scores give equal costs. */
  lemma HigherScoreLowerCost(d: Matrix, pixels: nat, w: real, l1: nat, l2: nat, p: nat)
    requires |d| > 0 && Wide(d, pixels) && l1 < |d| && l2 < |d| && p < pixels && w > 0.0
    requires l1 != 0 && l2 != 0 && d[l1][p] > d[l2][p]
    ensures UnknownTerm(d, pixels, w)[l1][p] < UnknownTerm(d, pixels, w)[l2][p]
  {
    var e := UnknownTerm(d, pixels, w);
    assert e[l2][p] - e[l1][p] == w * (d[l1][p] - d[l2][p]);
    ProductPositive(w, d[l1][p] - d[l2][p], e[l2][p] - e[l1][p]);
  }

  // ---------------------------------------------------------------------------
  // Smoothness term

  /** `smooth_` after `prepareSmoothTerm`: an empty sparse matrix in which
      every neighbour pair, in order, is set to its similarity. The range
      checks on the pair only construct an exception object; the store into
      the matrix is bounds-checked, so `PrepareSmoothTerm` requires every
      pair to lie within the pixel count. */
  function SmoothTerm(frame: Frame, n: nat): (m: map<Pair, real>)
    requires n <= |frame.neighbours|
  {
    if n == 0 then map[]
    else
      var pr := frame.neighbours[n - 1];
      SmoothTerm(frame, n - 1)[pr := frame.similarity(pr.0, pr.1)]
  }

  /** Exactly the neighbour pairs have an entry, and each holds its
      similarity. */
  lemma {:induction false} SmoothTermEntries(frame: Frame, n: nat)
    requires n <= |frame.neighbours|
    ensures forall pr :: pr in SmoothTerm(frame, n) <==> pr in frame.neighbours[..n]
    ensures forall pr :: pr in SmoothTerm(frame, n) ==> SmoothTerm(frame, n)[pr] == frame.similarity(pr.0, pr.1)
  {
    if n > 0 {
      SmoothTermEntries(frame, n - 1);
      assert frame.neighbours[..n] == frame.neighbours[..n - 1] + [frame.neighbours[n - 1]];
    }
  }

  /** Both pixels of every neighbour pair of the frame are below n. */
  predicate PairsWithin(frame: Frame, n: nat)
  {
    forall i :: 0 <= i < |frame.neighbours| ==> frame.neighbours[i].0 < n && frame.neighbours[i].1 < n
  }

  /** An entry of the sparse matrix: 0 where nothing was set. */
  function Entry(m: map<Pair, real>, pix1: nat, pix2: nat): real
  {
    if (pix1, pix2) in m then m[(pix1, pix2)] else 0.0
  }

  /** `fnCost`: the Potts cost, 0 for equal labels and the smoothness entry
      of the pixel pair otherwise. */
  function Cost(m: map<Pair, real>, pix1: nat, pix2: nat, i: nat, j: nat): real
  {
    if i == j then 0.0 else Entry(m, pix1, pix2)
  }

  /** The cost does not depend on which label is which, vanishes for equal
      labels, and is the same for every pair of distinct labels. */
  lemma PottsCost(m: map<Pair, real>, pix1: nat, pix2: nat, i: nat, j: nat, k: nat, l: nat)
    ensures Cost(m, pix1, pix2, i, j) == Cost(m, pix1, pix2, j, i)
    ensures Cost(m, pix1, pix2, i, i) == 0.0
    ensures i != j && k != l ==> Cost(m, pix1, pix2, i, j) == Cost(m, pix1, pix2, k, l)
  {
  }

  // ---------------------------------------------------------------------------
  // Neighbour weights

  /** The weight of a neighbour pair: the two supervoxel sizes over the
      mesh's vertex count. */
  function PairWeight(frame: Frame, pr: Pair): real
  {
    Quot(1.0, frame.vertices as real) * (frame.voxelSize(pr.0) + frame.voxelSize(pr.1))
  }

  /** The index of the first pair the graph refuses, or the pair count. */
  function FirstRefused(frame: Frame, accept: (nat, nat, real) -> bool, n: nat): (i: nat)
    requires n <= |frame.neighbours|
    ensures i <= n
    ensures forall j :: 0 <= j < i ==> accept(frame.neighbours[j].0, frame.neighbours[j].1, PairWeight(frame, frame.neighbours[j]))
    ensures i < n ==> !accept(frame.neighbours[i].0, frame.neighbours[i].1, PairWeight(frame, frame.neighbours[i]))
  {
    if n == 0 then 0
    else
      var i := FirstRefused(frame, accept, n - 1);
      if i < n - 1 then i
      else
        var pr := frame.neighbours[n - 1];
        if accept(pr.0, pr.1, PairWeight(frame, pr)) then n else n - 1
  }

  /** The edges handed to the graph for pairs 0 .. n-1. */
  function Edges(frame: Frame, n: nat): (es: seq<(nat, nat, real)>)
    requires n <= |frame.neighbours|
    ensures |es| == n
  {
    seq(n, j requires 0 <= j < n => (frame.neighbours[j].0, frame.neighbours[j].1, PairWeight(frame, frame.neighbours[j])))
  }

  /** `prepareNeighbors`: hands every pair with its weight to the graph in
      order, stopping with false at the first pair it refuses; true when it
      takes them all. */
  method PrepareNeighbors(frame: Frame, accept: (nat, nat, real) -> bool) returns (ok: bool, edges: seq<(nat, nat, real)>)
    ensures var i := FirstRefused(frame, accept, |frame.neighbours|);
            (ok <==> i == |frame.neighbours|) && edges == Edges(frame, if ok then i else i + 1)
  {
    var eps := Quot(1.0, frame.vertices as real);
    edges := [];
    var idx := 0;
    while idx < |frame.neighbours|
      invariant idx <= |frame.neighbours| && FirstRefused(frame, accept, idx) == idx
      invariant edges == Edges(frame, idx)
    {
      var pr := frame.neighbours[idx];
      var w := eps * (frame.voxelSize(pr.0) + frame.voxelSize(pr.1));
      assert w == PairWeight(frame, pr);
      EdgesSnoc(frame, idx);
      edges := edges + [(pr.0, pr.1, w)];
      if !accept(pr.0, pr.1, w) {
        assert FirstRefused(frame, accept, idx + 1) == idx;
        RefusedStays(frame, accept, idx + 1, |frame.neighbours|);
        return false, edges;
      }
      assert FirstRefused(frame, accept, idx + 1) == idx + 1;
      idx := idx + 1;
    }
    ok := true;
  }

  lemma EdgesSnoc(frame: Frame, n: nat)
    requires n < |frame.neighbours|
    ensures var pr := frame.neighbours[n];
            Edges(frame, n + 1) == Edges(frame, n) + [(pr.0, pr.1, PairWeight(frame, pr))]
  {
  }

  /** Once a pair is refused, later pairs do not move the first refusal. */
  lemma {:induction false} RefusedStays(frame: Frame, accept: (nat, nat, real) -> bool, m: nat, n: nat)
    requires 0 < m <= n <= |frame.neighbours| && FirstRefused(frame, accept, m) == m - 1
    ensures FirstRefused(frame, accept, n) == m - 1
    decreases n
  {
    if n > m {
      RefusedStays(frame, accept, m, n - 1);
    }
  }

  /** The labels the solver gives frame f for its data and smoothness
      terms. */
  function FrameLabels(scores: Scores, solve: Solver, frames: seq<Frame>, objects: nat, w: real, f: nat): seq<nat>
    requires ScoresFit(scores, frames, objects) && f < |frames|
  {
    solve(f, DataTerm(scores, f, objects, frames[f].pixels, w), SmoothTerm(frames[f], |frames[f].neighbours|))
  }

  // ---------------------------------------------------------------------------
  // The thread

  class GraphCutThread {
    var config: Config
    /** `meshes_`: the frames to label. */
    var frames: seq<Frame>
    /** `objects_.size()`. */
    var objects: nat
    var currentFrame: nat
    var labelNumber: nat
    var pixNumber: nat
    var data: Matrix
    /** The static `smooth_` of the source, kept here as instance state. */
    var smooth: map<Pair, real>
    /** `outputs_`: per frame, the labels of its vertices. */
    var outputs: seq<seq<nat>>

    /** `configure`: keeps the configuration and succeeds exactly when both
        graph-cut keys are present. */
    method Configure(c: Config) returns (ok: bool)
      modifies this
      ensures config == c
      ensures ok <==> IterKey in c.entries && WeightKey in c.entries
      ensures frames == old(frames) && objects == old(objects) && currentFrame == old(currentFrame)
      ensures labelNumber == old(labelNumber) && pixNumber == old(pixNumber) && data == old(data)
      ensures smooth == old(smooth) && outputs == old(outputs)
    {
      config := c;
      if IterKey !in config.entries {
        return false;
      }
      if WeightKey !in config.entries {
        return false;
      }
      return true;
    }

    /** `prepareDataTerm` for the current frame: object rows, then the
        unknown label. It always reports success. */
    method PrepareDataTerm(scores: Scores) returns (ok: bool)
      requires currentFrame < |frames| && WeightKey in config.entries && pixNumber == frames[currentFrame].pixels
      requires labelNumber == 1 + objects && ScoresFit(scores, frames, objects)
      modifies this
      ensures config == old(config) && frames == old(frames) && objects == old(objects) && currentFrame == old(currentFrame)
      ensures labelNumber == old(labelNumber) && pixNumber == old(pixNumber)
      ensures smooth == old(smooth) && outputs == old(outputs)
      ensures ok && data == DataTerm(scores, currentFrame, objects, pixNumber, config.entries[WeightKey])
    {
      var f := currentFrame;
      var pixels := pixNumber;
      ghost var rows := ObjectRows(scores, f, objects, pixels);
      var d := seq(labelNumber, _ => Filled(pixels, 0.0));
      var o := 0;
      while o < objects
        invariant o <= objects && |d| == |rows|
        invariant forall l :: 0 <= l < |d| ==> d[l] == (if 0 < l <= o then rows[l] else Filled(pixels, 0.0))
      {
        match scores(o, f) {
          case Some(s) => d := d[1 + o := s];
          case None => d := d[1 + o := Filled(pixels, 0.0)];
        }
        o := o + 1;
      }
      assert d == rows;
      data := d;
      PrepareDataForUnknown();
      ok := true;
    }

    /** `prepareDataForUnknown`, rewriting the data matrix in place: row 0
        is filled with 0.5, the column sums are subtracted from every row
        and the whole is scaled by minus the data weight. */
    method PrepareDataForUnknown()
      requires WeightKey in config.entries && |data| > 0 && Wide(data, pixNumber)
      modifies this
      ensures config == old(config) && frames == old(frames) && objects == old(objects) && currentFrame == old(currentFrame)
      ensures labelNumber == old(labelNumber) && pixNumber == old(pixNumber)
      ensures smooth == old(smooth) && outputs == old(outputs)
      ensures data == UnknownTerm(old(data), pixNumber, config.entries[WeightKey])
    {
      var w := config.entries[WeightKey];
      var pixels := pixNumber;
      var d := data[0 := Filled(pixels, 0.5)];
      ghost var e := UnknownTerm(data, pixels, w);
      var sums := ColSums(d, pixels);
      var l := 0;
      while l < |d|
        invariant l <= |d| == |e|
        invariant forall r :: 0 <= r < |d| ==> d[r] == if r < l then e[r] else WithUnknown(data, pixels)[r]
      {
        var row := d[l];
        var next := seq(pixels, p requires 0 <= p < pixels => (row[p] - sums[p]) * (-1.0 * w));
        assert next == e[l] by {
          forall p | 0 <= p < pixels
            ensures next[p] == e[l][p]
          {
          }
        }
        d := d[l := next];
        l := l + 1;
      }
      data := d;
    }

    /** `prepareSmoothTerm` for the current frame. */
    method PrepareSmoothTerm() returns (ok: bool)
      requires currentFrame < |frames| && PairsWithin(frames[currentFrame], pixNumber)
      modifies this
      ensures config == old(config) && frames == old(frames) && objects == old(objects) && currentFrame == old(currentFrame)
      ensures labelNumber == old(labelNumber) && pixNumber == old(pixNumber)
      ensures data == old(data) && outputs == old(outputs)
      ensures ok && smooth == SmoothTerm(frames[currentFrame], |frames[currentFrame].neighbours|)
    {
      var frame := frames[currentFrame];
      var m := map[];
      var idx := 0;
      while idx < |frame.neighbours|
        invariant idx <= |frame.neighbours| && m == SmoothTerm(frame, idx)
      {
        var pr := frame.neighbours[idx];
        m := m[pr := frame.similarity(pr.0, pr.1)];
        idx := idx + 1;
      }
      smooth := m;
      ok := true;
    }

    /** `fnCost` on the current smoothness term: a Potts cost, the same
        with the labels swapped, zero for equal labels, and one value shared
        by every pair of distinct labels. */
    function FnCost(pix1: nat, pix2: nat, i: nat, j: nat): (c: real)
      reads this
      ensures c == Cost(smooth, pix1, pix2, j, i)
      ensures i == j ==> c == 0.0
      ensures i != j ==> forall k: nat, l: nat :: k != l ==> Cost(smooth, pix1, pix2, k, l) == c
    {
      Cost(smooth, pix1, pix2, i, j)
    }

    /** One pass of the frame loop of `run` on the current frame: label
        and pixel counts, data and smoothness terms, neighbour weights, and
        the solver's labels stored for the frame. */
    method LabelFrame(scores: Scores, accept: (nat, nat, real) -> bool, solve: Solver)
      requires currentFrame < |frames| <= |outputs| && WeightKey in config.entries && ScoresFit(scores, frames, objects)
      requires PairsWithin(frames[currentFrame], frames[currentFrame].pixels)
      modifies this
      ensures config == old(config) && frames == old(frames) && objects == old(objects) && currentFrame == old(currentFrame)
      ensures labelNumber == 1 + objects && pixNumber == frames[currentFrame].pixels
      ensures outputs == old(outputs)[currentFrame := FrameLabels(scores, solve, frames, objects, config.entries[WeightKey], currentFrame)]
    {
      labelNumber := 1 + objects;
      pixNumber := frames[currentFrame].pixels;
      var dataOk := PrepareDataTerm(scores);
      var smoothOk := PrepareSmoothTerm();
      var neighboursOk, edges := PrepareNeighbors(frames[currentFrame], accept);
      outputs := outputs[currentFrame := solve(currentFrame, data, smooth)];
    }

    /** `run`: frames 0 .. n-1 in order; each gets 1 + (number of objects)
        labels and one pixel per supervoxel, and its labels from the solver
        for its own data and smoothness terms. Outputs of other indices are
        left alone. */
    method Run(scores: Scores, accept: (nat, nat, real) -> bool, solve: Solver) returns (sizing: seq<(nat, nat)>)
      requires WeightKey in config.entries && ScoresFit(scores, frames, objects) && |outputs| >= |frames|
      requires forall f :: 0 <= f < |frames| ==> PairsWithin(frames[f], frames[f].pixels)
      modifies this
      ensures config == old(config) && frames == old(frames) && objects == old(objects)
      ensures currentFrame == |frames| && |outputs| == old(|outputs|) && |sizing| == |frames|
      ensures forall f :: 0 <= f < |frames| ==> sizing[f] == (1 + objects, frames[f].pixels)
      ensures forall f :: 0 <= f < |frames| ==>
                outputs[f] == FrameLabels(scores, solve, frames, objects, config.entries[WeightKey], f)
      ensures forall f :: |frames| <= f < |outputs| ==> outputs[f] == old(outputs[f])
    {
      currentFrame := 0;
      sizing := [];
      while currentFrame < |frames|
        invariant config == old(config) && frames == old(frames) && objects == old(objects)
        invariant currentFrame <= |frames| && |outputs| == old(|outputs|) && |sizing| == currentFrame
        invariant forall f :: 0 <= f < currentFrame ==> sizing[f] == (1 + objects, frames[f].pixels)
        invariant forall f :: 0 <= f < currentFrame ==>
                    outputs[f] == FrameLabels(scores, solve, frames, objects, config.entries[WeightKey], f)
        invariant forall f :: currentFrame <= f < |outputs| ==> outputs[f] == old(outputs[f])
      {
        LabelFrame(scores, accept, solve);
        sizing := sizing + [(labelNumber, pixNumber)];
        currentFrame := currentFrame + 1;
      }
    }
  }
}
