/** The shared part of the JRCS co-segmentation engine (`SJRCSBase`): the
    pass counter, the model-size estimate, the partition of the K model
    columns into per-object ranges, the truncated weighting of a view, the
    residue energy and the fusion step that rebuilds the model from the
    weighted views. Point sets are 3 x N matrices in the source; here they
    are sequences of points, one per column. */
module Sjrcs {
  import opened Numeric
  import opened Geometry
  import opened Matrices

  datatype Result<T> = Success(value: T) | Failure(error: string)

  // ---------------------------------------------------------------------------
  // Column ranges

  /** `arma::uword` arithmetic wraps modulo 2^64. */
  const WordModulus: int := 0x1_0000_0000_0000_0000

  function Word(x: int): (w: nat)
    ensures w < WordModulus
  {
    x % WordModulus
  }

  lemma {:induction false} WordAdd(x: int, y: int)
    ensures Word(Word(x) + y) == Word(x + y)
  {
    var q := x / WordModulus;
    assert x == q * WordModulus + Word(x);
    assert Word(x) + y == (x + y) - q * WordModulus;
  }

  /** The last column of a range: first column + size - 1, in uword
      arithmetic. */
  function EndOf(start: int, size: int): nat
  {
    Word(start + size - 1)
  }

  lemma {:induction false} WordSmall(x: int)
    requires 0 <= x < WordModulus
    ensures Word(x) == x
  {
  }

  function IntMin(a: int, b: int): int { if a <= b then a else b }

  function IntMax(a: int, b: int): int { if a >= b then a else b }

  /** The number of columns one object asks for: k times its probability,
      truncated, at least 9, and no more than the columns that remain. */
  function ObjectSize(k: nat, p: real, remaining: int): int
  {
    IntMin(remaining, IntMax(9, Trunc(k as real * p)))
  }

  /** The sizes the partition loop hands out, front to back; when
      `takeRest` holds (the box variant) the last object takes every
      remaining column. */
  function Sizes(k: nat, remaining: int, probs: seq<real>, takeRest: bool): (s: seq<int>)
    ensures |s| == |probs|
    decreases |probs|
  {
    if probs == [] then []
    else
      var size := if takeRest && |probs| == 1 then remaining else ObjectSize(k, probs[0], remaining);
      [size] + Sizes(k, remaining - size, probs[1..], takeRest)
  }

  function Total(s: seq<int>): int
  {
    if s == [] then 0 else Total(s[..|s| - 1]) + s[|s| - 1]
  }

  /** `obj_range_`: the first and the last column of every object, each
      object starting right after the columns of the ones before it. */
  function Ranges(sizes: seq<int>): (r: seq<int>)
    ensures |r| == 2 * |sizes|
  {
    if sizes == [] then []
    else
      var init := sizes[..|sizes| - 1];
      Ranges(init) + [Word(Total(init)), EndOf(Word(Total(init)), sizes[|sizes| - 1])]
  }

  /** `reset_obj_vn`: fresh points and normals for an object of n columns
      around its position. It is a JRCSBase member that is not part of this
      model, so it is taken as given: column j of the n drawn around p is
      `reset(p, n, j)`, a point and its normal. */
  type Redrawer = (Vec3, nat, nat) -> (Vec3, Vec3)

  ghost predicate NonNegative(sizes: seq<int>)
  {
    forall o :: 0 <= o < |sizes| ==> sizes[o] >= 0
  }

  /** xs with the columns at .. at + |ys| - 1 replaced by ys. */
  function Splice(xs: seq<Vec3>, at: nat, ys: seq<Vec3>): (zs: seq<Vec3>)
    requires at + |ys| <= |xs|
    ensures |zs| == |xs|
  {
    xs[..at] + ys + xs[at + |ys|..]
  }

  /** What `reset_obj_vn` writes into the block of one object of n
      columns: its points, or its normals. */
  function Block(reset: Redrawer, position: Vec3, n: nat, points: bool): (p: seq<Vec3>)
    ensures |p| == n
  {
    seq(n, j requires 0 <= j < n => if points then reset(position, n, j).0 else reset(position, n, j).1)
  }

  /** The blocks of the objects one after the other, as `reset_obj_vn`
      fills them. */
  function Drawn(sizes: seq<int>, positions: seq<Vec3>, reset: Redrawer, points: bool): (d: seq<Vec3>)
    requires |sizes| <= |positions| && NonNegative(sizes)
    ensures |d| == Total(sizes)
  {
    if sizes == [] then []
    else
      var n := |sizes| - 1;
      Drawn(sizes[..n], positions, reset, points) + Block(reset, positions[n], sizes[n], points)
  }

  lemma {:induction false} TotalPrefixStep(s: seq<int>, n: nat)
    requires n < |s|
    ensures Total(s[..n + 1]) == Total(s[..n]) + s[n]
  {
    assert s[..n + 1][..n] == s[..n];
  }

  /** The points (or normals) after `initx` has walked every object: the
      columns handed out hold the objects' blocks in order, and the columns
      no object received keep their values. */
  function Redrawn(xs: seq<Vec3>, probs: seq<real>, takeRest: bool, positions: seq<Vec3>, reset: Redrawer, points: bool): (ys: seq<Vec3>)
    requires |probs| <= |positions|
    ensures |ys| == |xs|
  {
    var sizes := Sizes(|xs|, |xs|, probs, takeRest);
    SizesWithin(|xs|, |xs|, probs, takeRest);
    Drawn(sizes, positions, reset, points) + xs[Total(sizes)..]
  }

  /** The object loop of `initx`: walks the objects with a running count of
      remaining columns, writes each object's first and last column, and
      hands the object's block of points and normals (the next `size`
      columns) to `reset_obj_vn`. */
  method LayOut(k: nat, probs: seq<real>, takeRest: bool, positions: seq<Vec3>, xs: seq<Vec3>, ns: seq<Vec3>, reset: Redrawer)
    returns (sizes: seq<int>, ranges: seq<int>, xs': seq<Vec3>, ns': seq<Vec3>)
    requires |xs| == k && |ns| == k && |probs| <= |positions|
    ensures sizes == Sizes(k, k, probs, takeRest) && ranges == Ranges(sizes)
    ensures xs' == Redrawn(xs, probs, takeRest, positions, reset, true)
    ensures ns' == Redrawn(ns, probs, takeRest, positions, reset, false)
  {
    var rk: int := k;
    var at := 0;
    sizes, ranges, xs', ns' := [], [], xs, ns;
    var i := 0;
    while i < |probs|
      invariant 0 <= i <= |probs| && |sizes| == i
      invariant sizes + Sizes(k, rk, probs[i..], takeRest) == Sizes(k, k, probs, takeRest)
      invariant rk == k - Total(sizes)
      invariant ranges == Ranges(sizes)
      invariant NonNegative(sizes) && 0 <= rk <= k && at == k - rk
      invariant xs' == Drawn(sizes, positions, reset, true) + xs[at..]
      invariant ns' == Drawn(sizes, positions, reset, false) + ns[at..]
    {
      var size, start := NextObject(k, probs, takeRest, sizes, rk, ranges);
      xs' := ResetObject(xs, sizes, size, at, positions, reset, true, xs');
      ns' := ResetObject(ns, sizes, size, at, positions, reset, false, ns');
      at := at + size;
      ranges := ranges + [start, EndOf(start, size)];
      sizes := sizes + [size];
      rk := rk - size;
      i := i + 1;
    }
    assert probs[|probs|..] == [];
    RedrawnIs(xs, probs, takeRest, positions, reset, true, sizes);
    RedrawnIs(ns, probs, takeRest, positions, reset, false, sizes);
  }

  lemma RedrawnIs(xs: seq<Vec3>, probs: seq<real>, takeRest: bool, positions: seq<Vec3>, reset: Redrawer, points: bool, sizes: seq<int>)
    requires |probs| <= |positions| && sizes == Sizes(|xs|, |xs|, probs, takeRest)
    ensures NonNegative(sizes) && 0 <= Total(sizes) <= |xs|
    ensures Redrawn(xs, probs, takeRest, positions, reset, points) == Drawn(sizes, positions, reset, points) + xs[Total(sizes)..]
  {
    SizesWithin(|xs|, |xs|, probs, takeRest);
    TotalNonNegative(sizes);
  }

  /** The size of the next object, and the first column of its range: right
      after the last column of the range before it. */
  method NextObject(k: nat, probs: seq<real>, takeRest: bool, sizes: seq<int>, rk: int, ranges: seq<int>)
    returns (size: int, start: int)
    requires |sizes| < |probs| && 0 <= rk
    requires sizes + Sizes(k, rk, probs[|sizes|..], takeRest) == Sizes(k, k, probs, takeRest)
    requires rk == k - Total(sizes) && ranges == Ranges(sizes)
    ensures 0 <= size <= rk
    ensures (sizes + [size]) + Sizes(k, rk - size, probs[|sizes| + 1..], takeRest) == Sizes(k, k, probs, takeRest)
    ensures rk - size == k - Total(sizes + [size])
    ensures ranges + [start, EndOf(start, size)] == Ranges(sizes + [size])
  {
    var i := |sizes|;
    size := if takeRest && i == |probs| - 1 then rk else ObjectSize(k, probs[i], rk);
    start := if i == 0 then 0 else Word(ranges[2 * i - 1] + 1);
    PartitionStep(k, probs, takeRest, sizes, rk, ranges, size, start);
    SizeWithin(k, probs, takeRest, sizes, rk, size);
  }

  /** The size handed to the next object is a count no larger than what
      remains. */
  lemma SizeWithin(k: nat, probs: seq<real>, takeRest: bool, sizes: seq<int>, rk: int, size: int)
    requires |sizes| < |probs| && rk >= 0
    requires size == if takeRest && |sizes| == |probs| - 1 then rk else ObjectSize(k, probs[|sizes|], rk)
    ensures 0 <= size <= rk
  {
  }

  /** `reset_obj_vn` writing one object's block into its view of the
      buffer: the `size` columns after those already handed out. Before the
      call the buffer holds the blocks of the objects before it; after it,
      this object's block too. */
  method ResetObject(ghost xs: seq<Vec3>, sizes: seq<int>, size: nat, at: nat, positions: seq<Vec3>,
                     reset: Redrawer, points: bool, cur: seq<Vec3>)
    returns (next: seq<Vec3>)
    requires |sizes| < |positions| && NonNegative(sizes) && at == Total(sizes) && at + size <= |xs|
    requires cur == Drawn(sizes, positions, reset, points) + xs[at..]
    ensures NonNegative(sizes + [size]) && Total(sizes + [size]) == at + size
    ensures next == Drawn(sizes + [size], positions, reset, points) + xs[at + size..]
  {
    DrawnStep(xs, sizes, size, at, positions, reset, points, cur);
    next := Splice(cur, at, Block(reset, positions[|sizes|], size, points));
  }

  /** One object further: its block, the `size` columns after those already
      handed out, is replaced by what `reset_obj_vn` draws. */
  lemma DrawnStep(xs: seq<Vec3>, sizes: seq<int>, size: nat, at: nat, positions: seq<Vec3>, reset: Redrawer, points: bool,
                  cur: seq<Vec3>)
    requires |sizes| < |positions| && NonNegative(sizes) && at == Total(sizes) && at + size <= |xs|
    requires cur == Drawn(sizes, positions, reset, points) + xs[at..]
    ensures NonNegative(sizes + [size]) && Total(sizes + [size]) == at + size
    ensures Splice(cur, at, Block(reset, positions[|sizes|], size, points))
         == Drawn(sizes + [size], positions, reset, points) + xs[at + size..]
  {
    var s1 := sizes + [size];
    assert s1[..|s1| - 1] == sizes;
    assert cur[..at] == Drawn(sizes, positions, reset, points);
    assert cur[at + size..] == xs[at + size..];
  }

  /** One turn of the partition loop keeps its three invariants. */
  lemma {:induction false} PartitionStep(k: nat, probs: seq<real>, takeRest: bool, sizes: seq<int>, rk: int, ranges: seq<int>, size: int, start: int)
    requires |sizes| < |probs|
    requires sizes + Sizes(k, rk, probs[|sizes|..], takeRest) == Sizes(k, k, probs, takeRest)
    requires rk == k - Total(sizes) && ranges == Ranges(sizes)
    requires size == if takeRest && |sizes| == |probs| - 1 then rk else ObjectSize(k, probs[|sizes|], rk)
    requires start == if |sizes| == 0 then 0 else Word(ranges[2 * |sizes| - 1] + 1)
    ensures (sizes + [size]) + Sizes(k, rk - size, probs[|sizes| + 1..], takeRest) == Sizes(k, k, probs, takeRest)
    ensures rk - size == k - Total(sizes + [size])
    ensures ranges + [start, EndOf(start, size)] == Ranges(sizes + [size])
  {
    var i := |sizes|;
    SizesHead(k, rk, probs[i..], takeRest);
    assert probs[i..][1..] == probs[i + 1..];
    var s1 := sizes + [size];
    assert s1[..|s1| - 1] == sizes;
    StartOfNext(sizes);
  }

  lemma {:induction false} SizesHead(k: nat, remaining: int, probs: seq<real>, takeRest: bool)
    requires probs != []
    ensures var size := if takeRest && |probs| == 1 then remaining else ObjectSize(k, probs[0], remaining);
            Sizes(k, remaining, probs, takeRest) == [size] + Sizes(k, remaining - size, probs[1..], takeRest)
  {
  }

  /** The column after the last range is the total of the sizes. */
  lemma {:induction false} StartOfNext(sizes: seq<int>)
    ensures (if sizes == [] then 0 else Word(Ranges(sizes)[2 * |sizes| - 1] + 1)) == Word(Total(sizes))
  {
    if sizes != [] {
      var init := sizes[..|sizes| - 1];
      var last := sizes[|sizes| - 1];
      assert Ranges(sizes)[2 * |sizes| - 1] == EndOf(Word(Total(init)), last);
      WordAdd(Total(init), last - 1);
      WordAdd(Total(init) + last - 1, 1);
    }
  }

  /** No object receives a negative share, and the shares never exceed the
      columns there are; the box variant hands out exactly all of them. */
  lemma {:induction false} SizesWithin(k: nat, remaining: int, probs: seq<real>, takeRest: bool)
    requires remaining >= 0
    ensures forall o :: 0 <= o < |probs| ==> Sizes(k, remaining, probs, takeRest)[o] >= 0
    ensures Total(Sizes(k, remaining, probs, takeRest)) <= remaining
    ensures takeRest && |probs| > 0 ==> Total(Sizes(k, remaining, probs, takeRest)) == remaining
  {
    if probs != [] {
      var s := Sizes(k, remaining, probs, takeRest);
      var rest := s[1..];
      SizesWithin(k, remaining - s[0], probs[1..], takeRest);
      TotalCons(s[0], rest);
      assert s == [s[0]] + rest;
    }
  }

  lemma {:induction false} TotalCons(x: int, s: seq<int>)
    ensures Total([x] + s) == x + Total(s)
  {
    if s != [] {
      assert ([x] + s)[..|s|] == [x] + s[..|s| - 1];
      TotalCons(x, s[..|s| - 1]);
    }
  }

  lemma {:induction false} TotalPrefix(s: seq<int>, n: nat)
    requires n <= |s| && forall o :: 0 <= o < |s| ==> s[o] >= 0
    ensures 0 <= Total(s[..n]) <= Total(s)
  {
    if n < |s| {
      assert s[..|s| - 1][..n] == s[..n];
      TotalPrefix(s[..|s| - 1], n);
    } else {
      assert s[..n] == s;
      TotalNonNegative(s);
    }
  }

  lemma {:induction false} TotalNonNegative(s: seq<int>)
    requires forall o :: 0 <= o < |s| ==> s[o] >= 0
    ensures Total(s) >= 0
  {
    if s != [] {
      TotalNonNegative(s[..|s| - 1]);
    }
  }

  /** Entry 2o of the ranges is object o's first column and entry 2o + 1
      its last, in uword arithmetic. */
  lemma {:induction false} RangesAt(sizes: seq<int>, o: nat)
    requires o < |sizes|
    ensures Ranges(sizes)[2 * o] == Word(Total(sizes[..o]))
    ensures Ranges(sizes)[2 * o + 1] == EndOf(Word(Total(sizes[..o])), sizes[o])
  {
    var init := sizes[..|sizes| - 1];
    if o < |sizes| - 1 {
      RangesAt(init, o);
      assert init[..o] == sizes[..o];
    } else {
      assert init == sizes[..o];
    }
  }

  /** With non-negative sizes totalling at most k columns, every object's
      first column is the number of columns before it, and a non-empty
      object's last column lies below k, one before the next object's first
      column. */
  lemma {:induction false} RangesExact(sizes: seq<int>, k: nat, o: nat)
    requires k < WordModulus && o < |sizes| && Total(sizes) <= k
    requires forall q :: 0 <= q < |sizes| ==> sizes[q] >= 0
    ensures var r := Ranges(sizes);
            r[2 * o] == Total(sizes[..o])
            && (sizes[o] > 0 ==> r[2 * o + 1] == Total(sizes[..o + 1]) - 1 < k)
            && (sizes[o] > 0 && o + 1 < |sizes| ==> r[2 * o + 2] == r[2 * o + 1] + 1)
  {
    RangesAt(sizes, o);
    TotalPrefix(sizes, o);
    TotalPrefix(sizes, o + 1);
    var t := Total(sizes[..o]);
    var p := sizes[..o + 1];
    assert p[..|p| - 1] == sizes[..o];
    assert Total(p) == t + sizes[o];
    WordSmall(t);
    if sizes[o] > 0 {
      WordSmall(t + sizes[o] - 1);
    }
    if o + 1 < |sizes| {
      RangesAt(sizes, o + 1);
      WordSmall(Total(p));
    }
  }

  /** The partition of k columns: every object's range starts where the
      previous non-empty one ended and stays below k. */
  lemma {:induction false} RangesInside(k: nat, probs: seq<real>, takeRest: bool, o: nat)
    requires k < WordModulus && o < |probs|
    ensures var sizes := Sizes(k, k, probs, takeRest);
            var r := Ranges(sizes);
            r[2 * o] == Total(sizes[..o])
            && (sizes[o] > 0 ==> r[2 * o + 1] == Total(sizes[..o + 1]) - 1 < k)
            && (sizes[o] > 0 && o + 1 < |probs| ==> r[2 * o + 2] == r[2 * o + 1] + 1)
  {
    SizesWithin(k, k, probs, takeRest);
    RangesExact(Sizes(k, k, probs, takeRest), k, o);
  }

  /** In the box variant the last object ends at column k - 1. */
  lemma {:induction false} LastRangeEnds(k: nat, probs: seq<real>)
    requires 0 < k < WordModulus && |probs| > 0
    ensures Ranges(Sizes(k, k, probs, true))[2 * |probs| - 1] == k - 1
  {
    var sizes := Sizes(k, k, probs, true);
    var n := |probs| - 1;
    SizesWithin(k, k, probs, true);
    RangesAt(sizes, n);
    var init := sizes[..n];
    assert sizes[..n + 1] == sizes;
    assert sizes[..|sizes| - 1] == init;
    assert Total(sizes) == Total(init) + sizes[n];
    TotalPrefix(sizes, n);
    WordSmall(Total(init));
    WordSmall(k - 1);
  }

  // ---------------------------------------------------------------------------
  // Truncated weighting (`calc_weighted`)

  /** `arma::median(alpha)`: the median of every column. */
  function ColMedians(alpha: Matrix, cols: nat): (m: seq<real>)
    requires Wide(alpha, cols) && |alpha| > 0
    ensures |m| == cols
  {
    seq(cols, c requires 0 <= c < cols => Median(Column(alpha, cols, c)))
  }

  function TruncatedEntry(a: real, median: real): real
  {
    if a < median then 0.0 else a
  }

  /** The responsibilities with every entry below its column median zeroed. */
  function Truncated(alpha: Matrix, cols: nat): (t: Matrix)
    requires Wide(alpha, cols) && |alpha| > 0
    ensures Shaped(t, |alpha|, cols)
  {
    var m := ColMedians(alpha, cols);
    seq(|alpha|, r requires 0 <= r < |alpha| =>
      seq(cols, c requires 0 <= c < cols => TruncatedEntry(alpha[r][c], m[c])))
  }

  /** One weighted point per column: the points weighted by the column,
      divided by the column total unless that total is 0. */
  function WeightedPoints(v: seq<Vec3>, t: Matrix, cols: nat): (w: seq<Vec3>)
    requires Shaped(t, |v|, cols)
    ensures |w| == cols
  {
    var s := ColSums(t, cols);
    seq(cols, c requires 0 <= c < cols =>
      if s[c] != 0.0 then DivVec(WeightedSum(v, Column(t, cols, c)), s[c]) else WeightedSum(v, Column(t, cols, c)))
  }

  function RawWeighted(v: seq<Vec3>, t: Matrix, cols: nat): (w: seq<Vec3>)
    requires Shaped(t, |v|, cols)
    ensures |w| == cols
  {
    seq(cols, c requires 0 <= c < cols => WeightedSum(v, Column(t, cols, c)))
  }

  /** `calc_weighted` for the points and the normals: the responsibilities
      are truncated column by column at their medians, the view is weighted
      by them, and every column with a non-zero total is divided by it; the
      weighted normals are then passed through `arma::normalise`, which is
      taken as given. */
  method CalcWeighted(vv: seq<Vec3>, vn: seq<Vec3>, alpha: Matrix, cols: nat, normalise: seq<Vec3> -> seq<Vec3>)
    returns (wv: seq<Vec3>, wn: seq<Vec3>)
    requires |alpha| > 0 && Shaped(alpha, |vv|, cols) && |vn| == |vv|
    ensures wv == WeightedPoints(vv, Truncated(alpha, cols), cols)
    ensures wn == normalise(WeightedPoints(vn, Truncated(alpha, cols), cols))
  {
    var t := TruncateColumns(alpha, cols);
    var sums := ColSums(t, cols);
    wv, wn := RawWeighted(vv, t, cols), RawWeighted(vn, t, cols);
    var c := 0;
    while c < cols
      invariant 0 <= c <= cols && |wv| == cols && |wn| == cols
      invariant forall j :: 0 <= j < cols ==>
                  wv[j] == (if j < c then WeightedPoints(vv, t, cols) else RawWeighted(vv, t, cols))[j]
      invariant forall j :: 0 <= j < cols ==>
                  wn[j] == (if j < c then WeightedPoints(vn, t, cols) else RawWeighted(vn, t, cols))[j]
    {
      if sums[c] != 0.0 {
        wv := wv[c := DivVec(wv[c], sums[c])];
        wn := wn[c := DivVec(wn[c], sums[c])];
      }
      c := c + 1;
    }
    assert wv == WeightedPoints(vv, t, cols);
    assert wn == WeightedPoints(vn, t, cols);
    wn := normalise(wn);
  }

  /** The truncation loop: column by column, entries below the column's
      median become 0. */
  method TruncateColumns(alpha: Matrix, cols: nat) returns (t: Matrix)
    requires |alpha| > 0 && Wide(alpha, cols)
    ensures t == Truncated(alpha, cols)
  {
    var medians := ColMedians(alpha, cols);
    t := alpha;
    var c := 0;
    while c < cols
      invariant 0 <= c <= cols && Shaped(t, |alpha|, cols)
      invariant forall r :: 0 <= r < |alpha| ==> t[r] == TruncatedPrefix(alpha[r], medians, c)
    {
      t := seq(|t|, r requires 0 <= r < |t| => t[r][c := TruncatedEntry(t[r][c], medians[c])]);
      c := c + 1;
    }
    assert forall r :: 0 <= r < |alpha| ==> t[r] == Truncated(alpha, cols)[r];
  }

  /** A row with its first c entries truncated at their column medians. */
  ghost function TruncatedPrefix(row: seq<real>, medians: seq<real>, c: nat): (p: seq<real>)
    requires |medians| == |row| && c <= |row|
    ensures |p| == |row|
  {
    seq(|row|, j requires 0 <= j < |row| => if j < c then TruncatedEntry(row[j], medians[j]) else row[j])
  }

  /** Every truncated entry is either the responsibility itself or 0, and it
      is 0 for exactly the entries below their column median (up to entries
      that are 0 already). */
  lemma {:induction false} TruncatedEntries(alpha: Matrix, cols: nat, r: nat, c: nat)
    requires |alpha| > 0 && Wide(alpha, cols) && r < |alpha| && c < cols
    ensures var t := Truncated(alpha, cols);
            (t[r][c] == alpha[r][c] || t[r][c] == 0.0)
            && (alpha[r][c] < ColMedians(alpha, cols)[c] ==> t[r][c] == 0.0)
            && (alpha[r][c] >= ColMedians(alpha, cols)[c] ==> t[r][c] == alpha[r][c])
  {
  }

  /** The median never exceeds a column's largest entry, so every column
      keeps at least one of its entries. */
  lemma {:induction false} TruncationKeepsAnEntry(alpha: Matrix, cols: nat, c: nat)
    requires |alpha| > 0 && Wide(alpha, cols) && c < cols
    ensures exists r :: 0 <= r < |alpha| && Truncated(alpha, cols)[r][c] == alpha[r][c]
                        && alpha[r][c] >= ColMedians(alpha, cols)[c]
  {
    var col := Column(alpha, cols, c);
    MedianBetweenElements(col);
    var r :| 0 <= r < |col| && Median(col) <= col[r];
    assert Truncated(alpha, cols)[r][c] == alpha[r][c];
  }

  /** For non-negative responsibilities, a column with a positive entry
      keeps a positive truncated total. */
  lemma {:induction false} TruncatedTotalPositive(alpha: Matrix, cols: nat, c: nat, r: nat)
    requires |alpha| > 0 && Wide(alpha, cols) && c < cols && r < |alpha|
    requires forall q, j :: 0 <= q < |alpha| && 0 <= j < cols ==> alpha[q][j] >= 0.0
    requires alpha[r][c] > 0.0
    ensures ColSums(Truncated(alpha, cols), cols)[c] > 0.0
  {
    var t := Truncated(alpha, cols);
    var col := Column(t, cols, c);
    var m := ColMedians(alpha, cols)[c];
    TruncationKeepsAnEntry(alpha, cols, c);
    var q :| 0 <= q < |alpha| && t[q][c] == alpha[q][c] && alpha[q][c] >= m;
    assert forall j :: 0 <= j < |col| ==> col[j] == t[j][c] && (col[j] == alpha[j][c] || col[j] == 0.0);
    if alpha[q][c] > 0.0 {
      ElementAtMostSum(col, q);
    } else {
      assert col[r] == alpha[r][c];
      ElementAtMostSum(col, r);
    }
  }

  /** Where the truncated total is positive, the weighted point is a true
      weighted mean: scaled back by the total it is the weighted sum. */
  lemma {:induction false} WeightedIsMean(v: seq<Vec3>, alpha: Matrix, cols: nat, c: nat, r: nat)
    requires |alpha| > 0 && Shaped(alpha, |v|, cols) && c < cols && r < |alpha|
    requires forall q, j :: 0 <= q < |alpha| && 0 <= j < cols ==> alpha[q][j] >= 0.0
    requires alpha[r][c] > 0.0
    ensures var t := Truncated(alpha, cols);
            var s := ColSums(t, cols)[c];
            s > 0.0 && Scale(s, WeightedPoints(v, t, cols)[c]) == WeightedSum(v, Column(t, cols, c))
  {
    var t := Truncated(alpha, cols);
    TruncatedTotalPositive(alpha, cols, c, r);
    var s := ColSums(t, cols)[c];
    ScaleDivVec(WeightedSum(v, Column(t, cols, c)), s);
  }

  // ---------------------------------------------------------------------------
  // Residue energy

  /** `res_energy`: the sum of squared differences of two functions of equal
      length (the source asserts the lengths agree). */
  function ResEnergy(f0: seq<real>, f1: seq<real>): (e: real)
    requires |f0| == |f1|
    ensures e >= 0.0
  {
    SquaresNonNegative(f0, f1);
    Sum(SquaredDifferences(f0, f1))
  }

  function SquaredDifferences(f0: seq<real>, f1: seq<real>): (d: seq<real>)
    requires |f0| == |f1|
    ensures |d| == |f0|
  {
    seq(|f0|, i requires 0 <= i < |f0| => Square(f0[i] - f1[i]))
  }

  lemma {:induction false} SquaresNonNegative(f0: seq<real>, f1: seq<real>)
    requires |f0| == |f1|
    ensures Sum(SquaredDifferences(f0, f1)) >= 0.0
  {
    var d := SquaredDifferences(f0, f1);
    forall j | 0 <= j < |d| ensures d[j] >= 0.0 {
      SquareNonNegative(f0[j] - f1[j]);
    }
    SumNonNegative(d);
  }

  /** The energy vanishes exactly when the two functions agree. */
  lemma {:induction false} ResEnergyZeroIff(f0: seq<real>, f1: seq<real>)
    requires |f0| == |f1|
    ensures ResEnergy(f0, f1) == 0.0 <==> f0 == f1
  {
    var d := SquaredDifferences(f0, f1);
    if f0 == f1 {
      assert Square(0.0) == 0.0;
      SumZeros(d);
    } else {
      var i :| 0 <= i < |f0| && f0[i] != f1[i];
      SquarePositive(f0[i] - f1[i]);
      forall j | 0 <= j < |d| ensures d[j] >= 0.0 {
        SquareNonNegative(f0[j] - f1[j]);
      }
      ElementAtMostSum(d, i);
      assert ResEnergy(f0, f1) == Sum(d);
    }
  }

  function Square(e: real): real
  {
    e * e
  }

  lemma {:induction false} SquarePositive(e: real)
    requires e != 0.0
    ensures Square(e) > 0.0
  {
    if e > 0.0 {
      ProductPositive(e, e, Square(e));
    } else {
      ProductPositive(-e, -e, Square(e));
    }
  }

  lemma {:induction false} SquareNonNegative(e: real)
    ensures Square(e) >= 0.0
  {
    if e != 0.0 {
      SquarePositive(e);
    }
  }

  /** The energy is symmetric in its arguments. */
  lemma {:induction false} ResEnergySymmetric(f0: seq<real>, f1: seq<real>)
    requires |f0| == |f1|
    ensures ResEnergy(f0, f1) == ResEnergy(f1, f0)
  {
    assert SquaredDifferences(f0, f1) == SquaredDifferences(f1, f0);
  }

  // ---------------------------------------------------------------------------
  // Object positions

  /** `arma::linspace(start, end, n)`: n evenly spaced values from start to
      end; a single value is `end` itself, and the last value is always
      exactly `end`. */
  function Linspace(start: real, end: real, n: nat): (z: seq<real>)
    ensures |z| == n
    ensures n > 0 ==> z[n - 1] == end
    ensures n > 1 ==> z[0] == start
  {
    if n <= 1 then seq(n, _ => end)
    else
      var delta := (end - start) / (n - 1) as real;
      StepsAt(start, delta, n - 1, 0);
      Steps(start, delta, n - 1) + [end]
  }

  /** start, start + delta, ..., m values in all. */
  function Steps(start: real, delta: real, m: nat): (z: seq<real>)
    ensures |z| == m
  {
    if m == 0 then [] else Steps(start, delta, m - 1) + [start + (m - 1) as real * delta]
  }

  lemma {:induction false} StepsAt(start: real, delta: real, m: nat, i: nat)
    requires i < m
    ensures Steps(start, delta, m)[i] == start + i as real * delta
  {
    if i < m - 1 {
      StepsAt(start, delta, m - 1, i);
    }
  }

  /** Every value, the last one included, is start plus i steps. */
  lemma {:induction false} LinspaceStep(start: real, end: real, n: nat, i: nat)
    requires 1 < n && i < n
    ensures Linspace(start, end, n)[i] == start + i as real * ((end - start) / (n - 1) as real)
  {
    var d := (end - start) / (n - 1) as real;
    if i == n - 1 {
      assert (n - 1) as real * d == end - start;
    } else {
      StepsAt(start, d, n - 1, i);
    }
  }

  /** The values rise strictly from start to end. */
  lemma {:induction false} LinspaceIncreasing(start: real, end: real, n: nat, i: nat, j: nat)
    requires start < end && i < j < n
    ensures Linspace(start, end, n)[i] < Linspace(start, end, n)[j]
  {
    var d := (end - start) / (n - 1) as real;
    LinspaceStep(start, end, n, i);
    LinspaceStep(start, end, n, j);
    assert d > 0.0;
    assert (j - i) as real * d > 0.0 by {
      ProductPositive((j - i) as real, d, (j - i) as real * d);
    }
    assert j as real * d == i as real * d + (j - i) as real * d;
  }

  /** `obj_pos_`: the objects' centres on the z axis, evenly spread from
      -(n / 2) to n / 2 in integer division. */
  function ObjectPositions(n: nat): (p: seq<Vec3>)
    ensures |p| == n
  {
    var z := Linspace(-((n / 2) as real), (n / 2) as real, n);
    seq(n, j requires 0 <= j < n => Vec3(0.0, 0.0, z[j]))
  }

  /** Two or more objects sit at distinct heights, in increasing order, and
      mirror each other about the origin. */
  lemma {:induction false} PositionsSpread(n: nat, i: nat, j: nat)
    requires 2 <= n && i < j < n
    ensures ObjectPositions(n)[i].z < ObjectPositions(n)[j].z
    ensures ObjectPositions(n)[i].z == -ObjectPositions(n)[n - 1 - i].z
  {
    var h := (n / 2) as real;
    var m := (n - 1) as real;
    var d := (h - -h) / m;
    var z := Linspace(-h, h, n);
    assert ObjectPositions(n)[i].z == z[i] && ObjectPositions(n)[j].z == z[j];
    assert ObjectPositions(n)[n - 1 - i].z == z[n - 1 - i];
    LinspaceIncreasing(-h, h, n, i, j);
    LinspaceStep(-h, h, n, i);
    LinspaceStep(-h, h, n, n - 1 - i);
    assert m * d == 2.0 * h;
    assert (n - 1 - i) as real == m - i as real;
    MirroredStep(h, m, d, i as real);
  }

  /** Steps of d from -h, with m steps spanning 2h: x steps from one end and
      m - x steps from it are mirror images. */
  lemma MirroredStep(h: real, m: real, d: real, x: real)
    requires m * d == 2.0 * h
    ensures -h + x * d == -(-h + (m - x) * d)
  {
    assert (m - x) * d == m * d - x * d;
  }
}
