/** Stage 3, the first part of CloudAnalyzer3D::saveVoxelGrids: the mean and
    spread of the non-zero point counts, and the two boolean masks drawn with
    them. Doubles are exact reals; IEEE NaN and infinities are written out. */
module Threshold {
  import opened Geometry
  import opened Grids

  /** The mean and the sample variance (sigma squared) of the non-zero point
      counts. With no non-zero count the mean is 0/0, with one the variance
      is 0/0: both leave NaN, and every comparison with NaN is false. */
  datatype ZScore = NaN | Scored(mean: real, variance: real)

  /** `(v - mean) / sigma > -1.0`, decided without the square root: above the
      mean always (with sigma = 0 the quotient is +infinity), below it when
      the distance to the mean is under sigma (with sigma = 0 it is -infinity,
      and exactly at the mean 0/0 is NaN). */
  predicate Passes(zs: ZScore, v: real) {
    zs.Scored? && (v > zs.mean || (zs.mean - v) * (zs.mean - v) < zs.variance)
  }

  function ValueField(P: Grid<int>): Index3 -> real {
    c => At(P, c, 0) as real
  }

  function NonZeroField(P: Grid<int>): Index3 -> real {
    c => if At(P, c, 0) != 0 then 1.0 else 0.0
  }

  /** (value - averageP) * (value - averageP). */
  function Square(r: real): real {
    r * r
  }

  function DeviationField(P: Grid<int>, mean: real): Index3 -> real {
    c => if At(P, c, 0) != 0 then Square(At(P, c, 0) as real - mean) else 0.0
  }

  /** The sum of the counts of the grid (zero cells add nothing). */
  function NonZeroTotal(P: Grid<int>, d: Dims): real {
    BoxSum(ValueField(P), d)
  }

  /** The number of non-zero cells of the grid. */
  function NonZeroCount(P: Grid<int>, d: Dims): real {
    BoxSum(NonZeroField(P), d)
  }

  /** The statistics of a point grid: mean over the non-zero cells, and the
      squared deviations of those cells over their number less one. */
  function GridZScore(P: Grid<int>, d: Dims): ZScore {
    var n := NonZeroCount(P, d);
    if n < 2.0 then NaN
    else
      var mean := NonZeroTotal(P, d) / n;
      Scored(mean, BoxSum(DeviationField(P, mean), d) / (n - 1.0))
  }

  /** A cell of a thresholded mask: set when its count is non-zero and passes. */
  predicate MaskCell(P: Grid<int>, zs: ZScore, c: Index3) {
    At(P, c, 0) != 0 && Passes(zs, At(P, c, 0) as real)
  }

  /** The thresholded mask of a count grid; a zero count never sets its cell. */
  function Mask(P: Grid<int>, zs: ZScore, d: Dims): (m: Grid<bool>)
    ensures Shaped(m, d)
    ensures forall c :: InBox(c, d) && At(m, c, false) ==> At(P, c, 0) != 0
  {
    var cell: Index3 -> bool := c => MaskCell(P, zs, c);
    Tabulate(d, cell)
  }

  function MaskField(P: Grid<int>, zs: ZScore): Index3 -> real {
    c => if MaskCell(P, zs, c) then 1.0 else 0.0
  }

  // ---------------------------------------------------------------------
  // The loops.

  /** The first statistics loop: the sum and the number of the non-zero counts. */
  method NonZeroMoments(grid: array3<int>) returns (total: real, count: int)
    ensures total == NonZeroTotal(Snapshot(grid), DimsOf(grid))
    ensures count as real == NonZeroCount(Snapshot(grid), DimsOf(grid))
  {
    ghost var P := Snapshot(grid);
    ghost var d := DimsOf(grid);
    ghost var fv, fn := ValueField(P), NonZeroField(P);
    total, count := 0.0, 0;
    for k := 0 to grid.Length0
      invariant total == PartialSum(fv, d, k, 0, 0)
      invariant count as real == PartialSum(fn, d, k, 0, 0)
    {
      for i := 0 to grid.Length2
        invariant total == PartialSum(fv, d, k, i, 0)
        invariant count as real == PartialSum(fn, d, k, i, 0)
      {
        total, count := MomentsColumn(grid, P, k, i, total, count);
      }
      PartialSumNextSlice(fv, d, k);
      PartialSumNextSlice(fn, d, k);
    }
    PartialSumComplete(fv, d);
    PartialSumComplete(fn, d);
  }

  /** The rows of column i in slice k added to both running sums. */
  method MomentsColumn(grid: array3<int>, ghost P: Grid<int>, k: nat, i: nat, total0: real, count0: int)
    returns (total: real, count: int)
    requires P == Snapshot(grid) && k < grid.Length0 && i < grid.Length2
    requires total0 == PartialSum(ValueField(P), DimsOf(grid), k, i, 0)
    requires count0 as real == PartialSum(NonZeroField(P), DimsOf(grid), k, i, 0)
    ensures total == PartialSum(ValueField(P), DimsOf(grid), k, i + 1, 0)
    ensures count as real == PartialSum(NonZeroField(P), DimsOf(grid), k, i + 1, 0)
  {
    ghost var d := DimsOf(grid);
    ghost var fv, fn := ValueField(P), NonZeroField(P);
    total, count := total0, count0;
    for j := 0 to grid.Length1
      invariant total == PartialSum(fv, d, k, i, j)
      invariant count as real == PartialSum(fn, d, k, i, j)
    {
      PartialSumNextRow(fv, d, k, i, j);
      PartialSumNextRow(fn, d, k, i, j);
      var value := grid[k, j, i];
      assert value == At(P, Index3(i, j, k), 0);
      assert fv(Index3(i, j, k)) == value as real;
      assert fn(Index3(i, j, k)) == if value != 0 then 1.0 else 0.0;
      if value != 0 {
        total := total + value as real;
        count := count + 1;
      }
    }
    PartialSumNextColumn(fv, d, k, i);
    PartialSumNextColumn(fn, d, k, i);
  }

  /** The second statistics loop: squared deviations of the non-zero counts from the mean. */
  method SquaredDeviations(grid: array3<int>, mean: real) returns (squares: real)
    ensures squares == BoxSum(DeviationField(Snapshot(grid), mean), DimsOf(grid))
  {
    ghost var P := Snapshot(grid);
    ghost var d := DimsOf(grid);
    ghost var f := DeviationField(P, mean);
    squares := 0.0;
    for k := 0 to grid.Length0
      invariant squares == PartialSum(f, d, k, 0, 0)
    {
      for i := 0 to grid.Length2
        invariant squares == PartialSum(f, d, k, i, 0)
      {
        squares := DeviationsColumn(grid, P, mean, k, i, squares);
      }
      PartialSumNextSlice(f, d, k);
    }
    PartialSumComplete(f, d);
  }

  /** The rows of column i in slice k added to the squared deviations. */
  method DeviationsColumn(grid: array3<int>, ghost P: Grid<int>, mean: real, k: nat, i: nat, squares0: real)
    returns (squares: real)
    requires P == Snapshot(grid) && k < grid.Length0 && i < grid.Length2
    requires squares0 == PartialSum(DeviationField(P, mean), DimsOf(grid), k, i, 0)
    ensures squares == PartialSum(DeviationField(P, mean), DimsOf(grid), k, i + 1, 0)
  {
    ghost var d := DimsOf(grid);
    ghost var f := DeviationField(P, mean);
    squares := squares0;
    for j := 0 to grid.Length1
      invariant squares == PartialSum(f, d, k, i, j)
    {
      PartialSumNextRow(f, d, k, i, j);
      var value := grid[k, j, i];
      assert value == At(P, Index3(i, j, k), 0);
      assert f(Index3(i, j, k)) == if value != 0 then Square(value as real - mean) else 0.0;
      if value != 0 {
        squares := squares + Square(value as real - mean);
      }
    }
    PartialSumNextColumn(f, d, k, i);
  }

  /** averageP and sigmaP of the point grid. */
  method PointScore(grid: array3<int>) returns (zs: ZScore)
    ensures zs == GridZScore(Snapshot(grid), DimsOf(grid))
  {
    var total, count := NonZeroMoments(grid);
    // With count == 0 the mean is NaN, but then no cell reads it.
    var mean := if count > 0 then total / count as real else 0.0;
    var squares := SquaredDeviations(grid, mean);
    if count < 2 {
      zs := NaN;
    } else {
      zs := Scored(mean, squares / (count - 1) as real);
    }
  }

  /** Both masks drawn with the point grid's statistics: the point mask with its
      number of set cells, and the free-space mask with its number. */
  method ThresholdGrids(pointGrid: array3<int>, freeSpace: array3<int>, zs: ZScore)
    returns (point: array3<bool>, free: array3<bool>, nonZeroPoint: int, numNonZeros: int)
    requires DimsOf(freeSpace) == DimsOf(pointGrid)
    ensures fresh(point) && fresh(free) && point != free
    ensures DimsOf(point) == DimsOf(free) == DimsOf(pointGrid)
    ensures Snapshot(point) == Mask(Snapshot(pointGrid), zs, DimsOf(pointGrid))
    ensures Snapshot(free) == Mask(Snapshot(freeSpace), zs, DimsOf(pointGrid))
    ensures nonZeroPoint as real == TrueCount(Snapshot(point), DimsOf(point))
    ensures numNonZeros as real == TrueCount(Snapshot(free), DimsOf(free))
    ensures nonZeroPoint == SetCount(Snapshot(point), DimsOf(point))
    ensures numNonZeros == SetCount(Snapshot(free), DimsOf(free))
  {
    var d := DimsOf(pointGrid);
    ghost var MP := Mask(Snapshot(pointGrid), zs, d);
    ghost var MF := Mask(Snapshot(freeSpace), zs, d);
    point := new bool[d.nz, d.ny, d.nx]((z, y, x) => false);
    free := new bool[d.nz, d.ny, d.nx]((z, y, x) => false);
    nonZeroPoint, numNonZeros := 0, 0;
    for k := 0 to d.nz
      invariant FilledUpTo(point, MP, d, k, 0, 0) && FilledUpTo(free, MF, d, k, 0, 0)
      invariant nonZeroPoint as real == PartialSum(TrueField(MP), d, k, 0, 0)
      invariant numNonZeros as real == PartialSum(TrueField(MF), d, k, 0, 0)
    {
      nonZeroPoint, numNonZeros := ThresholdSlice(pointGrid, freeSpace, point, free, MP, MF, zs, k, nonZeroPoint, numNonZeros);
    }
    PartialSumComplete(TrueField(MP), d);
    PartialSumComplete(TrueField(MF), d);
    FilledComplete(point, MP, d);
    FilledComplete(free, MF, d);
  }

  /** The columns of slice k, in order. */
  method ThresholdSlice(pointGrid: array3<int>, freeSpace: array3<int>, point: array3<bool>, free: array3<bool>,
                        ghost MP: Grid<bool>, ghost MF: Grid<bool>, zs: ZScore, k: nat,
                        nonZeroPoint0: int, numNonZeros0: int)
    returns (nonZeroPoint: int, numNonZeros: int)
    requires point != free
    requires DimsOf(freeSpace) == DimsOf(pointGrid) == DimsOf(point) && k < point.Length0
    requires MP == Mask(Snapshot(pointGrid), zs, DimsOf(point)) && MF == Mask(Snapshot(freeSpace), zs, DimsOf(point))
    requires FilledUpTo(point, MP, DimsOf(point), k, 0, 0) && FilledUpTo(free, MF, DimsOf(point), k, 0, 0)
    requires nonZeroPoint0 as real == PartialSum(TrueField(MP), DimsOf(point), k, 0, 0)
    requires numNonZeros0 as real == PartialSum(TrueField(MF), DimsOf(point), k, 0, 0)
    modifies point, free
    ensures FilledUpTo(point, MP, DimsOf(point), k + 1, 0, 0) && FilledUpTo(free, MF, DimsOf(point), k + 1, 0, 0)
    ensures nonZeroPoint as real == PartialSum(TrueField(MP), DimsOf(point), k + 1, 0, 0)
    ensures numNonZeros as real == PartialSum(TrueField(MF), DimsOf(point), k + 1, 0, 0)
  {
    var d := DimsOf(point);
    nonZeroPoint, numNonZeros := nonZeroPoint0, numNonZeros0;
    for i := 0 to d.nx
      invariant FilledUpTo(point, MP, d, k, i, 0) && FilledUpTo(free, MF, d, k, i, 0)
      invariant nonZeroPoint as real == PartialSum(TrueField(MP), d, k, i, 0)
      invariant numNonZeros as real == PartialSum(TrueField(MF), d, k, i, 0)
    {
      nonZeroPoint, numNonZeros := ThresholdColumn(pointGrid, freeSpace, point, free, MP, MF, zs, k, i, nonZeroPoint, numNonZeros);
    }
    FilledNextSlice(point, MP, d, k);
    FilledNextSlice(free, MF, d, k);
    PartialSumNextSlice(TrueField(MP), d, k);
    PartialSumNextSlice(TrueField(MF), d, k);
  }

  /** The cells of column i in slice k, in row order. */
  method ThresholdColumn(pointGrid: array3<int>, freeSpace: array3<int>, point: array3<bool>, free: array3<bool>,
                         ghost MP: Grid<bool>, ghost MF: Grid<bool>, zs: ZScore, k: nat, i: nat,
                         nonZeroPoint0: int, numNonZeros0: int)
    returns (nonZeroPoint: int, numNonZeros: int)
    requires point != free
    requires DimsOf(freeSpace) == DimsOf(pointGrid) == DimsOf(point) && k < point.Length0 && i < point.Length2
    requires MP == Mask(Snapshot(pointGrid), zs, DimsOf(point)) && MF == Mask(Snapshot(freeSpace), zs, DimsOf(point))
    requires FilledUpTo(point, MP, DimsOf(point), k, i, 0) && FilledUpTo(free, MF, DimsOf(point), k, i, 0)
    requires nonZeroPoint0 as real == PartialSum(TrueField(MP), DimsOf(point), k, i, 0)
    requires numNonZeros0 as real == PartialSum(TrueField(MF), DimsOf(point), k, i, 0)
    modifies point, free
    ensures FilledUpTo(point, MP, DimsOf(point), k, i + 1, 0) && FilledUpTo(free, MF, DimsOf(point), k, i + 1, 0)
    ensures nonZeroPoint as real == PartialSum(TrueField(MP), DimsOf(point), k, i + 1, 0)
    ensures numNonZeros as real == PartialSum(TrueField(MF), DimsOf(point), k, i + 1, 0)
  {
    var d := DimsOf(point);
    nonZeroPoint, numNonZeros := nonZeroPoint0, numNonZeros0;
    for j := 0 to d.ny
      invariant FilledUpTo(point, MP, d, k, i, j) && FilledUpTo(free, MF, d, k, i, j)
      invariant nonZeroPoint as real == PartialSum(TrueField(MP), d, k, i, j)
      invariant numNonZeros as real == PartialSum(TrueField(MF), d, k, i, j)
    {
      nonZeroPoint := ThresholdCell(pointGrid, point, MP, zs, k, i, j, nonZeroPoint);
      numNonZeros := ThresholdCell(freeSpace, free, MF, zs, k, i, j, numNonZeros);
    }
    FilledNextColumn(point, MP, d, k, i);
    FilledNextColumn(free, MF, d, k, i);
    PartialSumNextColumn(TrueField(MP), d, k, i);
    PartialSumNextColumn(TrueField(MF), d, k, i);
  }

  /** One cell of one mask, written only when its count is non-zero, and counted when set. */
  method ThresholdCell(grid: array3<int>, mask: array3<bool>, ghost M: Grid<bool>, zs: ZScore, k: nat, i: nat, j: nat,
                       count0: int)
    returns (count: int)
    requires DimsOf(grid) == DimsOf(mask) && M == Mask(Snapshot(grid), zs, DimsOf(mask))
    requires k < mask.Length0 && i < mask.Length2 && j < mask.Length1
    requires FilledUpTo(mask, M, DimsOf(mask), k, i, j)
    requires count0 as real == PartialSum(TrueField(M), DimsOf(mask), k, i, j)
    modifies mask
    ensures FilledUpTo(mask, M, DimsOf(mask), k, i, j + 1)
    ensures count as real == PartialSum(TrueField(M), DimsOf(mask), k, i, j + 1)
  {
    var d := DimsOf(mask);
    PartialSumNextRow(TrueField(M), d, k, i, j);
    var value := grid[k, j, i];
    var cell := M[k][j][i];
    assert cell == (value != 0 && Passes(zs, value as real));
    count := count0;
    if value != 0 {
      var passed := Passes(zs, value as real);
      FillCell(mask, M, d, k, i, j, passed);
      count := count + (if passed then 1 else 0);
    } else {
      FilledSkip(mask, M, d, k, i, j);
    }
  }

  // ---------------------------------------------------------------------
  // What the statistics and the masks guarantee.

  lemma MaskCountIsMaskField(P: Grid<int>, zs: ZScore, d: Dims)
    ensures TrueCount(Mask(P, zs, d), d) == BoxSum(MaskField(P, zs), d)
  {
    BoxSumCongruent(TrueField(Mask(P, zs, d)), MaskField(P, zs), d);
  }

  /** For sigma > 0 the square-free test is the z-score test of the source. */
  lemma PassesIsZScoreTest(mean: real, sigma: real, v: real)
    requires 0.0 < sigma
    ensures Passes(Scored(mean, sigma * sigma), v) <==> (v - mean) / sigma > -1.0
  {
    var t := (v - mean) / sigma;
    var u := t + 1.0;
    assert v - mean == t * sigma;
    assert u * sigma == sigma + (v - mean);
    FactorSign(u, sigma);
    if v <= mean {
      var e := mean - v;
      if e < sigma {
        SquareLess(e, sigma);
      } else {
        SquareAtMost(sigma, e);
      }
    }
  }

  lemma SquareLess(a: real, b: real)
    requires 0.0 <= a < b
    ensures a * a < b * b
  {
    assert a * (b - a) >= 0.0;
    assert b * (b - a) > 0.0;
  }

  lemma SquareAtMost(a: real, b: real)
    requires 0.0 <= a <= b
    ensures a * a <= b * b
  {
    assert a * (b - a) >= 0.0;
    assert b * (b - a) >= 0.0;
  }

  lemma FactorSign(a: real, b: real)
    requires 0.0 < b
    ensures 0.0 < a <==> 0.0 < a * b
  {
  }

  lemma QuotientNonNegative(a: real, b: real)
    requires 0.0 <= a && 0.0 < b
    ensures 0.0 <= a / b
  {
    var q := a / b;
    assert q * b == a;
  }

  /** Threshold monotonicity: a count above one that passes passes as well. */
  lemma PassesMonotone(zs: ZScore, v: real, w: real)
    requires Passes(zs, v) && v <= w
    ensures Passes(zs, w)
  {
    if w <= zs.mean {
      SquareAtMost(zs.mean - w, zs.mean - v);
    }
  }

  /** With the statistics fixed, raising counts (from non-negative ones) never clears a mask cell,
      so the mask's set cells can only grow in number. */
  lemma MaskMonotone(P: Grid<int>, Q: Grid<int>, zs: ZScore, d: Dims)
    requires forall c :: InBox(c, d) ==> 0 <= At(P, c, 0) <= At(Q, c, 0)
    ensures forall c :: InBox(c, d) && MaskCell(P, zs, c) ==> MaskCell(Q, zs, c)
    ensures TrueCount(Mask(P, zs, d), d) <= TrueCount(Mask(Q, zs, d), d)
  {
    forall c | InBox(c, d) && MaskCell(P, zs, c)
      ensures MaskCell(Q, zs, c)
    {
      PassesMonotone(zs, At(P, c, 0) as real, At(Q, c, 0) as real);
    }
    BoxSumMono(MaskField(P, zs), MaskField(Q, zs), d);
    MaskCountIsMaskField(P, zs, d);
    MaskCountIsMaskField(Q, zs, d);
  }

  /** A mask never sets more cells than its grid has non-zero counts. */
  lemma MaskCountBounded(P: Grid<int>, zs: ZScore, d: Dims)
    ensures 0.0 <= TrueCount(Mask(P, zs, d), d) <= NonZeroCount(P, d)
  {
    BoxSumMono(MaskField(P, zs), NonZeroField(P), d);
    BoxSumAtLeast(MaskField(P, zs), d, Index3(0, 0, 0));
    MaskCountIsMaskField(P, zs, d);
  }

  /** The spread is a sum of squares, so never negative. */
  lemma VarianceNonNegative(P: Grid<int>, d: Dims)
    requires GridZScore(P, d).Scored?
    ensures 0.0 <= GridZScore(P, d).variance
  {
    var n := NonZeroCount(P, d);
    var mean := NonZeroTotal(P, d) / n;
    forall c | InBox(c, d)
      ensures 0.0 <= DeviationField(P, mean)(c)
    {
      var e := At(P, c, 0) as real - mean;
      assert 0.0 <= e * e;
    }
    BoxSumAtLeast(DeviationField(P, mean), d, Index3(0, 0, 0));
    QuotientNonNegative(BoxSum(DeviationField(P, mean), d), n - 1.0);
  }

  /** Undefined statistics (0/0) set no cell of either mask. */
  lemma NaNMasksNothing(Q: Grid<int>, d: Dims)
    ensures TrueCount(Mask(Q, NaN, d), d) == 0.0
  {
    BoxSumZero(MaskField(Q, NaN), d);
    MaskCountIsMaskField(Q, NaN, d);
  }

  /** The degenerate path of an all-zero point grid: countP is 0, the mean is
      0/0, and neither mask sets a cell, not even where the free-space grid
      has counts. */
  lemma EmptyPointGridMasksNothing(P: Grid<int>, F: Grid<int>, d: Dims)
    requires forall c :: InBox(c, d) ==> At(P, c, 0) == 0
    ensures NonZeroCount(P, d) == 0.0
    ensures GridZScore(P, d) == NaN
    ensures TrueCount(Mask(P, GridZScore(P, d), d), d) == 0.0
    ensures TrueCount(Mask(F, GridZScore(P, d), d), d) == 0.0
  {
    BoxSumZero(NonZeroField(P), d);
    NaNMasksNothing(P, d);
    NaNMasksNothing(F, d);
  }

  /** Two or more non-zero voxels, all with the same count v: the mean is v and
      sigma is 0, so every point cell computes (v - v) / 0 = NaN and the point
      mask is empty. */
  lemma UniformCountsMaskNothing(P: Grid<int>, d: Dims, v: int)
    requires v != 0
    requires forall c :: InBox(c, d) ==> At(P, c, 0) == 0 || At(P, c, 0) == v
    requires 2.0 <= NonZeroCount(P, d)
    ensures GridZScore(P, d) == Scored(v as real, 0.0)
    ensures forall c :: InBox(c, d) ==> !At(Mask(P, GridZScore(P, d), d), c, false)
    ensures TrueCount(Mask(P, GridZScore(P, d), d), d) == 0.0
  {
    var n := NonZeroCount(P, d);
    BoxSumScale(NonZeroField(P), ValueField(P), d, v as real);
    assert NonZeroTotal(P, d) / n == v as real;
    BoxSumZero(DeviationField(P, v as real), d);
    var zs := GridZScore(P, d);
    assert zs == Scored(v as real, 0.0);
    BoxSumZero(MaskField(P, zs), d);
    MaskCountIsMaskField(P, zs, d);
  }

  /** One non-zero voxel: the variance is 0/0 and the statistics are undefined. */
  lemma LoneVoxelHasNoScore(P: Grid<int>, d: Dims, s0: Index3)
    requires InBox(s0, d) && At(P, s0, 0) != 0
    requires forall c :: InBox(c, d) && c != s0 ==> At(P, c, 0) == 0
    ensures NonZeroCount(P, d) == 1.0
    ensures GridZScore(P, d) == NaN
  {
    var none: Index3 -> real := c => 0.0;
    BoxSumZero(none, d);
    BoxSumBump(none, NonZeroField(P), d, s0, 1.0);
  }
}
