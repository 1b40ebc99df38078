/** Voxel grids as values, and sums over a grid's box of cells taken in the
    order the carving loops visit them: slice z outermost, then column x,
    then row y. */
module Grids {
  import opened Geometry

  /** Grid extents: nx columns, ny rows, nz slices. */
  datatype Dims = Dims(nx: nat, ny: nat, nz: nat)

  predicate InBox(c: Index3, d: Dims) {
    0 <= c.x < d.nx && 0 <= c.y < d.ny && 0 <= c.z < d.nz
  }

  /** A grid value g[z][y][x]: one matrix per slice, as std::vector<Eigen::Matrix>
      indexed [z](y, x). */
  type Grid<T> = seq<seq<seq<T>>>

  ghost predicate Shaped<T>(g: Grid<T>, d: Dims) {
    && |g| == d.nz
    && (forall z :: 0 <= z < |g| ==> |g[z]| == d.ny)
    && (forall z, y :: 0 <= z < |g| && 0 <= y < |g[z]| ==> |g[z][y]| == d.nx)
  }

  function DimsOf<T>(a: array3<T>): Dims {
    Dims(a.Length2, a.Length1, a.Length0)
  }

  /** The cell c of g, or `default` outside g. */
  function At<T>(g: Grid<T>, c: Index3, default: T): T {
    if 0 <= c.z < |g| && 0 <= c.y < |g[c.z]| && 0 <= c.x < |g[c.z][c.y]|
    then g[c.z][c.y][c.x] else default
  }

  /** The grid whose cell c is f(c). */
  function Tabulate<T>(d: Dims, f: Index3 -> T): (g: Grid<T>)
    ensures Shaped(g, d)
    ensures forall z, y, x :: 0 <= z < d.nz && 0 <= y < d.ny && 0 <= x < d.nx ==>
      g[z][y][x] == f(Index3(x, y, z))
  {
    seq(d.nz, z => seq(d.ny, y => seq(d.nx, x => f(Index3(x, y, z)))))
  }

  /** The current contents of an array as a grid value. */
  function Snapshot<T>(a: array3<T>): (g: Grid<T>)
    reads a
    ensures Shaped(g, DimsOf(a))
    ensures forall z, y, x :: 0 <= z < a.Length0 && 0 <= y < a.Length1 && 0 <= x < a.Length2 ==>
      g[z][y][x] == a[z, y, x]
  {
    seq(a.Length0, z requires 0 <= z < a.Length0 reads a =>
      seq(a.Length1, y requires 0 <= y < a.Length1 reads a =>
        seq(a.Length2, x requires 0 <= x < a.Length2 reads a => a[z, y, x])))
  }

  /** Two grids of one shape with the same cells are the same grid. */
  lemma GridExt<T>(g: Grid<T>, h: Grid<T>, d: Dims)
    requires Shaped(g, d) && Shaped(h, d)
    requires forall z, y, x :: 0 <= z < d.nz && 0 <= y < d.ny && 0 <= x < d.nx ==>
      g[z][y][x] == h[z][y][x]
    ensures g == h
  {
    forall z | 0 <= z < d.nz
      ensures g[z] == h[z]
    {
      forall y | 0 <= y < d.ny
        ensures g[z][y] == h[z][y]
      {
        assert |g[z][y]| == |h[z][y]| == d.nx;
      }
      assert |g[z]| == |h[z]|;
    }
  }

  /** The cells of `a` visited before (x, y, z) hold those of M; the rest still hold false. */
  ghost predicate FilledUpTo(a: array3<bool>, M: Grid<bool>, d: Dims, z: nat, x: nat, y: nat)
    reads a
  {
    && DimsOf(a) == d
    && Shaped(M, d)
    && forall k, j, i :: 0 <= k < d.nz && 0 <= j < d.ny && 0 <= i < d.nx ==>
         a[k, j, i] == (Visited(Index3(i, j, k), z, x, y) && M[k][j][i])
  }

  /** Writing M's value into the next cell in visiting order extends the filled prefix by one. */
  method FillCell(a: array3<bool>, ghost M: Grid<bool>, ghost d: Dims, k: nat, i: nat, j: nat, v: bool)
    requires FilledUpTo(a, M, d, k, i, j) && k < d.nz && i < d.nx && j < d.ny
    requires v == M[k][j][i]
    modifies a
    ensures FilledUpTo(a, M, d, k, i, j + 1)
  {
    label before:
    a[k, j, i] := v;
    forall z, y, x | 0 <= z < d.nz && 0 <= y < d.ny && 0 <= x < d.nx
      ensures a[z, y, x] == (Visited(Index3(x, y, z), k, i, j + 1) && M[z][y][x])
    {
      if z != k || y != j || x != i {
        assert a[z, y, x] == old@before(a[z, y, x]);
      }
    }
  }

  /** A cell that M leaves false is already right: it needs no write. */
  lemma FilledSkip(a: array3<bool>, M: Grid<bool>, d: Dims, k: nat, i: nat, j: nat)
    requires FilledUpTo(a, M, d, k, i, j) && k < d.nz && i < d.nx && j < d.ny
    requires !M[k][j][i]
    ensures FilledUpTo(a, M, d, k, i, j + 1)
  {
  }

  lemma FilledNextColumn(a: array3<bool>, M: Grid<bool>, d: Dims, k: nat, i: nat)
    requires FilledUpTo(a, M, d, k, i, d.ny)
    ensures FilledUpTo(a, M, d, k, i + 1, 0)
  {
  }

  lemma FilledNextSlice(a: array3<bool>, M: Grid<bool>, d: Dims, k: nat)
    requires FilledUpTo(a, M, d, k, d.nx, 0)
    ensures FilledUpTo(a, M, d, k + 1, 0, 0)
  {
  }

  /** Once every cell is visited the array holds the grid. */
  lemma FilledComplete(a: array3<bool>, M: Grid<bool>, d: Dims)
    requires FilledUpTo(a, M, d, d.nz, 0, 0)
    ensures Snapshot(a) == M
  {
    GridExt(Snapshot(a), M, d);
  }

  // ---------------------------------------------------------------------
  // Sums over a box of cells, layered as the loops `for z { for x { for y } }`.

  /** f summed over rows 0 .. n-1 of column x in slice z. */
  function ColumnSum(f: Index3 -> real, x: int, z: int, n: nat): real {
    if n == 0 then 0.0 else ColumnSum(f, x, z, n - 1) + f(Index3(x, n - 1, z))
  }

  /** f summed over columns 0 .. m-1 of slice z. */
  function SliceSum(f: Index3 -> real, d: Dims, z: int, m: nat): real {
    if m == 0 then 0.0 else SliceSum(f, d, z, m - 1) + ColumnSum(f, m - 1, z, d.ny)
  }

  /** f summed over slices 0 .. p-1. */
  function SlabSum(f: Index3 -> real, d: Dims, p: nat): real {
    if p == 0 then 0.0 else SlabSum(f, d, p - 1) + SliceSum(f, d, p - 1, d.nx)
  }

  /** f summed over every cell of the box d. */
  function BoxSum(f: Index3 -> real, d: Dims): real {
    SlabSum(f, d, d.nz)
  }

  /** f summed over the cells the loops have visited before cell (x, y, z). */
  function PartialSum(f: Index3 -> real, d: Dims, z: nat, x: nat, y: nat): real {
    SlabSum(f, d, z) + SliceSum(f, d, z, x) + ColumnSum(f, x, z, y)
  }

  lemma PartialSumNextRow(f: Index3 -> real, d: Dims, z: nat, x: nat, y: nat)
    ensures PartialSum(f, d, z, x, y + 1) == PartialSum(f, d, z, x, y) + f(Index3(x, y, z))
  {
  }

  lemma PartialSumNextColumn(f: Index3 -> real, d: Dims, z: nat, x: nat)
    ensures PartialSum(f, d, z, x, d.ny) == PartialSum(f, d, z, x + 1, 0)
  {
  }

  lemma PartialSumNextSlice(f: Index3 -> real, d: Dims, z: nat)
    ensures PartialSum(f, d, z, d.nx, 0) == PartialSum(f, d, z + 1, 0, 0)
  {
  }

  lemma PartialSumComplete(f: Index3 -> real, d: Dims)
    ensures PartialSum(f, d, d.nz, 0, 0) == BoxSum(f, d)
  {
  }

  /** Cell c comes before cell (x, y, z) in the slice, column, row loop order. */
  predicate Visited(c: Index3, z: int, x: int, y: int) {
    c.z < z || (c.z == z && (c.x < x || (c.x == x && c.y < y)))
  }

  /** Weight one on the set cells of a boolean grid. */
  function TrueField(g: Grid<bool>): Index3 -> real {
    c => if At(g, c, false) then 1.0 else 0.0
  }

  /** The number of set cells of a boolean grid within the box d. */
  function TrueCount(g: Grid<bool>, d: Dims): real {
    BoxSum(TrueField(g), d)
  }

  /** Set cells over rows 0 .. n-1 of column x in slice z, counted in integers. */
  function ColumnCount(g: Grid<bool>, x: int, z: int, n: nat): nat {
    if n == 0 then 0 else ColumnCount(g, x, z, n - 1) + (if At(g, Index3(x, n - 1, z), false) then 1 else 0)
  }

  /** Set cells over columns 0 .. m-1 of slice z. */
  function SliceCount(g: Grid<bool>, d: Dims, z: int, m: nat): nat {
    if m == 0 then 0 else SliceCount(g, d, z, m - 1) + ColumnCount(g, m - 1, z, d.ny)
  }

  /** Set cells over slices 0 .. p-1. */
  function SlabCount(g: Grid<bool>, d: Dims, p: nat): nat {
    if p == 0 then 0 else SlabCount(g, d, p - 1) + SliceCount(g, d, p - 1, d.nx)
  }

  /** The number of set cells of a boolean grid within the box d, as a natural
      number: the real-valued count the loops accumulate is always integral. */
  function SetCount(g: Grid<bool>, d: Dims): (n: nat)
    ensures n as real == TrueCount(g, d)
  {
    SlabCountIsSum(g, d, d.nz);
    SlabCount(g, d, d.nz)
  }

  lemma {:induction false} ColumnCountIsSum(g: Grid<bool>, x: int, z: int, n: nat)
    ensures ColumnCount(g, x, z, n) as real == ColumnSum(TrueField(g), x, z, n)
  {
    if n > 0 {
      ColumnCountIsSum(g, x, z, n - 1);
    }
  }

  lemma {:induction false} SliceCountIsSum(g: Grid<bool>, d: Dims, z: int, m: nat)
    ensures SliceCount(g, d, z, m) as real == SliceSum(TrueField(g), d, z, m)
  {
    if m > 0 {
      SliceCountIsSum(g, d, z, m - 1);
      ColumnCountIsSum(g, m - 1, z, d.ny);
    }
  }

  lemma {:induction false} SlabCountIsSum(g: Grid<bool>, d: Dims, p: nat)
    ensures SlabCount(g, d, p) as real == SlabSum(TrueField(g), d, p)
  {
    if p > 0 {
      SlabCountIsSum(g, d, p - 1);
      SliceCountIsSum(g, d, p - 1, d.nx);
    }
  }

  ghost predicate NonNegativeOn(f: Index3 -> real, d: Dims) {
    forall c :: InBox(c, d) ==> 0.0 <= f(c)
  }

  // Monotonicity.

  lemma {:induction false} ColumnSumMono(f: Index3 -> real, g: Index3 -> real, d: Dims, x: int, z: int, n: nat)
    requires 0 <= x < d.nx && 0 <= z < d.nz && n <= d.ny
    requires forall c :: InBox(c, d) ==> f(c) <= g(c)
    ensures ColumnSum(f, x, z, n) <= ColumnSum(g, x, z, n)
  {
    if n > 0 {
      ColumnSumMono(f, g, d, x, z, n - 1);
      assert InBox(Index3(x, n - 1, z), d);
    }
  }

  lemma {:induction false} SliceSumMono(f: Index3 -> real, g: Index3 -> real, d: Dims, z: int, m: nat)
    requires 0 <= z < d.nz && m <= d.nx
    requires forall c :: InBox(c, d) ==> f(c) <= g(c)
    ensures SliceSum(f, d, z, m) <= SliceSum(g, d, z, m)
  {
    if m > 0 {
      SliceSumMono(f, g, d, z, m - 1);
      ColumnSumMono(f, g, d, m - 1, z, d.ny);
    }
  }

  lemma {:induction false} SlabSumMono(f: Index3 -> real, g: Index3 -> real, d: Dims, p: nat)
    requires p <= d.nz
    requires forall c :: InBox(c, d) ==> f(c) <= g(c)
    ensures SlabSum(f, d, p) <= SlabSum(g, d, p)
  {
    if p > 0 {
      SlabSumMono(f, g, d, p - 1);
      SliceSumMono(f, g, d, p - 1, d.nx);
    }
  }

  /** A pointwise smaller weight has a smaller sum. */
  lemma BoxSumMono(f: Index3 -> real, g: Index3 -> real, d: Dims)
    requires forall c :: InBox(c, d) ==> f(c) <= g(c)
    ensures BoxSum(f, d) <= BoxSum(g, d)
  {
    SlabSumMono(f, g, d, d.nz);
  }

  /** Weights that agree on the box have the same sum. */
  lemma BoxSumCongruent(f: Index3 -> real, g: Index3 -> real, d: Dims)
    requires forall c :: InBox(c, d) ==> f(c) == g(c)
    ensures BoxSum(f, d) == BoxSum(g, d)
  {
    BoxSumMono(f, g, d);
    BoxSumMono(g, f, d);
  }

  // A single cell changed by delta.

  lemma {:induction false} ColumnSumBump(f: Index3 -> real, g: Index3 -> real, d: Dims, x: int, z: int, n: nat, c0: Index3, delta: real)
    requires 0 <= x < d.nx && 0 <= z < d.nz && n <= d.ny
    requires forall c :: InBox(c, d) ==> g(c) == f(c) + (if c == c0 then delta else 0.0)
    ensures ColumnSum(g, x, z, n) == ColumnSum(f, x, z, n) + (if c0.x == x && c0.z == z && 0 <= c0.y < n then delta else 0.0)
  {
    if n > 0 {
      ColumnSumBump(f, g, d, x, z, n - 1, c0, delta);
      assert InBox(Index3(x, n - 1, z), d);
    }
  }

  lemma {:induction false} SliceSumBump(f: Index3 -> real, g: Index3 -> real, d: Dims, z: int, m: nat, c0: Index3, delta: real)
    requires 0 <= z < d.nz && m <= d.nx
    requires forall c :: InBox(c, d) ==> g(c) == f(c) + (if c == c0 then delta else 0.0)
    ensures SliceSum(g, d, z, m) == SliceSum(f, d, z, m) + (if c0.z == z && 0 <= c0.x < m && 0 <= c0.y < d.ny then delta else 0.0)
  {
    if m > 0 {
      SliceSumBump(f, g, d, z, m - 1, c0, delta);
      ColumnSumBump(f, g, d, m - 1, z, d.ny, c0, delta);
    }
  }

  lemma {:induction false} SlabSumBump(f: Index3 -> real, g: Index3 -> real, d: Dims, p: nat, c0: Index3, delta: real)
    requires p <= d.nz
    requires forall c :: InBox(c, d) ==> g(c) == f(c) + (if c == c0 then delta else 0.0)
    ensures SlabSum(g, d, p) == SlabSum(f, d, p) + (if 0 <= c0.z < p && 0 <= c0.x < d.nx && 0 <= c0.y < d.ny then delta else 0.0)
  {
    if p > 0 {
      SlabSumBump(f, g, d, p - 1, c0, delta);
      SliceSumBump(f, g, d, p - 1, d.nx, c0, delta);
    }
  }

  /** Changing one cell's weight by delta changes the sum by delta, if the cell is in the box. */
  lemma BoxSumBump(f: Index3 -> real, g: Index3 -> real, d: Dims, c0: Index3, delta: real)
    requires forall c :: InBox(c, d) ==> g(c) == f(c) + (if c == c0 then delta else 0.0)
    ensures BoxSum(g, d) == BoxSum(f, d) + (if InBox(c0, d) then delta else 0.0)
  {
    SlabSumBump(f, g, d, d.nz, c0, delta);
  }

  // Scaling by a constant.

  lemma {:induction false} ColumnSumZero(f: Index3 -> real, d: Dims, x: int, z: int, n: nat)
    requires 0 <= x < d.nx && 0 <= z < d.nz && n <= d.ny
    requires forall c :: InBox(c, d) ==> f(c) == 0.0
    ensures ColumnSum(f, x, z, n) == 0.0
  {
    if n > 0 {
      ColumnSumZero(f, d, x, z, n - 1);
      assert InBox(Index3(x, n - 1, z), d);
    }
  }

  lemma {:induction false} SliceSumZero(f: Index3 -> real, d: Dims, z: int, m: nat)
    requires 0 <= z < d.nz && m <= d.nx
    requires forall c :: InBox(c, d) ==> f(c) == 0.0
    ensures SliceSum(f, d, z, m) == 0.0
  {
    if m > 0 {
      SliceSumZero(f, d, z, m - 1);
      ColumnSumZero(f, d, m - 1, z, d.ny);
    }
  }

  lemma {:induction false} SlabSumZero(f: Index3 -> real, d: Dims, p: nat)
    requires p <= d.nz
    requires forall c :: InBox(c, d) ==> f(c) == 0.0
    ensures SlabSum(f, d, p) == 0.0
  {
    if p > 0 {
      SlabSumZero(f, d, p - 1);
      SliceSumZero(f, d, p - 1, d.nx);
    }
  }

  /** A weight that vanishes on the box sums to zero. */
  lemma BoxSumZero(f: Index3 -> real, d: Dims)
    requires forall c :: InBox(c, d) ==> f(c) == 0.0
    ensures BoxSum(f, d) == 0.0
  {
    SlabSumZero(f, d, d.nz);
  }

  lemma {:induction false} ColumnSumScale(f: Index3 -> real, g: Index3 -> real, d: Dims, k: real, x: int, z: int, n: nat)
    requires 0 <= x < d.nx && 0 <= z < d.nz && n <= d.ny
    requires forall c :: InBox(c, d) ==> g(c) == k * f(c)
    ensures ColumnSum(g, x, z, n) == k * ColumnSum(f, x, z, n)
  {
    if n > 0 {
      ColumnSumScale(f, g, d, k, x, z, n - 1);
      assert InBox(Index3(x, n - 1, z), d);
      var a, e := ColumnSum(f, x, z, n - 1), f(Index3(x, n - 1, z));
      assert ColumnSum(g, x, z, n) == k * a + k * e;
      assert ColumnSum(f, x, z, n) == a + e;
      assert k * a + k * e == k * (a + e);
    }
  }

  lemma {:induction false} SliceSumScale(f: Index3 -> real, g: Index3 -> real, d: Dims, k: real, z: int, m: nat)
    requires 0 <= z < d.nz && m <= d.nx
    requires forall c :: InBox(c, d) ==> g(c) == k * f(c)
    ensures SliceSum(g, d, z, m) == k * SliceSum(f, d, z, m)
  {
    if m > 0 {
      SliceSumScale(f, g, d, k, z, m - 1);
      ColumnSumScale(f, g, d, k, m - 1, z, d.ny);
      var a, e := SliceSum(f, d, z, m - 1), ColumnSum(f, m - 1, z, d.ny);
      assert SliceSum(g, d, z, m) == k * a + k * e;
      assert SliceSum(f, d, z, m) == a + e;
      assert k * a + k * e == k * (a + e);
    }
  }

  lemma {:induction false} SlabSumScale(f: Index3 -> real, g: Index3 -> real, d: Dims, k: real, p: nat)
    requires p <= d.nz
    requires forall c :: InBox(c, d) ==> g(c) == k * f(c)
    ensures SlabSum(g, d, p) == k * SlabSum(f, d, p)
  {
    if p > 0 {
      SlabSumScale(f, g, d, k, p - 1);
      SliceSumScale(f, g, d, k, p - 1, d.nx);
      var a, e := SlabSum(f, d, p - 1), SliceSum(f, d, p - 1, d.nx);
      assert SlabSum(g, d, p) == k * a + k * e;
      assert SlabSum(f, d, p) == a + e;
      assert k * a + k * e == k * (a + e);
    }
  }

  /** A weight k times another on the box sums to k times its sum. */
  lemma BoxSumScale(f: Index3 -> real, g: Index3 -> real, d: Dims, k: real)
    requires forall c :: InBox(c, d) ==> g(c) == k * f(c)
    ensures BoxSum(g, d) == k * BoxSum(f, d)
  {
    SlabSumScale(f, g, d, k, d.nz);
  }

  // Non-negative weights: the sum dominates every cell.

  lemma {:induction false} ColumnSumAtLeast(f: Index3 -> real, d: Dims, x: int, z: int, n: nat, c0: Index3)
    requires 0 <= x < d.nx && 0 <= z < d.nz && n <= d.ny
    requires NonNegativeOn(f, d)
    ensures 0.0 <= ColumnSum(f, x, z, n)
    ensures c0.x == x && c0.z == z && 0 <= c0.y < n ==> f(c0) <= ColumnSum(f, x, z, n)
  {
    if n > 0 {
      ColumnSumAtLeast(f, d, x, z, n - 1, c0);
      assert InBox(Index3(x, n - 1, z), d);
    }
  }

  lemma {:induction false} SliceSumAtLeast(f: Index3 -> real, d: Dims, z: int, m: nat, c0: Index3)
    requires 0 <= z < d.nz && m <= d.nx
    requires NonNegativeOn(f, d)
    ensures 0.0 <= SliceSum(f, d, z, m)
    ensures c0.z == z && 0 <= c0.x < m && 0 <= c0.y < d.ny ==> f(c0) <= SliceSum(f, d, z, m)
  {
    if m > 0 {
      SliceSumAtLeast(f, d, z, m - 1, c0);
      ColumnSumAtLeast(f, d, m - 1, z, d.ny, c0);
    }
  }

  lemma {:induction false} SlabSumAtLeast(f: Index3 -> real, d: Dims, p: nat, c0: Index3)
    requires p <= d.nz
    requires NonNegativeOn(f, d)
    ensures 0.0 <= SlabSum(f, d, p)
    ensures 0 <= c0.z < p && 0 <= c0.x < d.nx && 0 <= c0.y < d.ny ==> f(c0) <= SlabSum(f, d, p)
  {
    if p > 0 {
      SlabSumAtLeast(f, d, p - 1, c0);
      SliceSumAtLeast(f, d, p - 1, d.nx, c0);
    }
  }

  /** A non-negative weight has a non-negative sum that is at least its weight at any one cell. */
  lemma BoxSumAtLeast(f: Index3 -> real, d: Dims, c0: Index3)
    requires NonNegativeOn(f, d)
    ensures 0.0 <= BoxSum(f, d)
    ensures InBox(c0, d) ==> f(c0) <= BoxSum(f, d)
  {
    SlabSumAtLeast(f, d, d.nz, c0);
  }
}
