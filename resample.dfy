/** Stage 4 of CloudAnalyzer3D::saveVoxelGrids: each rotation resamples both
    masks into an enlarged square grid, pulling every destination voxel back
    through one shared map to the voxel it is copied from. */
module Resample {
  import opened Geometry
  import opened Grids

  /** The enlarged extents: newRows = newCols = int(sqrt(2) * max(y, x)), wide
      enough for any rotation about z of the original slices; z is kept. */
  function EnlargedDims(d: Dims): (nd: Dims)
    ensures nd.nz == d.nz && nd.nx == nd.ny
    ensures d.nx <= nd.nx && d.ny <= nd.ny
  {
    var m := if d.ny > d.nx then d.ny else d.nx;
    DiagonalSideCovers(m);
    Dims(DiagonalSide(m), DiagonalSide(m), d.nz)
  }

  /** `int dX = (newCols - x) / 2.0`: half the added width, truncated. */
  function Margin(wide: int, narrow: int): (margin: int)
    ensures narrow <= wide ==> 0 <= margin && 2 * margin <= wide - narrow < 2 * margin + 2
  {
    Trunc((wide - narrow) as real / 2.0)
  }

  /** The map shared by the point and the free-space grid of one rotation:
      destination voxel (i, j, k) reads the source at R * ((i, j, k) - newZZ) + zeroZeroD. */
  datatype Rotation = Rotation(rot: Mat3, newZZ: Vec3, zeroZeroD: Vec3)

  /** The rotation about the shifted origin newZZ = zeroZeroD + (dX, dY, 0). */
  function Centered(rot: Mat3, zeroZeroD: Vec3, dX: int, dY: int): Rotation {
    Rotation(rot, Add(zeroZeroD, Vec3(dX as real, dY as real, 0.0)), zeroZeroD)
  }

  function SourceOf(m: Rotation, c: Index3): Vec3 {
    Add(Apply(m.rot, Sub(ToVec(c), m.newZZ)), m.zeroZeroD)
  }

  /** The range test on the unrounded source point, as done in double precision. */
  predicate InSource(s: Vec3, d: Dims) {
    0.0 <= s.x < d.nx as real && 0.0 <= s.y < d.ny as real && 0.0 <= s.z < d.nz as real
  }

  /** The voxel read for a source point: each coordinate converted to an index. */
  function SourceCell(s: Vec3): Index3 {
    Index3(Trunc(s.x), Trunc(s.y), Trunc(s.z))
  }

  lemma SourceCellInBox(s: Vec3, d: Dims)
    requires InSource(s, d)
    ensures InBox(SourceCell(s), d)
  {
  }

  /** A destination voxel: the source voxel's value when the source point is in range, false otherwise. */
  predicate RotatedCell(G: Grid<bool>, d: Dims, m: Rotation, c: Index3) {
    var s := SourceOf(m, c);
    InSource(s, d) && At(G, SourceCell(s), false)
  }

  /** The resampled grid of extents nd; a set destination voxel always has an in-range set source voxel. */
  function Rotated(G: Grid<bool>, d: Dims, nd: Dims, m: Rotation): (r: Grid<bool>)
    ensures Shaped(r, nd)
    ensures forall c :: InBox(c, nd) && At(r, c, false) ==>
      InBox(SourceCell(SourceOf(m, c)), d) && At(G, SourceCell(SourceOf(m, c)), false)
  {
    var cell: Index3 -> bool := c => RotatedCell(G, d, m, c);
    Tabulate(nd, cell)
  }

  /** Both grids of one rotation, resampled under the same map: slice, then
      column, then row; a voxel whose source is out of range stays false. */
  method ResampleGrids(point: array3<bool>, free: array3<bool>, m: Rotation, nd: Dims)
    returns (rotatedPoint: array3<bool>, rotatedFree: array3<bool>)
    requires DimsOf(point) == DimsOf(free)
    ensures fresh(rotatedPoint) && fresh(rotatedFree) && rotatedPoint != rotatedFree
    ensures DimsOf(rotatedPoint) == DimsOf(rotatedFree) == nd
    ensures Snapshot(rotatedPoint) == Rotated(Snapshot(point), DimsOf(point), nd, m)
    ensures Snapshot(rotatedFree) == Rotated(Snapshot(free), DimsOf(point), nd, m)
  {
    ghost var RP := Rotated(Snapshot(point), DimsOf(point), nd, m);
    ghost var RF := Rotated(Snapshot(free), DimsOf(point), nd, m);
    rotatedFree := new bool[nd.nz, nd.ny, nd.nx]((z, y, x) => false);
    rotatedPoint := new bool[nd.nz, nd.ny, nd.nx]((z, y, x) => false);
    for k := 0 to nd.nz
      invariant FilledUpTo(rotatedPoint, RP, nd, k, 0, 0) && FilledUpTo(rotatedFree, RF, nd, k, 0, 0)
    {
      ResampleSlice(point, free, rotatedPoint, rotatedFree, RP, RF, m, k);
    }
    FilledComplete(rotatedPoint, RP, nd);
    FilledComplete(rotatedFree, RF, nd);
  }

  method ResampleSlice(point: array3<bool>, free: array3<bool>, rotatedPoint: array3<bool>, rotatedFree: array3<bool>,
                       ghost RP: Grid<bool>, ghost RF: Grid<bool>, m: Rotation, k: nat)
    requires rotatedPoint != rotatedFree && DimsOf(point) == DimsOf(free)
    requires point != rotatedPoint && point != rotatedFree && free != rotatedPoint && free != rotatedFree
    requires DimsOf(rotatedPoint) == DimsOf(rotatedFree) && k < rotatedPoint.Length0
    requires RP == Rotated(Snapshot(point), DimsOf(point), DimsOf(rotatedPoint), m)
    requires RF == Rotated(Snapshot(free), DimsOf(point), DimsOf(rotatedPoint), m)
    requires FilledUpTo(rotatedPoint, RP, DimsOf(rotatedPoint), k, 0, 0) && FilledUpTo(rotatedFree, RF, DimsOf(rotatedPoint), k, 0, 0)
    modifies rotatedPoint, rotatedFree
    ensures FilledUpTo(rotatedPoint, RP, DimsOf(rotatedPoint), k + 1, 0, 0)
    ensures FilledUpTo(rotatedFree, RF, DimsOf(rotatedPoint), k + 1, 0, 0)
  {
    var nd := DimsOf(rotatedPoint);
    for i := 0 to nd.nx
      invariant FilledUpTo(rotatedPoint, RP, nd, k, i, 0) && FilledUpTo(rotatedFree, RF, nd, k, i, 0)
    {
      ResampleColumn(point, free, rotatedPoint, rotatedFree, RP, RF, m, k, i);
    }
    FilledNextSlice(rotatedPoint, RP, nd, k);
    FilledNextSlice(rotatedFree, RF, nd, k);
  }

  method ResampleColumn(point: array3<bool>, free: array3<bool>, rotatedPoint: array3<bool>, rotatedFree: array3<bool>,
                        ghost RP: Grid<bool>, ghost RF: Grid<bool>, m: Rotation, k: nat, i: nat)
    requires rotatedPoint != rotatedFree && DimsOf(point) == DimsOf(free)
    requires point != rotatedPoint && point != rotatedFree && free != rotatedPoint && free != rotatedFree
    requires DimsOf(rotatedPoint) == DimsOf(rotatedFree) && k < rotatedPoint.Length0 && i < rotatedPoint.Length2
    requires RP == Rotated(Snapshot(point), DimsOf(point), DimsOf(rotatedPoint), m)
    requires RF == Rotated(Snapshot(free), DimsOf(point), DimsOf(rotatedPoint), m)
    requires FilledUpTo(rotatedPoint, RP, DimsOf(rotatedPoint), k, i, 0) && FilledUpTo(rotatedFree, RF, DimsOf(rotatedPoint), k, i, 0)
    modifies rotatedPoint, rotatedFree
    ensures FilledUpTo(rotatedPoint, RP, DimsOf(rotatedPoint), k, i + 1, 0)
    ensures FilledUpTo(rotatedFree, RF, DimsOf(rotatedPoint), k, i + 1, 0)
  {
    var nd := DimsOf(rotatedPoint);
    for j := 0 to nd.ny
      invariant FilledUpTo(rotatedPoint, RP, nd, k, i, j) && FilledUpTo(rotatedFree, RF, nd, k, i, j)
    {
      ResampleCell(point, free, rotatedPoint, rotatedFree, RP, RF, m, k, i, j);
    }
    FilledNextColumn(rotatedPoint, RP, nd, k, i);
    FilledNextColumn(rotatedFree, RF, nd, k, i);
  }

  /** One destination voxel of both grids. */
  method ResampleCell(point: array3<bool>, free: array3<bool>, rotatedPoint: array3<bool>, rotatedFree: array3<bool>,
                      ghost RP: Grid<bool>, ghost RF: Grid<bool>, m: Rotation, k: nat, i: nat, j: nat)
    requires rotatedPoint != rotatedFree && DimsOf(point) == DimsOf(free)
    requires point != rotatedPoint && point != rotatedFree && free != rotatedPoint && free != rotatedFree
    requires DimsOf(rotatedPoint) == DimsOf(rotatedFree)
    requires k < rotatedPoint.Length0 && i < rotatedPoint.Length2 && j < rotatedPoint.Length1
    requires RP == Rotated(Snapshot(point), DimsOf(point), DimsOf(rotatedPoint), m)
    requires RF == Rotated(Snapshot(free), DimsOf(point), DimsOf(rotatedPoint), m)
    requires FilledUpTo(rotatedPoint, RP, DimsOf(rotatedPoint), k, i, j) && FilledUpTo(rotatedFree, RF, DimsOf(rotatedPoint), k, i, j)
    modifies rotatedPoint, rotatedFree
    ensures FilledUpTo(rotatedPoint, RP, DimsOf(rotatedPoint), k, i, j + 1)
    ensures FilledUpTo(rotatedFree, RF, DimsOf(rotatedPoint), k, i, j + 1)
  {
    var nd := DimsOf(rotatedPoint);
    var d := DimsOf(point);
    var src := SourceOf(m, Index3(i, j, k));
    if InSource(src, d) {
      var s := SourceCell(src);
      SourceCellInBox(src, d);
      var f, p := free[s.z, s.y, s.x], point[s.z, s.y, s.x];
      FillCell(rotatedFree, RF, nd, k, i, j, f);
      FillCell(rotatedPoint, RP, nd, k, i, j, p);
    } else {
      FilledSkip(rotatedFree, RF, nd, k, i, j);
      FilledSkip(rotatedPoint, RP, nd, k, i, j);
    }
  }

  // ---------------------------------------------------------------------
  // What the resampling guarantees.

  /** The centring margins fit the original extents inside the enlarged ones. */
  lemma CenteringFits(d: Dims)
    ensures var nd := EnlargedDims(d);
            var dX, dY := Margin(nd.nx, d.nx), Margin(nd.ny, d.ny);
            0 <= dX && d.nx + dX <= nd.nx && 0 <= dY && d.ny + dY <= nd.ny
  {
  }

  /** With the identity matrix the resampling is a pure shift by the margins:
      destination (x, y, z) holds source (x - dX, y - dY, z). */
  lemma IdentityShifts(G: Grid<bool>, d: Dims, zeroZeroD: Vec3, dX: int, dY: int, c: Index3)
    ensures var s := Index3(c.x - dX, c.y - dY, c.z);
            RotatedCell(G, d, Centered(Identity, zeroZeroD, dX, dY), c) == (InBox(s, d) && At(G, s, false))
  {
    var m := Centered(Identity, zeroZeroD, dX, dY);
    var v := Sub(ToVec(c), m.newZZ);
    assert Apply(Identity, v) == v;
    var src := SourceOf(m, c);
    assert src == ToVec(Index3(c.x - dX, c.y - dY, c.z));
    assert SourceCell(src) == Index3(c.x - dX, c.y - dY, c.z);
  }

  /** Unrotated, the enlarged grid holds a copy of every voxel of the
      original, moved by the margins: for any margins that fit (as the
      centring margins do, by CenteringFits), voxel c reappears at c + (dX, dY, 0). */
  lemma IdentityKeepsEveryVoxel(G: Grid<bool>, d: Dims, nd: Dims, zeroZeroD: Vec3, dX: int, dY: int, c: Index3)
    requires InBox(c, d) && nd.nz == d.nz
    requires 0 <= dX && d.nx + dX <= nd.nx && 0 <= dY && d.ny + dY <= nd.ny
    ensures var t := Index3(c.x + dX, c.y + dY, c.z);
            InBox(t, nd) && At(Rotated(G, d, nd, Centered(Identity, zeroZeroD, dX, dY)), t, false) == At(G, c, false)
  {
    var t := Index3(c.x + dX, c.y + dY, c.z);
    RotatedAt(G, d, nd, Centered(Identity, zeroZeroD, dX, dY), t);
    IdentityShifts(G, d, zeroZeroD, dX, dY, t);
    assert Index3(t.x - dX, t.y - dY, t.z) == c;
  }

  lemma RotatedAt(G: Grid<bool>, d: Dims, nd: Dims, m: Rotation, c: Index3)
    requires InBox(c, nd)
    ensures At(Rotated(G, d, nd, m), c, false) == RotatedCell(G, d, m, c)
  {
  }

  /** An empty mask stays empty under any rotation. */
  lemma EmptyStaysEmpty(G: Grid<bool>, d: Dims, nd: Dims, m: Rotation)
    requires forall c :: InBox(c, d) ==> !At(G, c, false)
    ensures forall c :: InBox(c, nd) ==> !At(Rotated(G, d, nd, m), c, false)
    ensures TrueCount(Rotated(G, d, nd, m), nd) == 0.0
  {
    BoxSumZero(TrueField(Rotated(G, d, nd, m)), nd);
  }
}
