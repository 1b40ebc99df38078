/** Stage 5 of CloudAnalyzer3D::saveVoxelGrids: the bounding box of the set
    voxels of a rotated point mask, and the crop of both rotated masks to it. */
module Trim {
  import opened Geometry
  import opened Grids

  /** minCol..maxCol, minRow..maxRow, minZ..maxZ, bounds included. */
  datatype Box = Box(minCol: int, maxCol: int, minRow: int, maxRow: int, minZ: int, maxZ: int)

  /** The values the scan starts from: every minimum at the extent, every maximum at 0. */
  function Sentinel(d: Dims): Box {
    Box(d.nx, 0, d.ny, 0, d.nz, 0)
  }

  /** newX, newY and newZ of the trimmed grid. */
  function Width(b: Box): int { b.maxCol - b.minCol + 1 }
  function Height(b: Box): int { b.maxRow - b.minRow + 1 }
  function Depth(b: Box): int { b.maxZ - b.minZ + 1 }

  predicate Encloses(b: Box, c: Index3) {
    b.minCol <= c.x <= b.maxCol && b.minRow <= c.y <= b.maxRow && b.minZ <= c.z <= b.maxZ
  }

  /** The box is a non-empty window of the extents d. */
  predicate Within(b: Box, d: Dims) {
    && 0 <= b.minCol <= b.maxCol < d.nx
    && 0 <= b.minRow <= b.maxRow < d.ny
    && 0 <= b.minZ <= b.maxZ < d.nz
  }

  ghost predicate SetIn(G: Grid<bool>, d: Dims, c: Index3) {
    InBox(c, d) && At(G, c, false)
  }

  ghost predicate HasSet(G: Grid<bool>, d: Dims) {
    exists c :: SetIn(G, d, c)
  }

  /** The tight bounding box of the set voxels: it encloses every one of them
      and each of its six faces holds one; with no set voxel it is the sentinel. */
  ghost predicate Tight(b: Box, G: Grid<bool>, d: Dims) {
    if HasSet(G, d) then
      && (forall c :: SetIn(G, d, c) ==> Encloses(b, c))
      && (exists c :: SetIn(G, d, c) && c.x == b.minCol)
      && (exists c :: SetIn(G, d, c) && c.x == b.maxCol)
      && (exists c :: SetIn(G, d, c) && c.y == b.minRow)
      && (exists c :: SetIn(G, d, c) && c.y == b.maxRow)
      && (exists c :: SetIn(G, d, c) && c.z == b.minZ)
      && (exists c :: SetIn(G, d, c) && c.z == b.maxZ)
    else b == Sentinel(d)
  }

  /** One set voxel on each face of the box found so far. */
  datatype Faces = Faces(minCol: Index3, maxCol: Index3, minRow: Index3, maxRow: Index3, minZ: Index3, maxZ: Index3)

  /** The scan state after the voxels before (x, y, z): with no set voxel met
      the box is still the sentinel, otherwise it is the tight box of those met. */
  ghost predicate Scanned(b: Box, found: bool, w: Faces, G: Grid<bool>, d: Dims, z: nat, x: nat, y: nat) {
    if found then
      && (forall c :: SetIn(G, d, c) && Visited(c, z, x, y) ==> Encloses(b, c))
      && SetIn(G, d, w.minCol) && w.minCol.x == b.minCol
      && SetIn(G, d, w.maxCol) && w.maxCol.x == b.maxCol
      && SetIn(G, d, w.minRow) && w.minRow.y == b.minRow
      && SetIn(G, d, w.maxRow) && w.maxRow.y == b.maxRow
      && SetIn(G, d, w.minZ) && w.minZ.z == b.minZ
      && SetIn(G, d, w.maxZ) && w.maxZ.z == b.maxZ
    else
      && b == Sentinel(d)
      && (forall c :: SetIn(G, d, c) ==> !Visited(c, z, x, y))
  }

  function Min(a: int, b: int): int { if a < b then a else b }
  function Max(a: int, b: int): int { if a < b then b else a }

  /** The min/max scan over the rotated point mask. */
  method BoundingBox(a: array3<bool>) returns (b: Box)
    ensures Tight(b, Snapshot(a), DimsOf(a))
  {
    var d := DimsOf(a);
    ghost var G := Snapshot(a);
    b := Sentinel(d);
    ghost var found := false;
    ghost var w := Faces(Index3(0, 0, 0), Index3(0, 0, 0), Index3(0, 0, 0), Index3(0, 0, 0), Index3(0, 0, 0), Index3(0, 0, 0));
    for k := 0 to d.nz
      invariant Scanned(b, found, w, G, d, k, 0, 0)
    {
      for i := 0 to d.nx
        invariant Scanned(b, found, w, G, d, k, i, 0)
      {
        b, found, w := ScanColumn(a, G, k, i, b, found, w);
      }
      ScannedNextSlice(b, found, w, G, d, k);
    }
    ScannedComplete(b, found, w, G, d);
  }

  method ScanColumn(a: array3<bool>, ghost G: Grid<bool>, k: nat, i: nat, b0: Box, ghost found0: bool, ghost w0: Faces)
    returns (b: Box, ghost found: bool, ghost w: Faces)
    requires G == Snapshot(a) && k < a.Length0 && i < a.Length2
    requires Scanned(b0, found0, w0, G, DimsOf(a), k, i, 0)
    ensures Scanned(b, found, w, G, DimsOf(a), k, i + 1, 0)
  {
    var d := DimsOf(a);
    b, found, w := b0, found0, w0;
    for j := 0 to d.ny
      invariant Scanned(b, found, w, G, d, k, i, j)
    {
      if a[k, j, i] {
        b, found, w := ScanSetVoxel(G, d, Index3(i, j, k), b, found, w);
      } else {
        ScannedSkip(b, found, w, G, d, Index3(i, j, k));
      }
    }
    ScannedNextColumn(b, found, w, G, d, k, i);
  }

  /** A set voxel met at c: each bound moves to c's coordinate where c lies outside it. */
  method ScanSetVoxel(ghost G: Grid<bool>, d: Dims, c: Index3, b0: Box, ghost found0: bool, ghost w0: Faces)
    returns (b: Box, ghost found: bool, ghost w: Faces)
    requires SetIn(G, d, c)
    requires Scanned(b0, found0, w0, G, d, c.z, c.x, c.y)
    ensures Scanned(b, found, w, G, d, c.z, c.x, c.y + 1)
  {
    b := b0.(minCol := Min(b0.minCol, c.x), maxCol := Max(b0.maxCol, c.x));
    b := b.(minRow := Min(b.minRow, c.y), maxRow := Max(b.maxRow, c.y));
    b := b.(minZ := Min(b.minZ, c.z), maxZ := Max(b.maxZ, c.z));
    found := true;
    w := w0;
    if !found0 {
      w := Faces(c, c, c, c, c, c);
    } else {
      if b.minCol == c.x { w := w.(minCol := c); }
      if b.maxCol == c.x { w := w.(maxCol := c); }
      if b.minRow == c.y { w := w.(minRow := c); }
      if b.maxRow == c.y { w := w.(maxRow := c); }
      if b.minZ == c.z { w := w.(minZ := c); }
      if b.maxZ == c.z { w := w.(maxZ := c); }
    }
    forall e | SetIn(G, d, e) && Visited(e, c.z, c.x, c.y + 1)
      ensures Encloses(b, e)
    {
      if e != c {
        assert Visited(e, c.z, c.x, c.y);
      }
    }
  }

  lemma ScannedSkip(b: Box, found: bool, w: Faces, G: Grid<bool>, d: Dims, c: Index3)
    requires InBox(c, d) && !At(G, c, false)
    requires Scanned(b, found, w, G, d, c.z, c.x, c.y)
    ensures Scanned(b, found, w, G, d, c.z, c.x, c.y + 1)
  {
    forall e | SetIn(G, d, e) && Visited(e, c.z, c.x, c.y + 1)
      ensures Visited(e, c.z, c.x, c.y)
    {
    }
  }

  lemma ScannedNextColumn(b: Box, found: bool, w: Faces, G: Grid<bool>, d: Dims, k: nat, i: nat)
    requires Scanned(b, found, w, G, d, k, i, d.ny)
    ensures Scanned(b, found, w, G, d, k, i + 1, 0)
  {
    forall e | SetIn(G, d, e)
      ensures Visited(e, k, i + 1, 0) == Visited(e, k, i, d.ny)
    {
    }
  }

  lemma ScannedNextSlice(b: Box, found: bool, w: Faces, G: Grid<bool>, d: Dims, k: nat)
    requires Scanned(b, found, w, G, d, k, d.nx, 0)
    ensures Scanned(b, found, w, G, d, k + 1, 0, 0)
  {
    forall e | SetIn(G, d, e)
      ensures Visited(e, k + 1, 0, 0) == Visited(e, k, d.nx, 0)
    {
    }
  }

  lemma ScannedComplete(b: Box, found: bool, w: Faces, G: Grid<bool>, d: Dims)
    requires Scanned(b, found, w, G, d, d.nz, 0, 0)
    ensures Tight(b, G, d)
  {
    if found {
      assert SetIn(G, d, w.minCol);
    }
  }

  // ---------------------------------------------------------------------
  // The crop.

  /** The extents of the trimmed grid, for a box with a non-negative size on every axis. */
  function CropDims(b: Box): Dims
    requires 0 <= Width(b) && 0 <= Height(b) && 0 <= Depth(b)
  {
    Dims(Width(b), Height(b), Depth(b))
  }

  /** A legal window: none when newZ is 0, otherwise one inside the grid. */
  predicate Croppable(b: Box, d: Dims) {
    Depth(b) == 0 || Within(b, d)
  }

  /** The trimmed grid: trimmed[k](j, i) is rotated[k + minZ](j + minRow, i + minCol);
      with newZ == 0 there are no slices. */
  function Crop(G: Grid<bool>, b: Box): Grid<bool>
    requires Depth(b) == 0 || (0 <= Width(b) && 0 <= Height(b) && 0 < Depth(b))
  {
    if Depth(b) == 0 then []
    else
      seq(Depth(b), z =>
        seq(Height(b), y =>
          seq(Width(b), x => At(G, Index3(x + b.minCol, y + b.minRow, z + b.minZ), false))))
  }

  /** `rotated.v[k + minZ].block(minRow, minCol, newY, newX)`. */
  function Block(a: array3<bool>, k: int, b: Box): seq<seq<bool>>
    reads a
    requires 0 <= k < a.Length0 && Within(b, DimsOf(a))
    requires b.minZ <= k <= b.maxZ
  {
    seq(Height(b), j requires 0 <= j < Height(b) reads a =>
      seq(Width(b), i requires 0 <= i < Width(b) reads a => a[k, b.minRow + j, b.minCol + i]))
  }

  /** The trim loop: newZ slices, each one block of the rotated grid. */
  method TrimGrid(a: array3<bool>, b: Box) returns (v: Grid<bool>)
    requires Croppable(b, DimsOf(a))
    ensures v == Crop(Snapshot(a), b)
  {
    v := [];
    var newZ := b.maxZ - b.minZ + 1;
    ghost var t := Crop(Snapshot(a), b);
    for k := 0 to newZ
      invariant v == t[..k]
    {
      BlockIsCropSlice(a, b, k);
      v := v + [Block(a, k + b.minZ, b)];
    }
    assert t[..newZ] == t;
  }

  lemma BlockIsCropSlice(a: array3<bool>, b: Box, z: int)
    requires Within(b, DimsOf(a)) && 0 <= z < Depth(b)
    ensures |Crop(Snapshot(a), b)| == Depth(b)
    ensures Block(a, z + b.minZ, b) == Crop(Snapshot(a), b)[z]
  {
    var t := Crop(Snapshot(a), b);
    var s := Block(a, z + b.minZ, b);
    forall y | 0 <= y < Height(b)
      ensures s[y] == t[z][y]
    {
      forall x | 0 <= x < Width(b)
        ensures s[y][x] == t[z][y][x]
      {
        assert t[z][y][x] == At(Snapshot(a), Index3(x + b.minCol, y + b.minRow, z + b.minZ), false);
      }
    }
  }

  /** A cell of the trimmed grid is the rotated cell shifted by the box's lower corner. */
  lemma CropCell(G: Grid<bool>, b: Box, d: Dims, t: Index3)
    requires Within(b, d) && InBox(t, CropDims(b))
    ensures At(Crop(G, b), t, false) == At(G, Index3(t.x + b.minCol, t.y + b.minRow, t.z + b.minZ), false)
  {
    var T := Crop(G, b);
    assert T[t.z][t.y][t.x] == At(G, Index3(t.x + b.minCol, t.y + b.minRow, t.z + b.minZ), false);
  }

  // ---------------------------------------------------------------------
  // What the window guarantees.

  /** The tight box is determined by the mask. */
  lemma TightUnique(b1: Box, b2: Box, G: Grid<bool>, d: Dims)
    requires Tight(b1, G, d) && Tight(b2, G, d)
    ensures b1 == b2
  {
    if HasSet(G, d) {
      var w1 := FacesOf(b1, G, d);
      var w2 := FacesOf(b2, G, d);
      FacesEnclosed(b1, G, d, w2);
      FacesEnclosed(b2, G, d, w1);
    }
  }

  /** A tight box encloses every set voxel, in particular the ones on another box's faces. */
  lemma FacesEnclosed(b: Box, G: Grid<bool>, d: Dims, w: Faces)
    requires Tight(b, G, d)
    requires SetIn(G, d, w.minCol) && SetIn(G, d, w.maxCol) && SetIn(G, d, w.minRow)
    requires SetIn(G, d, w.maxRow) && SetIn(G, d, w.minZ) && SetIn(G, d, w.maxZ)
    ensures Encloses(b, w.minCol) && Encloses(b, w.maxCol) && Encloses(b, w.minRow)
    ensures Encloses(b, w.maxRow) && Encloses(b, w.minZ) && Encloses(b, w.maxZ)
  {
  }

  /** A mask with a set voxel has a tight box inside the grid, so its crop is legal. */
  lemma TightWithin(b: Box, G: Grid<bool>, d: Dims)
    requires Tight(b, G, d) && HasSet(G, d)
    ensures Within(b, d) && Croppable(b, d)
    ensures 1 <= Width(b) <= d.nx && 1 <= Height(b) <= d.ny && 1 <= Depth(b) <= d.nz
  {
    var c1 :| SetIn(G, d, c1) && c1.x == b.minCol;
    var c2 :| SetIn(G, d, c2) && c2.x == b.maxCol;
    var c3 :| SetIn(G, d, c3) && c3.y == b.minRow;
    var c4 :| SetIn(G, d, c4) && c4.y == b.maxRow;
    var c5 :| SetIn(G, d, c5) && c5.z == b.minZ;
    var c6 :| SetIn(G, d, c6) && c6.z == b.maxZ;
    assert Encloses(b, c1) && Encloses(b, c3) && Encloses(b, c5);
  }

  /** The degenerate path of an empty mask: the sentinels survive, so
      newX = 1 - newCols, newY = 1 - newRows and newZ = 1 - z. */
  lemma EmptyMaskWindow(b: Box, G: Grid<bool>, d: Dims)
    requires Tight(b, G, d) && !HasSet(G, d)
    ensures Width(b) == 1 - d.nx && Height(b) == 1 - d.ny && Depth(b) == 1 - d.nz
    ensures 1 <= d.nx ==> Width(b) <= 0
    ensures 1 <= d.ny ==> Height(b) <= 0
    ensures Croppable(b, d) <==> d.nz == 1
  {
  }

  /** Trimming loses no set voxel: each one reappears shifted by the box's lower corner. */
  lemma CropKeepsEverySetVoxel(b: Box, G: Grid<bool>, d: Dims, c: Index3)
    requires Tight(b, G, d) && SetIn(G, d, c)
    ensures Within(b, d)
    ensures var t := Index3(c.x - b.minCol, c.y - b.minRow, c.z - b.minZ);
            InBox(t, CropDims(b)) && At(Crop(G, b), t, false)
  {
    TightWithin(b, G, d);
    assert Encloses(b, c);
    CropCell(G, b, d, Index3(c.x - b.minCol, c.y - b.minRow, c.z - b.minZ));
  }

  /** The trimmed grid cannot be trimmed further: its own tight box is the whole grid. */
  lemma CropIsTight(b: Box, G: Grid<bool>, d: Dims)
    requires Tight(b, G, d) && HasSet(G, d)
    ensures Within(b, d)
    ensures Tight(Box(0, Width(b) - 1, 0, Height(b) - 1, 0, Depth(b) - 1), Crop(G, b), CropDims(b))
  {
    var w := FacesOf(b, G, d);
    var tb := Box(0, Width(b) - 1, 0, Height(b) - 1, 0, Depth(b) - 1);
    var t1 := Shifted(b, G, d, w.minCol);
    var t2 := Shifted(b, G, d, w.maxCol);
    var t3 := Shifted(b, G, d, w.minRow);
    var t4 := Shifted(b, G, d, w.maxRow);
    var t5 := Shifted(b, G, d, w.minZ);
    var t6 := Shifted(b, G, d, w.maxZ);
    CropEnclosed(b, G, d);
    FacesMakeTight(tb, Crop(G, b), CropDims(b), Faces(t1, t2, t3, t4, t5, t6));
  }

  /** A box enclosing every set voxel, with a set voxel on each face, is tight. */
  lemma FacesMakeTight(b: Box, G: Grid<bool>, d: Dims, w: Faces)
    requires forall c :: SetIn(G, d, c) ==> Encloses(b, c)
    requires SetIn(G, d, w.minCol) && w.minCol.x == b.minCol
    requires SetIn(G, d, w.maxCol) && w.maxCol.x == b.maxCol
    requires SetIn(G, d, w.minRow) && w.minRow.y == b.minRow
    requires SetIn(G, d, w.maxRow) && w.maxRow.y == b.maxRow
    requires SetIn(G, d, w.minZ) && w.minZ.z == b.minZ
    requires SetIn(G, d, w.maxZ) && w.maxZ.z == b.maxZ
    ensures Tight(b, G, d)
  {
    assert HasSet(G, d);
  }

  /** One set voxel on each face of a tight box. */
  lemma FacesOf(b: Box, G: Grid<bool>, d: Dims) returns (w: Faces)
    requires Tight(b, G, d) && HasSet(G, d)
    ensures SetIn(G, d, w.minCol) && w.minCol.x == b.minCol
    ensures SetIn(G, d, w.maxCol) && w.maxCol.x == b.maxCol
    ensures SetIn(G, d, w.minRow) && w.minRow.y == b.minRow
    ensures SetIn(G, d, w.maxRow) && w.maxRow.y == b.maxRow
    ensures SetIn(G, d, w.minZ) && w.minZ.z == b.minZ
    ensures SetIn(G, d, w.maxZ) && w.maxZ.z == b.maxZ
  {
    var c1 :| SetIn(G, d, c1) && c1.x == b.minCol;
    var c2 :| SetIn(G, d, c2) && c2.x == b.maxCol;
    var c3 :| SetIn(G, d, c3) && c3.y == b.minRow;
    var c4 :| SetIn(G, d, c4) && c4.y == b.maxRow;
    var c5 :| SetIn(G, d, c5) && c5.z == b.minZ;
    var c6 :| SetIn(G, d, c6) && c6.z == b.maxZ;
    w := Faces(c1, c2, c3, c4, c5, c6);
  }

  /** Every cell of the trimmed grid lies in the box spanning the whole grid. */
  lemma CropEnclosed(b: Box, G: Grid<bool>, d: Dims)
    requires Within(b, d)
    ensures forall c :: SetIn(Crop(G, b), CropDims(b), c) ==>
      Encloses(Box(0, Width(b) - 1, 0, Height(b) - 1, 0, Depth(b) - 1), c)
  {
  }

  /** The set voxel c moved into the coordinates of the trimmed grid. */
  lemma Shifted(b: Box, G: Grid<bool>, d: Dims, c: Index3) returns (t: Index3)
    requires Tight(b, G, d) && SetIn(G, d, c)
    ensures Within(b, d)
    ensures t == Index3(c.x - b.minCol, c.y - b.minRow, c.z - b.minZ)
    ensures SetIn(Crop(G, b), CropDims(b), t)
  {
    CropKeepsEverySetVoxel(b, G, d, c);
    t := Index3(c.x - b.minCol, c.y - b.minRow, c.z - b.minZ);
  }
}
