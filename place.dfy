/** The records written for each rotation: place::MetaData and
    place::VoxelGrid, and where the origin voxel ends up after the centring
    margins and the crop. */
module Place {
  import opened Geometry
  import opened Grids
  import opened Trim

  /** place::MetaData: the origin voxel zZ, the trimmed extents x, y, z and the two resolutions. */
  datatype MetaData = MetaData(zZ: Index3, x: int, y: int, z: int, voxelsPerMeter: real, pixelsPerMeter: real)

  /** place::VoxelGrid: the trimmed slices, the number of set voxels of the
      whole thresholded mask, and the origin voxel. */
  datatype VoxelGrid = VoxelGrid(v: Grid<bool>, c: int, zZ: Index3)

  /** The offset of voxel c from an origin voxel o. */
  function Offset(c: Index3, o: Index3): Index3 {
    Index3(c.x - o.x, c.y - o.y, c.z - o.z)
  }

  /** The lower corner of a window: (minCol, minRow, minZ). */
  function Corner(b: Box): Index3 {
    Index3(b.minCol, b.minRow, b.minZ)
  }

  /** The unrotated origin moved into the enlarged grid by the centring margins. */
  function CentredOrigin(zeroZero: Index3, dX: int, dY: int): Index3 {
    Index3(zeroZero.x + dX, zeroZero.y + dY, zeroZero.z)
  }

  /** The metadata of a rotation cropped to window b: the centred origin,
      expressed relative to the window's lower corner, and the window's extents. */
  function TrimmedMeta(zeroZero: Index3, b: Box, dX: int, dY: int, voxelsPerMeter: real, pixelsPerMeter: real): MetaData {
    MetaData(Offset(CentredOrigin(zeroZero, dX, dY), Corner(b)), Width(b), Height(b), Depth(b), voxelsPerMeter, pixelsPerMeter)
  }

  /** The metadata record as it is filled in: zeroZero and the extents, then
      the margins added and the window's lower corner subtracted, one
      coordinate at a time. */
  method PlaceMeta(zeroZero: Index3, b: Box, dX: int, dY: int, voxelsPerMeter: real, pixelsPerMeter: real)
    returns (meta: MetaData)
    ensures meta == TrimmedMeta(zeroZero, b, dX, dY, voxelsPerMeter, pixelsPerMeter)
    ensures meta.zZ == Index3(zeroZero.x + dX - b.minCol, zeroZero.y + dY - b.minRow, zeroZero.z - b.minZ)
  {
    var newZ := b.maxZ - b.minZ + 1;
    var newY := b.maxRow - b.minRow + 1;
    var newX := b.maxCol - b.minCol + 1;
    meta := MetaData(zeroZero, newX, newY, newZ, voxelsPerMeter, pixelsPerMeter);
    meta := meta.(zZ := meta.zZ.(x := meta.zZ.x + dX));
    meta := meta.(zZ := meta.zZ.(y := meta.zZ.y + dY));
    meta := meta.(zZ := meta.zZ.(x := meta.zZ.x - b.minCol));
    meta := meta.(zZ := meta.zZ.(y := meta.zZ.y - b.minRow));
    meta := meta.(zZ := meta.zZ.(z := meta.zZ.z - b.minZ));
  }

  /** The crop moves the origin with the voxels: every set voxel c of the
      rotated mask reappears in the trimmed grid at the same offset from the
      trimmed origin as it had from the centred origin, inside the extents
      the metadata records. */
  lemma CropKeepsPosition(b: Box, G: Grid<bool>, d: Dims, c: Index3,
                          zeroZero: Index3, dX: int, dY: int, voxelsPerMeter: real, pixelsPerMeter: real)
    requires Tight(b, G, d) && SetIn(G, d, c)
    ensures Within(b, d)
    ensures var meta := TrimmedMeta(zeroZero, b, dX, dY, voxelsPerMeter, pixelsPerMeter);
            var t := Index3(c.x - b.minCol, c.y - b.minRow, c.z - b.minZ);
            && meta.x == Width(b) && meta.y == Height(b) && meta.z == Depth(b)
            && InBox(t, CropDims(b)) && At(Crop(G, b), t, false)
            && Offset(t, meta.zZ) == Offset(c, CentredOrigin(zeroZero, dX, dY))
  {
    CropKeepsEverySetVoxel(b, G, d, c);
    TrimmedOffset(zeroZero, b, dX, dY, voxelsPerMeter, pixelsPerMeter, c);
  }

  /** Measured from the trimmed origin, a voxel moved by the window's corner keeps its offset. */
  lemma TrimmedOffset(zeroZero: Index3, b: Box, dX: int, dY: int, voxelsPerMeter: real, pixelsPerMeter: real, c: Index3)
    ensures var meta := TrimmedMeta(zeroZero, b, dX, dY, voxelsPerMeter, pixelsPerMeter);
            && meta.x == Width(b) && meta.y == Height(b) && meta.z == Depth(b)
            && Offset(Index3(c.x - b.minCol, c.y - b.minRow, c.z - b.minZ), meta.zZ) == Offset(c, CentredOrigin(zeroZero, dX, dY))
  {
  }

  /** Conversely, every set voxel of the trimmed grid comes from a set voxel
      of the rotated mask at the same offset from the centred origin. */
  lemma CropAddsNothing(b: Box, G: Grid<bool>, d: Dims, t: Index3,
                        zeroZero: Index3, dX: int, dY: int, voxelsPerMeter: real, pixelsPerMeter: real)
    requires Within(b, d) && InBox(t, CropDims(b)) && At(Crop(G, b), t, false)
    requires Shaped(G, d)
    ensures var meta := TrimmedMeta(zeroZero, b, dX, dY, voxelsPerMeter, pixelsPerMeter);
            var c := Index3(t.x + b.minCol, t.y + b.minRow, t.z + b.minZ);
            && SetIn(G, d, c)
            && Offset(t, meta.zZ) == Offset(c, CentredOrigin(zeroZero, dX, dY))
  {
    CropCell(G, b, d, t);
  }
}
