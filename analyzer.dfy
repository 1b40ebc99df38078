/** voxel::CloudAnalyzer3D: run() carves the point cloud into point and
    free-space counts, and saveVoxelGrids() turns them into one pair of
    thresholded, rotated and trimmed voxel grids per rotation. */
module Voxel {
  import opened Geometry
  import opened Grids
  import opened Raster
  import opened FreeSpace
  import opened Threshold
  import opened Resample
  import opened Trim
  import opened Place

  /** What the bounding-box collaborator reports: the two corners of the cloud. */
  datatype BoxCorners = BoxCorners(pointMin: Vec3, pointMax: Vec3)

  /** numX for lo = pointMin[0] and hi = pointMax[0]: the scaled extent, truncated to an int. */
  function Extent(lo: real, hi: real, voxelsPerMeter: real): int {
    Trunc(voxelsPerMeter * (hi - lo))
  }

  /** The three extents are non-negative, as the matrices and vectors sized by them require. */
  predicate Sizable(bBox: BoxCorners, voxelsPerMeter: real) {
    && 0 <= Extent(bBox.pointMin.x, bBox.pointMax.x, voxelsPerMeter)
    && 0 <= Extent(bBox.pointMin.y, bBox.pointMax.y, voxelsPerMeter)
    && 0 <= Extent(bBox.pointMin.z, bBox.pointMax.z, voxelsPerMeter)
  }

  /** numX, numY, numZ. */
  function GridDims(bBox: BoxCorners, voxelsPerMeter: real): Dims
    requires Sizable(bBox, voxelsPerMeter)
  {
    Dims(Extent(bBox.pointMin.x, bBox.pointMax.x, voxelsPerMeter),
         Extent(bBox.pointMin.y, bBox.pointMax.y, voxelsPerMeter),
         Extent(bBox.pointMin.z, bBox.pointMax.z, voxelsPerMeter))
  }

  /** zeroZeroD: the voxel coordinates of the world origin, -pointMin scaled. */
  function Origin(pointMin: Vec3, voxelsPerMeter: real): Vec3 {
    Vec3(-pointMin.x * voxelsPerMeter, -pointMin.y * voxelsPerMeter, -pointMin.z * voxelsPerMeter)
  }

  /** What one rotation writes: the trimmed point and free-space grids and the metadata record. */
  datatype Saved = Saved(point: VoxelGrid, free: VoxelGrid, meta: MetaData)

  /** What every rotation shares: the extents before and after enlarging, the
      centring margins, both origins, the two counts and the resolutions. */
  datatype Plan = Plan(d: Dims, nd: Dims, dX: int, dY: int, zeroZeroD: Vec3, zeroZero: Index3,
                       nonZeroPoint: int, numNonZeros: int, voxelsPerMeter: real, pixelsPerMeter: real)

  /** The two passes of run over the cloud: the point counts, then the free-space counts. */
  method Carve(points: seq<Vec3>, f: Frame, d: Dims, rays: Caster) returns (counts: array3<int>, seen: array3<int>)
    ensures fresh(counts) && fresh(seen) && counts != seen
    ensures DimsOf(counts) == DimsOf(seen) == d
    ensures Snapshot(counts) == OccupancyGrid(f, d, points)
    ensures forall z, y, x :: 0 <= z < seen.Length0 && 0 <= y < seen.Length1 && 0 <= x < seen.Length2 ==>
      seen[z, y, x] as real == SeenCount(Snapshot(counts), rays, d, Index3(x, y, z))
  {
    counts := Rasterize(f, points, d);
    seen := AccumulateFreeSpace(counts, rays);
  }

  /** The plan saveVoxelGrids computes before its rotation loop. */
  function PlanOf(d: Dims, zeroZeroD: Vec3, zeroZero: Index3, nonZeroPoint: int, numNonZeros: int,
                  voxelsPerMeter: real, pixelsPerMeter: real): (p: Plan)
    ensures p.d == d && p.nd == EnlargedDims(d)
    ensures 0 <= p.dX && d.nx + p.dX <= p.nd.nx && 0 <= p.dY && d.ny + p.dY <= p.nd.ny
  {
    var nd := EnlargedDims(d);
    CenteringFits(d);
    Plan(d, nd, Margin(nd.nx, d.nx), Margin(nd.ny, d.ny), zeroZeroD, zeroZero,
         nonZeroPoint, numNonZeros, voxelsPerMeter, pixelsPerMeter)
  }

  /** The rotation used by pass r. R->at(r) is only evaluated when the
      enlarged grid has a cell; past the end of R it throws, and when it is
      never evaluated the matrix does not matter. */
  function RotationAt(R: seq<Mat3>, r: nat): Mat3 {
    if r < |R| then R[r] else Identity
  }

  /** The two grids and the record of window b of the rotated masks. */
  function Assembled(RP: Grid<bool>, RF: Grid<bool>, b: Box, p: Plan): Saved
    requires Croppable(b, p.nd)
  {
    var meta := TrimmedMeta(p.zeroZero, b, p.dX, p.dY, p.voxelsPerMeter, p.pixelsPerMeter);
    Saved(VoxelGrid(Crop(RP, b), p.nonZeroPoint, meta.zZ), VoxelGrid(Crop(RF, b), p.numNonZeros, meta.zZ), meta)
  }

  /** out is what the rotation rot writes for the thresholded masks TP and TF:
      both rotated under the same map and cropped to the tight box of the
      rotated point mask. */
  ghost predicate RotationSaved(out: Saved, TP: Grid<bool>, TF: Grid<bool>, p: Plan, rot: Mat3) {
    var m := Centered(rot, p.zeroZeroD, p.dX, p.dY);
    var RP := Rotated(TP, p.d, p.nd, m);
    var RF := Rotated(TF, p.d, p.nd, m);
    exists b :: Tight(b, RP, p.nd) && Croppable(b, p.nd) && out == Assembled(RP, RF, b, p)
  }

  /** The crop of a rotation is legal exactly when its point mask has a set
      voxel or the grid has one slice (newZ = 1 - z is then 0). */
  ghost predicate SaveSucceeds(TP: Grid<bool>, p: Plan, rot: Mat3) {
    HasSet(Rotated(TP, p.d, p.nd, Centered(rot, p.zeroZeroD, p.dX, p.dY)), p.nd) || p.d.nz == 1
  }

  /** Pass r of the rotation loop: resample, find the tight box of the point
      mask, trim both grids to it and fill in the metadata. ok is false when
      newZ is negative, where sizing the trimmed vector throws. */
  method SaveRotation(tp: array3<bool>, tf: array3<bool>, p: Plan, rot: Mat3) returns (out: Saved, ok: bool)
    requires DimsOf(tp) == DimsOf(tf) == p.d && p.nd.nz == p.d.nz && 1 <= p.d.nz
    ensures ok == SaveSucceeds(Snapshot(tp), p, rot)
    ensures ok ==> RotationSaved(out, Snapshot(tp), Snapshot(tf), p, rot)
  {
    var m := Centered(rot, p.zeroZeroD, p.dX, p.dY);
    var rotatedPoint, rotatedFree := ResampleGrids(tp, tf, m, p.nd);
    ghost var RP := Snapshot(rotatedPoint);
    ghost var RF := Snapshot(rotatedFree);
    var b := BoundingBox(rotatedPoint);
    if HasSet(RP, p.nd) {
      TightWithin(b, RP, p.nd);
    } else {
      EmptyMaskWindow(b, RP, p.nd);
    }
    var newZ := b.maxZ - b.minZ + 1;
    if newZ < 0 {
      out, ok := Saved(VoxelGrid([], 0, Index3(0, 0, 0)), VoxelGrid([], 0, Index3(0, 0, 0)),
                       MetaData(Index3(0, 0, 0), 0, 0, 0, 0.0, 0.0)), false;
      return;
    }
    var trimmedFree := TrimGrid(rotatedFree, b);
    var trimmedPoint := TrimGrid(rotatedPoint, b);
    var meta := PlaceMeta(p.zeroZero, b, p.dX, p.dY, p.voxelsPerMeter, p.pixelsPerMeter);
    out := Saved(VoxelGrid(trimmedPoint, p.nonZeroPoint, meta.zZ), VoxelGrid(trimmedFree, p.numNonZeros, meta.zZ), meta);
    ok := true;
    assert out == Assembled(RP, RF, b, p);
  }

  /** Pass r wrote outs[r], for every r < |outs|, and none of these passes
      read past the end of R. */
  ghost predicate PassesSaved(outs: seq<Saved>, TP: Grid<bool>, TF: Grid<bool>, p: Plan, R: seq<Mat3>)
    decreases |outs|
  {
    if outs == [] then true
    else
      var r := |outs| - 1;
      && PassesSaved(outs[..r], TP, TF, p, R)
      && RotationSaved(outs[r], TP, TF, p, RotationAt(R, r))
      && (r < |R| || p.nd.nx == 0)
  }

  /** The outputs of the first passes of the rotation loop: completed when
      all numRots passes ran, otherwise pass |outs| threw, either in R->at or
      in sizing the trimmed grids. */
  ghost predicate RotationsSaved(outs: seq<Saved>, completed: bool, TP: Grid<bool>, TF: Grid<bool>,
                                 p: Plan, R: seq<Mat3>, numRots: nat) {
    && |outs| <= numRots
    && (completed <==> |outs| == numRots)
    && PassesSaved(outs, TP, TF, p, R)
    && (!completed ==>
          !PassRuns(TP, p, R, |outs|))
  }

  /** Pass r's entry of PassesSaved. */
  lemma {:induction false} PassSaved(outs: seq<Saved>, TP: Grid<bool>, TF: Grid<bool>, p: Plan, R: seq<Mat3>, r: nat)
    requires PassesSaved(outs, TP, TF, p, R) && r < |outs|
    ensures RotationSaved(outs[r], TP, TF, p, RotationAt(R, r))
    ensures r < |R| || p.nd.nx == 0
    decreases |outs|
  {
    if r < |outs| - 1 {
      var prefix := outs[..|outs| - 1];
      PassSaved(prefix, TP, TF, p, R, r);
      assert prefix[r] == outs[r];
    }
  }

  /** A saved pass extends the record of the passes before it. */
  lemma PassesSavedStep(outs: seq<Saved>, out: Saved, TP: Grid<bool>, TF: Grid<bool>, p: Plan, R: seq<Mat3>)
    requires PassesSaved(outs, TP, TF, p, R)
    requires RotationSaved(out, TP, TF, p, RotationAt(R, |outs|)) && (|outs| < |R| || p.nd.nx == 0)
    ensures PassesSaved(outs + [out], TP, TF, p, R)
  {
    assert (outs + [out])[..|outs|] == outs;
  }

  /** Pass r of the rotation loop, after the passes that wrote outs; ok is
      false when R->at(r) throws, which happens as soon as the enlarged grid
      has a cell and r is past the end of R, or when the crop throws. */
  method SavePass(tp: array3<bool>, tf: array3<bool>, p: Plan, R: seq<Mat3>, r: nat, ghost outs: seq<Saved>)
    returns (out: Saved, ok: bool)
    requires DimsOf(tp) == DimsOf(tf) == p.d && p.nd.nz == p.d.nz && 1 <= p.d.nz
    requires |outs| == r && PassesSaved(outs, Snapshot(tp), Snapshot(tf), p, R)
    ensures ok == PassRuns(Snapshot(tp), p, R, r)
    ensures ok ==> PassesSaved(outs + [out], Snapshot(tp), Snapshot(tf), p, R)
  {
    if |R| <= r && 0 < p.nd.nx {
      out, ok := Saved(VoxelGrid([], 0, Index3(0, 0, 0)), VoxelGrid([], 0, Index3(0, 0, 0)),
                       MetaData(Index3(0, 0, 0), 0, 0, 0, 0.0, 0.0)), false;
      return;
    }
    out, ok := SaveRotation(tp, tf, p, RotationAt(R, r));
    if ok {
      PassesSavedStep(outs, out, Snapshot(tp), Snapshot(tf), p, R);
    }
  }

  /** The rotation loop: passes 0 to numRots - 1 in order; the first pass
      that throws ends it. */
  method SaveRotations(tp: array3<bool>, tf: array3<bool>, p: Plan, R: seq<Mat3>, numRots: nat)
    returns (outs: seq<Saved>, completed: bool)
    requires DimsOf(tp) == DimsOf(tf) == p.d && p.nd.nz == p.d.nz && 1 <= p.d.nz
    ensures RotationsSaved(outs, completed, Snapshot(tp), Snapshot(tf), p, R, numRots)
  {
    outs := [];
    for r := 0 to numRots
      invariant |outs| == r
      invariant PassesSaved(outs, Snapshot(tp), Snapshot(tf), p, R)
    {
      var out, ok := SavePass(tp, tf, p, R, r, outs);
      if !ok {
        completed := false;
        return;
      }
      outs := outs + [out];
    }
    completed := true;
  }

  /** What saveVoxelGrids writes for point counts P and free-space counts F
      of extents d: both thresholded with the z-score of P, then saved pass by
      pass, each record carrying the set-voxel counts of the whole masks. */
  ghost predicate SavedFrom(outs: seq<Saved>, completed: bool, P: Grid<int>, F: Grid<int>, d: Dims,
                            zeroZeroD: Vec3, zeroZero: Index3, voxelsPerMeter: real, pixelsPerMeter: real,
                            R: seq<Mat3>, numRots: nat) {
    var zs := GridZScore(P, d);
    var TP := Mask(P, zs, d);
    var TF := Mask(F, zs, d);
    var p := PlanOf(d, zeroZeroD, zeroZero, SetCount(TP, d), SetCount(TF, d),
                    voxelsPerMeter, pixelsPerMeter);
    RotationsSaved(outs, completed, TP, TF, p, R, numRots)
  }

  /** The rotation loop run on the thresholded masks and their counts is saveVoxelGrids' output. */
  lemma SavedFromMasks(outs: seq<Saved>, completed: bool, P: Grid<int>, F: Grid<int>, d: Dims,
                       zs: ZScore, TP: Grid<bool>, TF: Grid<bool>, nonZeroPoint: int, numNonZeros: int,
                       zeroZeroD: Vec3, zeroZero: Index3, voxelsPerMeter: real, pixelsPerMeter: real,
                       R: seq<Mat3>, numRots: nat)
    requires zs == GridZScore(P, d) && TP == Mask(P, zs, d) && TF == Mask(F, zs, d)
    requires nonZeroPoint as real == TrueCount(TP, d) && numNonZeros as real == TrueCount(TF, d)
    requires RotationsSaved(outs, completed, TP, TF,
                            PlanOf(d, zeroZeroD, zeroZero, nonZeroPoint, numNonZeros, voxelsPerMeter, pixelsPerMeter),
                            R, numRots)
    ensures SavedFrom(outs, completed, P, F, d, zeroZeroD, zeroZero, voxelsPerMeter, pixelsPerMeter, R, numRots)
  {
    assert SetCount(TP, d) == nonZeroPoint;
    assert SetCount(TF, d) == numNonZeros;
  }

  /** The body of saveVoxelGrids on its two count grids: the z-score of the
      point grid, both masks, the enlarged extents and margins, then the
      rotation loop. */
  method SaveGrids(pointGrid: array3<int>, freeSpace: array3<int>, zeroZeroD: Vec3, zeroZero: Index3,
                   voxelsPerMeter: real, pixelsPerMeter: real, R: seq<Mat3>, numRots: nat)
    returns (outs: seq<Saved>, completed: bool)
    requires DimsOf(pointGrid) == DimsOf(freeSpace) && 1 <= pointGrid.Length0
    ensures SavedFrom(outs, completed, Snapshot(pointGrid), Snapshot(freeSpace), DimsOf(pointGrid),
                      zeroZeroD, zeroZero, voxelsPerMeter, pixelsPerMeter, R, numRots)
  {
    var d := DimsOf(pointGrid);
    var zs := PointScore(pointGrid);
    var tp, tf, nonZeroPoint, numNonZeros := ThresholdGrids(pointGrid, freeSpace, zs);
    var p := PlanOf(d, zeroZeroD, zeroZero, nonZeroPoint, numNonZeros, voxelsPerMeter, pixelsPerMeter);
    outs, completed := SaveRotations(tp, tf, p, R, numRots);
    SavedFromMasks(outs, completed, Snapshot(pointGrid), Snapshot(freeSpace), d, zs, Snapshot(tp), Snapshot(tf),
                   nonZeroPoint, numNonZeros, zeroZeroD, zeroZero, voxelsPerMeter, pixelsPerMeter, R, numRots);
  }

  /** Pass r runs to its end: R->at(r) succeeds or is never evaluated, and the crop is legal. */
  ghost predicate PassRuns(TP: Grid<bool>, p: Plan, R: seq<Mat3>, r: nat) {
    (r < |R| || p.nd.nx == 0) && SaveSucceeds(TP, p, RotationAt(R, r))
  }

  class CloudAnalyzer3D {
    const points: seq<Vec3>
    const R: seq<Mat3>
    const bBox: BoxCorners
    var pointMin: Vec3
    var pointMax: Vec3
    var voxelsPerMeter: real
    var pixelsPerMeter: real
    /** pointsPerVoxel[z](y, x) and numTimesSeen[z](y, x), as arrays indexed [z, y, x]. */
    var pointsPerVoxel: array3<int>
    var numTimesSeen: array3<int>
    var zeroZero: Index3
    var zeroZeroD: Vec3

    /** The analyzer keeps its three inputs; the grids start out empty. */
    constructor (points: seq<Vec3>, R: seq<Mat3>, bBox: BoxCorners)
      ensures this.points == points && this.R == R && this.bBox == bBox
      ensures DimsOf(pointsPerVoxel) == DimsOf(numTimesSeen) == Dims(0, 0, 0)
    {
      this.points := points;
      this.R := R;
      this.bBox := bBox;
      pointMin := Vec3(0.0, 0.0, 0.0);
      pointMax := Vec3(0.0, 0.0, 0.0);
      voxelsPerMeter := 0.0;
      pixelsPerMeter := 0.0;
      pointsPerVoxel := new int[0, 0, 0];
      numTimesSeen := new int[0, 0, 0];
      zeroZero := Index3(0, 0, 0);
      zeroZeroD := Vec3(0.0, 0.0, 0.0);
    }

    /** The state saveVoxelGrids expects: two distinct grids of the same
        extents with at least one slice (it reads pointGrid[0]). */
    ghost predicate Ready()
      reads this
    {
      && pointsPerVoxel != numTimesSeen
      && DimsOf(pointsPerVoxel) == DimsOf(numTimesSeen)
      && 1 <= pointsPerVoxel.Length0
    }

    /** Rasterize the cloud at the given resolution, accumulate free-space
        evidence along the rays, and place the origin at -pointMin scaled. */
    method Run(voxelsPerMeter: real, pixelsPerMeter: real, rays: Caster)
      requires Sizable(bBox, voxelsPerMeter)
      modifies this
      ensures pointMin == bBox.pointMin && pointMax == bBox.pointMax
      ensures this.voxelsPerMeter == voxelsPerMeter && this.pixelsPerMeter == pixelsPerMeter
      ensures fresh(pointsPerVoxel) && fresh(numTimesSeen) && pointsPerVoxel != numTimesSeen
      ensures DimsOf(pointsPerVoxel) == DimsOf(numTimesSeen) == GridDims(bBox, voxelsPerMeter)
      ensures Snapshot(pointsPerVoxel) == OccupancyGrid(Frame(pointMin, voxelsPerMeter), GridDims(bBox, voxelsPerMeter), points)
      ensures forall z, y, x :: 0 <= z < numTimesSeen.Length0 && 0 <= y < numTimesSeen.Length1 && 0 <= x < numTimesSeen.Length2 ==>
        numTimesSeen[z, y, x] as real == SeenCount(Snapshot(pointsPerVoxel), rays, DimsOf(pointsPerVoxel), Index3(x, y, z))
      ensures zeroZeroD == Origin(pointMin, voxelsPerMeter)
      ensures zeroZero == Index3(Trunc(zeroZeroD.x), Trunc(zeroZeroD.y), Trunc(zeroZeroD.z))
    {
      var counts, seen := Carve(points, Frame(bBox.pointMin, voxelsPerMeter), GridDims(bBox, voxelsPerMeter), rays);
      var origin := Origin(bBox.pointMin, voxelsPerMeter);
      pointMin, pointMax := bBox.pointMin, bBox.pointMax;
      this.voxelsPerMeter, this.pixelsPerMeter := voxelsPerMeter, pixelsPerMeter;
      zeroZeroD, zeroZero := origin, Index3(Trunc(origin.x), Trunc(origin.y), Trunc(origin.z));
      pointsPerVoxel, numTimesSeen := counts, seen;
    }

    /** Threshold both grids with the point grid's z-score, then for each of
        the numRots rotations resample, trim and record them. Both count grids
        are cleared. completed is false when a pass throws: R->at past the end
        of R, or a negative newZ from an empty rotated point mask. */
    method SaveVoxelGrids(numRots: nat) returns (outs: seq<Saved>, completed: bool)
      requires Ready()
      modifies this
      ensures pointMin == old(pointMin) && pointMax == old(pointMax) && zeroZero == old(zeroZero) && zeroZeroD == old(zeroZeroD)
      ensures voxelsPerMeter == old(voxelsPerMeter) && pixelsPerMeter == old(pixelsPerMeter)
      ensures fresh(pointsPerVoxel) && fresh(numTimesSeen)
      ensures DimsOf(pointsPerVoxel) == DimsOf(numTimesSeen) == Dims(0, 0, 0)
      ensures SavedFrom(outs, completed, old(Snapshot(pointsPerVoxel)), old(Snapshot(numTimesSeen)), old(DimsOf(pointsPerVoxel)),
                        zeroZeroD, zeroZero, voxelsPerMeter, pixelsPerMeter, R, numRots)
    {
      var pointGrid, freeSpace := pointsPerVoxel, numTimesSeen;
      ghost var P, F, d := Snapshot(pointGrid), Snapshot(freeSpace), DimsOf(pointGrid);
      outs, completed := SaveGrids(pointGrid, freeSpace, zeroZeroD, zeroZero, voxelsPerMeter, pixelsPerMeter, R, numRots);
      pointsPerVoxel := new int[0, 0, 0];
      numTimesSeen := new int[0, 0, 0];
    }
  }
  /** Every saved pass carries the set-voxel counts of the whole thresholded
      masks, taken before any rotation, one origin shared by both grids and
      the metadata, and the two resolutions. */
  lemma SavedRecords(outs: seq<Saved>, completed: bool, P: Grid<int>, F: Grid<int>, d: Dims,
                     zeroZeroD: Vec3, zeroZero: Index3, voxelsPerMeter: real, pixelsPerMeter: real,
                     R: seq<Mat3>, numRots: nat, r: nat)
    requires r < |outs|
    requires SavedFrom(outs, completed, P, F, d, zeroZeroD, zeroZero, voxelsPerMeter, pixelsPerMeter, R, numRots)
    ensures var zs := GridZScore(P, d);
            && outs[r].point.c == SetCount(Mask(P, zs, d), d)
            && outs[r].free.c == SetCount(Mask(F, zs, d), d)
            && outs[r].point.zZ == outs[r].free.zZ == outs[r].meta.zZ
            && outs[r].meta.voxelsPerMeter == voxelsPerMeter && outs[r].meta.pixelsPerMeter == pixelsPerMeter
  {
    var zs := GridZScore(P, d);
    var TP := Mask(P, zs, d);
    var TF := Mask(F, zs, d);
    var p := PlanOf(d, zeroZeroD, zeroZero, SetCount(TP, d), SetCount(TF, d),
                    voxelsPerMeter, pixelsPerMeter);
    PassSaved(outs, TP, TF, p, R, r);
    var m := Centered(RotationAt(R, r), p.zeroZeroD, p.dX, p.dY);
    var RP, RF := Rotated(TP, d, p.nd, m), Rotated(TF, d, p.nd, m);
    var b :| Tight(b, RP, p.nd) && Croppable(b, p.nd) && outs[r] == Assembled(RP, RF, b, p);
  }

  // ---------------------------------------------------------------------
  // The degenerate path: a cloud with no point inside the grid.

  /** With no non-zero point count the z-score is NaN (countP == 0), both
      masks are empty, and so is every rotation of the point mask. */
  lemma EmptyCloudRotatesToNothing(P: Grid<int>, d: Dims, p: Plan, rot: Mat3)
    requires forall c :: InBox(c, d) ==> At(P, c, 0) == 0
    requires p.d == d && p.nd.nz == d.nz
    ensures GridZScore(P, d) == NaN
    ensures var RP := Rotated(Mask(P, GridZScore(P, d), d), d, p.nd, Centered(rot, p.zeroZeroD, p.dX, p.dY));
            && !HasSet(RP, p.nd)
            && forall b :: Tight(b, RP, p.nd) ==>
                 b == Sentinel(p.nd) && Depth(b) == 1 - d.nz && (Croppable(b, p.nd) <==> d.nz == 1)
  {
    var zs := GridZScore(P, d);
    EmptyPointGridMasksNothing(P, P, d);
    var TP := Mask(P, zs, d);
    var m := Centered(rot, p.zeroZeroD, p.dX, p.dY);
    EmptyStaysEmpty(TP, d, p.nd, m);
    var RP := Rotated(TP, d, p.nd, m);
    forall b | Tight(b, RP, p.nd)
      ensures b == Sentinel(p.nd) && Depth(b) == 1 - d.nz && (Croppable(b, p.nd) <==> d.nz == 1)
    {
      EmptyMaskWindow(b, RP, p.nd);
    }
  }

  /** With no point inside a grid of two or more slices, the first pass
      already throws (newZ = 1 - z is negative) and nothing is saved. */
  lemma EmptyCloudSavesNothing(outs: seq<Saved>, completed: bool, P: Grid<int>, F: Grid<int>, d: Dims,
                               zeroZeroD: Vec3, zeroZero: Index3, voxelsPerMeter: real, pixelsPerMeter: real,
                               R: seq<Mat3>, numRots: nat)
    requires forall c :: InBox(c, d) ==> At(P, c, 0) == 0
    requires 2 <= d.nz && 1 <= numRots
    requires SavedFrom(outs, completed, P, F, d, zeroZeroD, zeroZero, voxelsPerMeter, pixelsPerMeter, R, numRots)
    ensures outs == [] && !completed
  {
    var zs := GridZScore(P, d);
    var TP := Mask(P, zs, d);
    var TF := Mask(F, zs, d);
    var p := PlanOf(d, zeroZeroD, zeroZero, SetCount(TP, d), SetCount(TF, d),
                    voxelsPerMeter, pixelsPerMeter);
    if outs != [] {
      PassSaved(outs, TP, TF, p, R, 0);
      EmptyCloudRotatesToNothing(P, d, p, RotationAt(R, 0));
      assert false;
    }
  }

  /** Two or more occupied voxels that all hold the same number of points, in
      a grid of two or more slices: sigma is 0, the point mask is empty, and
      the first pass already throws, as for an empty cloud. */
  lemma UniformCloudSavesNothing(outs: seq<Saved>, completed: bool, P: Grid<int>, F: Grid<int>, d: Dims,
                                 zeroZeroD: Vec3, zeroZero: Index3, voxelsPerMeter: real, pixelsPerMeter: real,
                                 R: seq<Mat3>, numRots: nat, v: int)
    requires v != 0
    requires forall c :: InBox(c, d) ==> At(P, c, 0) == 0 || At(P, c, 0) == v
    requires 2.0 <= NonZeroCount(P, d)
    requires 2 <= d.nz && 1 <= numRots
    requires SavedFrom(outs, completed, P, F, d, zeroZeroD, zeroZero, voxelsPerMeter, pixelsPerMeter, R, numRots)
    ensures outs == [] && !completed
  {
    var zs := GridZScore(P, d);
    var TP := Mask(P, zs, d);
    var TF := Mask(F, zs, d);
    var p := PlanOf(d, zeroZeroD, zeroZero, SetCount(TP, d), SetCount(TF, d),
                    voxelsPerMeter, pixelsPerMeter);
    UniformCountsMaskNothing(P, d, v);
    if outs != [] {
      PassSaved(outs, TP, TF, p, R, 0);
      var m := Centered(RotationAt(R, 0), p.zeroZeroD, p.dX, p.dY);
      EmptyStaysEmpty(TP, d, p.nd, m);
      var RP := Rotated(TP, d, p.nd, m);
      var b :| Tight(b, RP, p.nd) && Croppable(b, p.nd) && outs[0] == Assembled(RP, Rotated(TF, d, p.nd, m), b, p);
      EmptyMaskWindow(b, RP, p.nd);
      assert false;
    }
  }

  /** With no point inside a single-slice grid every pass runs (R permitting)
      and writes empty trimmed grids, whose metadata carries the sentinel
      extents newX = 1 - newCols, newY = 1 - newRows and newZ = 0. */
  lemma EmptySingleSliceSavesEmptyGrids(outs: seq<Saved>, completed: bool, P: Grid<int>, F: Grid<int>, d: Dims,
                                        zeroZeroD: Vec3, zeroZero: Index3, voxelsPerMeter: real, pixelsPerMeter: real,
                                        R: seq<Mat3>, numRots: nat, r: nat)
    requires forall c :: InBox(c, d) ==> At(P, c, 0) == 0
    requires d.nz == 1 && r < |outs|
    requires SavedFrom(outs, completed, P, F, d, zeroZeroD, zeroZero, voxelsPerMeter, pixelsPerMeter, R, numRots)
    ensures var nd := EnlargedDims(d);
            && outs[r].point.v == [] && outs[r].free.v == []
            && outs[r].meta.x == 1 - nd.nx && outs[r].meta.y == 1 - nd.ny && outs[r].meta.z == 0
            && (1 <= d.nx || 1 <= d.ny ==> outs[r].meta.x <= 0 && outs[r].meta.y <= 0)
  {
    var zs := GridZScore(P, d);
    var TP := Mask(P, zs, d);
    var TF := Mask(F, zs, d);
    var p := PlanOf(d, zeroZeroD, zeroZero, SetCount(TP, d), SetCount(TF, d),
                    voxelsPerMeter, pixelsPerMeter);
    PassSaved(outs, TP, TF, p, R, r);
    var m := Centered(RotationAt(R, r), p.zeroZeroD, p.dX, p.dY);
    var RP := Rotated(TP, d, p.nd, m);
    EmptyCloudRotatesToNothing(P, d, p, RotationAt(R, r));
    var b :| Tight(b, RP, p.nd) && Croppable(b, p.nd) && outs[r] == Assembled(RP, Rotated(TF, d, p.nd, m), b, p);
    EmptyMaskWindow(b, RP, p.nd);
  }
}
