# Voxel carving of a scanned point cloud

This project models `voxel::CloudAnalyzer3D`, the class that turns one
scan's point cloud into voxel grids. It is written as imperative Dafny: a
class with array fields, methods with loops, and specification functions the
methods are proved against.

- `Run` rasterizes the cloud into per-voxel point counts (`pointsPerVoxel`).
  It then accumulates free-space evidence (`numTimesSeen`) along the ray from
  the camera to every occupied voxel. It also places the world origin in
  voxel coordinates (`zeroZeroD`, and `zeroZero` truncated to ints).
- `SaveVoxelGrids` computes the mean and sample variance of the non-zero
  point counts. It thresholds both count grids with that z-score into
  boolean masks and counts the set voxels. Then, for each rotation, it:
  - resamples both masks into an enlarged square grid under one shared
    inverse map;
  - finds the tight bounding box of the rotated point mask;
  - crops both masks to that box;
  - records the origin relative to the box's lower corner.

Modules follow the stages of the pipeline:

- `Geometry`: vectors, matrices, truncation toward zero, the enlarged side.
- `Grids`: grid values, array snapshots and layered box sums.
- `Raster`: rasterization.
- `FreeSpace`: free-space accumulation.
- `Threshold`: statistics and masks.
- `Resample`: rotation resampling.
- `Trim`: bounding box and crop.
- `Place`: the `VoxelGrid` and `MetaData` records.
- `Voxel`: the class and the rotation loop.

Arrays are `array3` indexed `[z, y, x]`, mirroring the source's
`vector<Matrix>` indexed `[z](y, x)`. Loops visit slices, then columns,
then rows, as the source does.

Doubles are exact reals. The z-score test `(v - mean) / sigma > -1` is written
without the square root; `PassesIsZScoreTest` proves the two forms agree for
`sigma > 0`. With fewer than two non-zero counts the statistics are 0/0, that
is NaN, and every comparison fails.

The degenerate paths are stated as lemmas:

- An all-zero point grid divides by `countP == 0`. The z-score is NaN and
  both masks stay empty.
- Two or more occupied voxels that all hold the same count v give mean v and
  sigma 0. Every point cell then computes `(v - v) / 0`, which is NaN, so the
  point mask is empty. This is the case of a fine voxel size where each
  occupied voxel holds one point.
- An empty rotated point mask leaves the scan's sentinels in place. Then
  `newX = 1 - newCols`, `newY = 1 - newRows` and `newZ = 1 - z`.
  - With one slice this gives empty trimmed grids. When the grid has a row
    or a column, the metadata holds `newX <= 0` and `newY <= 0`; a grid with
    neither enlarges to side 0 and gets `newX = newY = 1`.
  - With two or more slices, sizing the trimmed vector with a negative
    `newZ` throws, so that pass and every later one write nothing; earlier
    passes keep what they wrote. With an empty cloud this happens on the
    first pass, so nothing is saved.

The free-space mask is thresholded with the point grid's mean and sigma
(`scanDensity/3DInfo.cpp:218`). `averageF` and `sigmaF` are computed and never
read. The model follows the code.

## Model

| member | source | states |
|---|---|---|
| Geometry.Trunc | scanDensity/3DInfo.cpp:29-31 | the double-to-int conversion truncates toward zero: the result is within one of the argument, on the side of zero |
| Geometry.DiagonalSide | scanDensity/3DInfo.cpp:227 | `newRows = int(sqrt(2) * m)` is the integer square root of `2 m^2`: `side^2 <= 2 m^2 < (side + 1)^2` |
| Geometry.DiagonalSideCovers | scanDensity/3DInfo.cpp:227 | the enlarged side is at least the larger original side |
| Grids.SetCount | scanDensity/3DInfo.cpp:203-221 | the set-voxel count `nonZeroPoint++` / `numNonZeros++` yields a natural number equal to the real-valued sum over the mask |
| Raster.Rasterize | scanDensity/3DInfo.cpp:26-41 | the count grid the loop fills is the occupancy grid of the point sequence: each cell counts the points whose truncated indices name it |
| Raster.AddedPointTouchesOneCell | scanDensity/3DInfo.cpp:28-40 | one more point changes the grid only when all three indices are in range, and then raises exactly that cell by one; an out-of-range point leaves the grid unchanged |
| Raster.OccupancyConservesPoints | scanDensity/3DInfo.cpp:26-41 | the sum of all counts equals the number of points that fall inside the grid |
| Raster.OccupancyAppend | scanDensity/3DInfo.cpp:28-41 | a cell's count over two point sequences in turn is the sum of its counts over each |
| Raster.OccupancyPermutation | scanDensity/3DInfo.cpp:28-41 | a cell's count depends only on the multiset of points |
| Raster.OccupancyGridOrderIndependent | scanDensity/3DInfo.cpp:26-41 | the whole count grid is the same for any reordering of the points |
| FreeSpace.CastRay | scanDensity/3DInfo.cpp:64-82 | every in-range hit of steps `a < stop` gains the source count; out-of-range hits are skipped; every other cell is unchanged |
| FreeSpace.CastVoxel | scanDensity/3DInfo.cpp:54-82 | a voxel with no points casts nothing; otherwise its ray moves each cell's running total one source voxel along |
| FreeSpace.AccumulateFreeSpace | scanDensity/3DInfo.cpp:49-85 | each free-space cell ends up holding the casts of all source voxels added up (`SeenCount`) |
| FreeSpace.RayContributionNonNegative | scanDensity/3DInfo.cpp:80-81 | a non-negative source count adds a non-negative amount to any cell |
| FreeSpace.SeenCountNonNegative | scanDensity/3DInfo.cpp:49-85 | non-negative point counts give non-negative free-space counts everywhere |
| FreeSpace.ShortRaysSeeNothing | scanDensity/3DInfo.cpp:64-66 | when every `stop <= 0` no cell is credited |
| FreeSpace.EmptyOccupancySeesNothing | scanDensity/3DInfo.cpp:54-55 | a grid with no points casts no rays, so every free-space count is zero |
| FreeSpace.LoneVoxelCastsAlone | scanDensity/3DInfo.cpp:51-85 | with one occupied voxel, a cell's count is that voxel's count times the number of its ray's steps landing on the cell |
| Threshold.NonZeroMoments | scanDensity/3DInfo.cpp:166-180 | the first loop returns the sum and the number of the non-zero point counts |
| Threshold.SquaredDeviations | scanDensity/3DInfo.cpp:184-194 | the second loop returns the sum of squared deviations from the mean over the non-zero counts |
| Threshold.PointScore | scanDensity/3DInfo.cpp:163-198 | `averageP` and `sigmaP` are the grid's z-score statistics: NaN below two non-zero counts, otherwise the mean and the sample variance |
| Threshold.Mask | scanDensity/3DInfo.cpp:211-221 | a thresholded mask has the grid's extents, and a zero count never sets its cell |
| Threshold.ThresholdCell | scanDensity/3DInfo.cpp:211-221 | a cell is written only when its count is non-zero, and it is counted exactly when set |
| Threshold.ThresholdGrids | scanDensity/3DInfo.cpp:200-223 | both masks are the point grid's z-score masks of their count grids; `nonZeroPoint` and `numNonZeros` are their numbers of set cells, `SetCount` of each mask |
| Threshold.PassesIsZScoreTest | scanDensity/3DInfo.cpp:212-213 | for `sigma > 0` the square-free test holds exactly when `(v - mean) / sigma > -1` |
| Threshold.PassesMonotone | scanDensity/3DInfo.cpp:212-213 | with the statistics fixed, a count at least one that passes also passes |
| Threshold.MaskMonotone | scanDensity/3DInfo.cpp:204-223 | raising non-negative counts never clears a mask cell, so the number of set cells cannot fall |
| Threshold.MaskCountBounded | scanDensity/3DInfo.cpp:203-223 | a mask sets at most as many cells as its grid has non-zero counts |
| Threshold.VarianceNonNegative | scanDensity/3DInfo.cpp:183-196 | the variance whose root is `sigmaP` is never negative |
| Threshold.NaNMasksNothing | scanDensity/3DInfo.cpp:212-220 | with NaN statistics neither mask sets any cell |
| Threshold.EmptyPointGridMasksNothing | scanDensity/3DInfo.cpp:181 | an all-zero point grid has `countP == 0`, NaN statistics and two empty masks, even where the free-space grid has counts |
| Threshold.UniformCountsMaskNothing | scanDensity/3DInfo.cpp:163-213 | two or more non-zero counts, all equal to v, give mean v and variance 0, and no point cell is set |
| Threshold.LoneVoxelHasNoScore | scanDensity/3DInfo.cpp:195 | a single non-zero count gives the 0/0 variance, so the statistics are NaN |
| Resample.EnlargedDims | scanDensity/3DInfo.cpp:227-228 | the enlarged grid is square, keeps z, and is at least as wide and as tall as the original |
| Resample.Margin | scanDensity/3DInfo.cpp:229-230 | `dX = (newCols - x) / 2.0` truncated: non-negative and half the added width, rounded down |
| Resample.CenteringFits | scanDensity/3DInfo.cpp:227-233 | with the centring margins the original extents fit inside the enlarged ones |
| Resample.SourceCellInBox | scanDensity/3DInfo.cpp:252-259 | a source point that passes the three range tests indexes a voxel inside the original grid |
| Resample.Rotated | scanDensity/3DInfo.cpp:239-263 | the resampled grid has the enlarged extents, and a set destination voxel always has an in-range set source voxel |
| Resample.ResampleCell | scanDensity/3DInfo.cpp:249-260 | one destination voxel of both grids gets its source voxel's value, or stays false when the source is out of range |
| Resample.ResampleGrids | scanDensity/3DInfo.cpp:238-263 | both fresh grids are the resampling of their masks under the same map |
| Resample.IdentityShifts | scanDensity/3DInfo.cpp:231-233 | under the identity matrix a destination voxel reads the source at itself minus the margins |
| Resample.IdentityKeepsEveryVoxel | scanDensity/3DInfo.cpp:246-261 | unrotated, each voxel of the original reappears in the enlarged grid moved by margins that fit |
| Resample.EmptyStaysEmpty | scanDensity/3DInfo.cpp:252-260 | an empty mask stays empty under any rotation |
| Trim.ScanSetVoxel | scanDensity/3DInfo.cpp:274-283 | a set voxel moves each bound it lies outside of to its own coordinate, keeping the scanned voxels enclosed |
| Trim.BoundingBox | scanDensity/3DInfo.cpp:265-286 | the min/max scan returns the tight box: it encloses every set voxel with a set voxel on each face, or is the sentinel box when there is none |
| Trim.TightUnique | scanDensity/3DInfo.cpp:265-286 | the tight box is determined by the mask |
| Trim.TightWithin | scanDensity/3DInfo.cpp:265-290 | a mask with a set voxel has a tight box inside the grid, with extents from 1 up to the grid's |
| Trim.EmptyMaskWindow | scanDensity/3DInfo.cpp:265-290 | for an empty mask `newX = 1 - newCols`, `newY = 1 - newRows` and `newZ = 1 - z`, and the crop is legal only with one slice |
| Trim.BlockIsCropSlice | scanDensity/3DInfo.cpp:300-303 | `block(minRow, minCol, newY, newX)` of slice `k + minZ` is slice k of the crop |
| Trim.TrimGrid | scanDensity/3DInfo.cpp:292-304 | the trim loop builds the crop of the array to the window |
| Trim.CropKeepsEverySetVoxel | scanDensity/3DInfo.cpp:288-304 | trimming to the tight box loses no set voxel |
| Trim.CropIsTight | scanDensity/3DInfo.cpp:288-304 | the trimmed grid cannot be trimmed further: its own tight box is the whole grid |
| Place.PlaceMeta | scanDensity/3DInfo.cpp:313-319 | the record holds the window's extents and `zZ = zeroZero + (dX, dY, 0) - (minCol, minRow, minZ)` |
| Place.TrimmedOffset | scanDensity/3DInfo.cpp:313-319 | measured from the trimmed origin, a voxel moved by the window's corner keeps its offset from the centred origin |
| Place.CropKeepsPosition | scanDensity/3DInfo.cpp:288-323 | each set voxel of the rotated mask is in the trimmed grid, within the recorded extents, at the same offset from `zZ` as from the centred origin |
| Place.CropAddsNothing | scanDensity/3DInfo.cpp:299-319 | each set voxel of the trimmed grid comes from a set voxel of the rotated mask at the same offset from the origin |
| Voxel.Carve | scanDensity/3DInfo.cpp:26-85 | the two passes over the cloud: fresh, distinct grids of the given extents, the occupancy counts and then each cell's free-space count from those counts |
| Voxel.PlanOf | scanDensity/3DInfo.cpp:227-233 | the enlarged extents and margins shared by every rotation: the original grid fits inside, offset by `(dX, dY)` |
| Voxel.SaveRotation | scanDensity/3DInfo.cpp:238-331 | one pass either throws (an empty rotated point mask with two or more slices) or writes both masks rotated under one map, cropped to the point mask's tight box, with the counts and the placed origin |
| Voxel.PassSaved | scanDensity/3DInfo.cpp:237-332 | a pass's entry in the loop's record: its output is what its rotation writes, and it did not read past the end of `R` |
| Voxel.PassesSavedStep | scanDensity/3DInfo.cpp:237-332 | a successful pass extends the record of the passes before it |
| Voxel.SavePass | scanDensity/3DInfo.cpp:237-250 | pass r fails exactly when `R->at(r)` is evaluated past the end of `R` or the crop throws; otherwise it extends the record |
| Voxel.SaveRotations | scanDensity/3DInfo.cpp:237-332 | the loop stops at the first failing pass; it completes exactly when all passes ran, and every saved pass is recorded |
| Voxel.SaveGrids | scanDensity/3DInfo.cpp:156-332 | the body of saveVoxelGrids: masks from the point grid's z-score, the set-voxel counts, then the rotation loop |
| Voxel.SavedRecords | scanDensity/3DInfo.cpp:241-245 | each saved pass carries the pre-rotation set-voxel counts (`SetCount`, a natural number) of both masks, one origin for both grids and the metadata, and the two resolutions |
| Voxel.CloudAnalyzer3D.constructor | scanDensity/3DInfo.cpp:9-13 | the analyzer keeps the cloud, the rotations and the bounding box |
| Voxel.CloudAnalyzer3D.Run | scanDensity/3DInfo.cpp:15-93 | the count grid is the occupancy grid at `numX, numY, numZ`; each free-space cell is its `SeenCount`; `zeroZeroD = -pointMin` scaled and `zeroZero` is its truncation |
| Voxel.CloudAnalyzer3D.SaveVoxelGrids | scanDensity/3DInfo.cpp:153-334 | the saved passes are those of the count grids as run left them (`SavedFrom`); both grids are cleared and nothing else changes |
| Voxel.EmptyCloudRotatesToNothing | scanDensity/3DInfo.cpp:181 | with no point in the grid the z-score is NaN, every rotated point mask is empty, and its tight box is the sentinel with `newZ = 1 - z` |
| Voxel.EmptyCloudSavesNothing | scanDensity/3DInfo.cpp:288-296 | with no point in a grid of two or more slices the first pass throws and nothing is saved |
| Voxel.UniformCloudSavesNothing | scanDensity/3DInfo.cpp:163-296 | when two or more occupied voxels all hold the same count, in a grid of two or more slices, the point mask is empty and the first pass throws, so nothing is saved |
| Voxel.EmptySingleSliceSavesEmptyGrids | scanDensity/3DInfo.cpp:288-319 | with no point in a one-slice grid every saved pass writes empty grids whose metadata holds `newX = 1 - newCols`, `newY = 1 - newRows` and `newZ = 0`; when the grid has a row or a column, `newX <= 0` and `newY <= 0` |

## Left out

- `displayVoxelGrid` and the `FLAGS_visulization` branch (`scanDensity/3DInfo.cpp:94-150, 308-311`): a display window, not part of the computation.
- File output: the `std::ofstream` writers and `writeToFile` of `MetaData` and `VoxelGrid`. `SaveVoxelGrids` returns the records it would write, one `Saved` per pass; `pointNames`, `freeNames` and `metaData` are not modelled.
- `bBox->getBoundingBox`: an external collaborator. Its two corners are the `BoxCorners` constant of the class.
- Floating point: doubles and floats are exact reals. Rounding error, infinities other than those of the z-score test, and the `float` precision of `zScale` are not modelled; `zScale` is `voxelsPerMeter`.
- FreeSpace.Caster: the ray's norm, unit vector, `floor(0.85 * length - 3)` and the per-step `floor` of the hit voxel need a square root. They are a parameter of `Run` giving `stop` and the hit voxel of each step.
- Rotation matrices are taken as given: the model uses any matrix, not only rotations about z, and shows no geometric property of them beyond the identity.
- `NUM_ROTS` is the `numRots` parameter of `SaveVoxelGrids`, and `R` a sequence of matrices. When `R->at(r)` throws, the pass is reported as failing through `completed = false`; the exception itself is not modelled.
- A vector sized with a negative `newZ` (an empty rotated point mask with two or more slices) is reported the same way, as a failing pass.
- Voxel.CloudAnalyzer3D.SaveVoxelGrids requires a first slice: the source reads `pointGrid[0]` unconditionally, which is undefined for an empty grid.
- The `clear()` of both count grids is modelled as replacing them by empty arrays.
- The flat column-major loops over `data()` are nested loops over `[z, y, x]` in the same visiting order.
- Voxel.CloudAnalyzer3D.Run requires non-negative extents (`Sizable`). With a negative `numX`, `numY` or `numZ` the sizing by `Eigen::MatrixXi::Zero` and `std::vector::assign` (`scanDensity/3DInfo.cpp:20-26`) fails, and this failure is not modelled. The bounding box always gives max >= min, and `voxelsPerMeter` is positive, so the extents are non-negative.
- Widths: `int` and `size_t` are unbounded; no overflow is modelled.
