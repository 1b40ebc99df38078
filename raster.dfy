/** Stage 1 of CloudAnalyzer3D::run: bucketing the point cloud into a grid of
    per-voxel point counts. */
module Raster {
  import opened Geometry
  import opened Grids

  /** Where a point cloud is rasterized: the bounding-box minimum and the
      resolution in voxels per metre (the same scale on all three axes). */
  datatype Frame = Frame(pointMin: Vec3, voxelsPerMeter: real)

  /** The voxel a point falls in: each coordinate is offset by the box
      minimum, scaled and truncated toward zero by the conversion to int. */
  function VoxelOf(f: Frame, p: Vec3): Index3 {
    Index3(Trunc(f.voxelsPerMeter * (p.x - f.pointMin.x)),
           Trunc(f.voxelsPerMeter * (p.y - f.pointMin.y)),
           Trunc(f.voxelsPerMeter * (p.z - f.pointMin.z)))
  }

  /** The number of points that fall in voxel c. */
  function Occupancy(f: Frame, points: seq<Vec3>, c: Index3): nat
    decreases |points|
  {
    if points == [] then 0
    else Occupancy(f, points[..|points| - 1], c) + (if VoxelOf(f, points[|points| - 1]) == c then 1 else 0)
  }

  /** The number of points whose voxel lies inside the grid. */
  function InRangeCount(f: Frame, d: Dims, points: seq<Vec3>): (n: nat)
    ensures n <= |points|
    decreases |points|
  {
    if points == [] then 0
    else InRangeCount(f, d, points[..|points| - 1]) + (if InBox(VoxelOf(f, points[|points| - 1]), d) then 1 else 0)
  }

  function OccupancyField(f: Frame, points: seq<Vec3>): Index3 -> real {
    c => Occupancy(f, points, c) as real
  }

  /** The point-count grid the rasterization loop produces. */
  function OccupancyGrid(f: Frame, d: Dims, points: seq<Vec3>): Grid<int> {
    var count: Index3 -> int := c => Occupancy(f, points, c);
    Tabulate(d, count)
  }

  /** Rasterization: a zeroed grid, then for each point in turn one increment
      of its voxel when all three indices are in range; other points are
      dropped. */
  method Rasterize(f: Frame, points: seq<Vec3>, d: Dims) returns (grid: array3<int>)
    ensures fresh(grid) && DimsOf(grid) == d
    ensures Snapshot(grid) == OccupancyGrid(f, d, points)
  {
    grid := new int[d.nz, d.ny, d.nx]((z, y, x) => 0);
    for n := 0 to |points|
      invariant forall z, y, x :: 0 <= z < d.nz && 0 <= y < d.ny && 0 <= x < d.nx ==>
        grid[z, y, x] == Occupancy(f, points[..n], Index3(x, y, z))
    {
      assert points[..n + 1][..n] == points[..n];
      var v := VoxelOf(f, points[n]);
      if v.x < 0 || v.x >= d.nx {
        continue;
      }
      if v.y < 0 || v.y >= d.ny {
        continue;
      }
      if v.z < 0 || v.z >= d.nz {
        continue;
      }
      grid[v.z, v.y, v.x] := grid[v.z, v.y, v.x] + 1;
    }
    assert points[..|points|] == points;
    GridExt(Snapshot(grid), OccupancyGrid(f, d, points), d);
  }

  lemma {:induction false} OccupancyAppend(f: Frame, a: seq<Vec3>, b: seq<Vec3>, c: Index3)
    ensures Occupancy(f, a + b, c) == Occupancy(f, a, c) + Occupancy(f, b, c)
    decreases |b|
  {
    if b == [] {
      assert a + b == a;
    } else {
      var n := |b| - 1;
      assert (a + b)[..|a + b| - 1] == a + b[..n];
      OccupancyAppend(f, a, b[..n], c);
    }
  }

  /** Reordering the points does not change any voxel's count. */
  lemma {:induction false} OccupancyPermutation(f: Frame, ps: seq<Vec3>, qs: seq<Vec3>, c: Index3)
    requires multiset(ps) == multiset(qs)
    ensures Occupancy(f, ps, c) == Occupancy(f, qs, c)
    decreases |ps|
  {
    if ps == [] {
      assert |qs| == |multiset(qs)| == 0;
    } else {
      var n := |ps| - 1;
      var p := ps[n];
      assert ps == ps[..n] + [p];
      assert p in multiset(qs);
      var m :| 0 <= m < |qs| && qs[m] == p;
      var rest := RemovedPoint(qs, m);
      assert multiset(ps[..n]) == multiset(ps) - multiset{p};
      OccupancyPermutation(f, ps[..n], rest, c);
      OccupancyAppend(f, ps[..n], [p], c);
      OccupancyRemoved(f, qs, m, c);
    }
  }

  /** The points without the one at index m. */
  function RemovedPoint(qs: seq<Vec3>, m: nat): (rest: seq<Vec3>)
    requires m < |qs|
    ensures multiset(rest) == multiset(qs) - multiset{qs[m]}
  {
    assert qs == qs[..m] + [qs[m]] + qs[m + 1..];
    qs[..m] + qs[m + 1..]
  }

  /** Taking one point out removes exactly its own contribution. */
  lemma OccupancyRemoved(f: Frame, qs: seq<Vec3>, m: nat, c: Index3)
    requires m < |qs|
    ensures Occupancy(f, qs, c) == Occupancy(f, RemovedPoint(qs, m), c) + Occupancy(f, [qs[m]], c)
  {
    var p := qs[m];
    assert qs == qs[..m] + ([p] + qs[m + 1..]);
    OccupancyAppend(f, qs[..m], [p] + qs[m + 1..], c);
    OccupancyAppend(f, [p], qs[m + 1..], c);
    OccupancyAppend(f, qs[..m], qs[m + 1..], c);
  }

  /** The occupancy grid depends only on the multiset of points, not on their order. */
  lemma OccupancyGridOrderIndependent(f: Frame, d: Dims, ps: seq<Vec3>, qs: seq<Vec3>)
    requires multiset(ps) == multiset(qs)
    ensures OccupancyGrid(f, d, ps) == OccupancyGrid(f, d, qs)
  {
    forall z, y, x | 0 <= z < d.nz && 0 <= y < d.ny && 0 <= x < d.nx
      ensures OccupancyGrid(f, d, ps)[z][y][x] == OccupancyGrid(f, d, qs)[z][y][x]
    {
      OccupancyPermutation(f, ps, qs, Index3(x, y, z));
    }
    GridExt(OccupancyGrid(f, d, ps), OccupancyGrid(f, d, qs), d);
  }

  /** One more point changes the grid only when its voxel is in range, and then
      raises exactly that voxel's count by one. */
  lemma AddedPointTouchesOneCell(f: Frame, d: Dims, ps: seq<Vec3>, p: Vec3)
    ensures var v := VoxelOf(f, p);
            var g := OccupancyGrid(f, d, ps);
            if InBox(v, d)
            then OccupancyGrid(f, d, ps + [p]) == g[v.z := g[v.z][v.y := g[v.z][v.y][v.x := g[v.z][v.y][v.x] + 1]]]
            else OccupancyGrid(f, d, ps + [p]) == g
  {
    var v := VoxelOf(f, p);
    var g := OccupancyGrid(f, d, ps);
    var h := OccupancyGrid(f, d, ps + [p]);
    assert (ps + [p])[..|ps|] == ps;
    if InBox(v, d) {
      var g' := g[v.z := g[v.z][v.y := g[v.z][v.y][v.x := g[v.z][v.y][v.x] + 1]]];
      assert Shaped(g', d);
      GridExt(h, g', d);
    } else {
      GridExt(h, g, d);
    }
  }

  /** The counts add up to the number of points that were not dropped. */
  lemma {:induction false} OccupancyConservesPoints(f: Frame, d: Dims, ps: seq<Vec3>)
    ensures BoxSum(OccupancyField(f, ps), d) == InRangeCount(f, d, ps) as real
    decreases |ps|
  {
    if ps == [] {
      BoxSumZero(OccupancyField(f, ps), d);
    } else {
      var init := ps[..|ps| - 1];
      var v := VoxelOf(f, ps[|ps| - 1]);
      OccupancyConservesPoints(f, d, init);
      forall c | InBox(c, d)
        ensures OccupancyField(f, ps)(c) == OccupancyField(f, init)(c) + (if c == v then 1.0 else 0.0)
      {
      }
      BoxSumBump(OccupancyField(f, init), OccupancyField(f, ps), d, v, 1.0);
    }
  }
}
