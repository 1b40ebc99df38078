/** Stage 2 of CloudAnalyzer3D::run: free-space evidence. Every occupied
    voxel casts a ray from the camera toward itself, and every in-range voxel
    the ray steps through is credited with the source voxel's point count. */
module FreeSpace {
  import opened Geometry
  import opened Grids

  /** The ray geometry, which needs a vector norm and is therefore taken as
      given. For a source voxel s, `stop(s)` stands for floor(0.85 * |ray| - 3)
      and `hit(s, a)` for the voxel floor(camera + a * unitRay) reached after
      a unit steps. */
  datatype Caster = Caster(stop: Index3 -> int, hit: (Index3, nat) -> Index3)

  /** What the first n steps of the ray toward s, carrying weight w, add to voxel c. */
  function RayContribution(rays: Caster, s: Index3, w: int, c: Index3, n: int): int
    decreases n
  {
    if n <= 0 then 0
    else RayContribution(rays, s, w, c, n - 1) + (if rays.hit(s, n - 1) == c then w else 0)
  }

  /** What the ray cast from source voxel s adds to voxel c: nothing when s is
      empty, otherwise the count of s for every step that lands on c. */
  function Cast(P: Grid<int>, rays: Caster, s: Index3, c: Index3): int {
    var w := At(P, s, 0);
    if w == 0 then 0 else RayContribution(rays, s, w, c, rays.stop(s))
  }

  function CastField(P: Grid<int>, rays: Caster, c: Index3): Index3 -> real {
    s => Cast(P, rays, s, c) as real
  }

  /** The free-space count of voxel c: the casts of all source voxels added up. */
  function SeenCount(P: Grid<int>, rays: Caster, d: Dims, c: Index3): real {
    BoxSum(CastField(P, rays, c), d)
  }

  /** One ray: for each step a < stop, the voxel hit is credited with w when
      it is inside the grid and skipped otherwise. */
  method CastRay(seen: array3<int>, rays: Caster, s: Index3, w: int)
    modifies seen
    ensures forall z, y, x :: 0 <= z < seen.Length0 && 0 <= y < seen.Length1 && 0 <= x < seen.Length2 ==>
      seen[z, y, x] == old(seen[z, y, x]) + RayContribution(rays, s, w, Index3(x, y, z), rays.stop(s))
  {
    var stop := rays.stop(s);
    var a := 0;
    while a < stop
      invariant 0 <= a <= (if stop < 0 then 0 else stop)
      invariant forall z, y, x :: 0 <= z < seen.Length0 && 0 <= y < seen.Length1 && 0 <= x < seen.Length2 ==>
        seen[z, y, x] == old(seen[z, y, x]) + RayContribution(rays, s, w, Index3(x, y, z), a)
    {
      var hit := rays.hit(s, a);
      a := a + 1;
      if hit.x < 0 || hit.x >= seen.Length2 {
        continue;
      }
      if hit.y < 0 || hit.y >= seen.Length1 {
        continue;
      }
      if hit.z < 0 || hit.z >= seen.Length0 {
        continue;
      }
      seen[hit.z, hit.y, hit.x] := seen[hit.z, hit.y, hit.x] + w;
    }
  }

  /** The cells of `seen` hold what the rays of the source voxels before
      (x, y, z) in loop order have credited them. */
  ghost predicate SeenUpTo(seen: array3<int>, P: Grid<int>, rays: Caster, d: Dims, z: nat, x: nat, y: nat)
    reads seen
  {
    && DimsOf(seen) == d
    && forall k, j, i :: 0 <= k < d.nz && 0 <= j < d.ny && 0 <= i < d.nx ==>
         seen[k, j, i] as real == PartialSum(CastField(P, rays, Index3(i, j, k)), d, z, x, y)
  }

  /** The free-space pass over a settled occupancy grid: a zeroed grid of the
      same extents, then one ray per non-zero voxel, in slice, column, row order. */
  method AccumulateFreeSpace(occupancy: array3<int>, rays: Caster) returns (seen: array3<int>)
    ensures fresh(seen) && DimsOf(seen) == DimsOf(occupancy)
    ensures forall z, y, x :: 0 <= z < seen.Length0 && 0 <= y < seen.Length1 && 0 <= x < seen.Length2 ==>
      seen[z, y, x] as real == SeenCount(Snapshot(occupancy), rays, DimsOf(occupancy), Index3(x, y, z))
  {
    var d := DimsOf(occupancy);
    ghost var P := Snapshot(occupancy);
    seen := new int[d.nz, d.ny, d.nx]((z, y, x) => 0);
    for k := 0 to d.nz
      invariant SeenUpTo(seen, P, rays, d, k, 0, 0)
    {
      for i := 0 to d.nx
        invariant SeenUpTo(seen, P, rays, d, k, i, 0)
      {
        CastColumn(occupancy, seen, P, rays, k, i);
      }
      forall z, y, x | 0 <= z < d.nz && 0 <= y < d.ny && 0 <= x < d.nx
        ensures seen[z, y, x] as real == PartialSum(CastField(P, rays, Index3(x, y, z)), d, k + 1, 0, 0)
      {
        assert SeenUpTo(seen, P, rays, d, k, d.nx, 0);
        PartialSumNextSlice(CastField(P, rays, Index3(x, y, z)), d, k);
      }
    }
    forall z, y, x | 0 <= z < d.nz && 0 <= y < d.ny && 0 <= x < d.nx
      ensures seen[z, y, x] as real == SeenCount(P, rays, d, Index3(x, y, z))
    {
      assert SeenUpTo(seen, P, rays, d, d.nz, 0, 0);
      PartialSumComplete(CastField(P, rays, Index3(x, y, z)), d);
    }
  }

  /** The innermost loop: the rays of the voxels of column i in slice k. */
  method CastColumn(occupancy: array3<int>, seen: array3<int>, ghost P: Grid<int>, rays: Caster, k: nat, i: nat)
    requires seen != occupancy && P == Snapshot(occupancy)
    requires DimsOf(occupancy) == DimsOf(seen) && k < seen.Length0 && i < seen.Length2
    requires SeenUpTo(seen, P, rays, DimsOf(seen), k, i, 0)
    modifies seen
    ensures SeenUpTo(seen, P, rays, DimsOf(seen), k, i + 1, 0)
  {
    var d := DimsOf(seen);
    for j := 0 to d.ny
      invariant SeenUpTo(seen, P, rays, d, k, i, j)
    {
      CastVoxel(occupancy, seen, P, rays, k, i, j);
    }
    forall z, y, x | 0 <= z < d.nz && 0 <= y < d.ny && 0 <= x < d.nx
      ensures seen[z, y, x] as real == PartialSum(CastField(P, rays, Index3(x, y, z)), d, k, i + 1, 0)
    {
      PartialSumNextColumn(CastField(P, rays, Index3(x, y, z)), d, k, i);
    }
  }

  /** The loop body: the ray of voxel (i, j, k), cast only when it holds points. */
  method CastVoxel(occupancy: array3<int>, seen: array3<int>, ghost P: Grid<int>, rays: Caster, k: nat, i: nat, j: nat)
    requires seen != occupancy && P == Snapshot(occupancy)
    requires DimsOf(occupancy) == DimsOf(seen) && k < seen.Length0 && i < seen.Length2 && j < seen.Length1
    requires SeenUpTo(seen, P, rays, DimsOf(seen), k, i, j)
    modifies seen
    ensures SeenUpTo(seen, P, rays, DimsOf(seen), k, i, j + 1)
  {
    var d := DimsOf(seen);
    var s := Index3(i, j, k);
    var w := occupancy[k, j, i];
    assert w == At(P, s, 0);
    ghost var before := Snapshot(seen);
    if w != 0 {
      CastRay(seen, rays, s, w);
    }
    forall z, y, x | 0 <= z < d.nz && 0 <= y < d.ny && 0 <= x < d.nx
      ensures seen[z, y, x] as real == PartialSum(CastField(P, rays, Index3(x, y, z)), d, k, i, j + 1)
    {
      RowStep(before[z][y][x], seen[z, y, x], P, rays, d, k, i, j, Index3(x, y, z));
    }
  }

  /** One source voxel's ray moves a cell's running total one row along. */
  lemma RowStep(before: int, after: int, P: Grid<int>, rays: Caster, d: Dims, k: nat, i: nat, j: nat, c: Index3)
    requires before as real == PartialSum(CastField(P, rays, c), d, k, i, j)
    requires after == before + Cast(P, rays, Index3(i, j, k), c)
    ensures after as real == PartialSum(CastField(P, rays, c), d, k, i, j + 1)
  {
    PartialSumNextRow(CastField(P, rays, c), d, k, i, j);
  }

  lemma {:induction false} RayContributionNonNegative(rays: Caster, s: Index3, w: int, c: Index3, n: int)
    requires 0 <= w
    ensures 0 <= RayContribution(rays, s, w, c, n)
    decreases n
  {
    if n > 0 {
      RayContributionNonNegative(rays, s, w, c, n - 1);
    }
  }

  /** Non-negative point counts give non-negative free-space counts. */
  lemma SeenCountNonNegative(P: Grid<int>, rays: Caster, d: Dims, c: Index3)
    requires forall s :: InBox(s, d) ==> 0 <= At(P, s, 0)
    ensures 0.0 <= SeenCount(P, rays, d, c)
  {
    forall s | InBox(s, d)
      ensures 0.0 <= CastField(P, rays, c)(s)
    {
      RayContributionNonNegative(rays, s, At(P, s, 0), c, rays.stop(s));
    }
    BoxSumAtLeast(CastField(P, rays, c), d, c);
  }

  /** Rays with no steps (stop <= 0) write nothing. */
  lemma ShortRaysSeeNothing(P: Grid<int>, rays: Caster, d: Dims, c: Index3)
    requires forall s :: InBox(s, d) ==> rays.stop(s) <= 0
    ensures SeenCount(P, rays, d, c) == 0.0
  {
    BoxSumZero(CastField(P, rays, c), d);
  }

  /** An empty occupancy grid casts no rays at all. */
  lemma EmptyOccupancySeesNothing(P: Grid<int>, rays: Caster, d: Dims, c: Index3)
    requires forall s :: InBox(s, d) ==> At(P, s, 0) == 0
    ensures SeenCount(P, rays, d, c) == 0.0
  {
    BoxSumZero(CastField(P, rays, c), d);
  }

  /** With a single occupied voxel s0, a voxel's free-space count is exactly
      what the one ray toward s0 credits it: the count of s0 for each step
      that lands on it. */
  lemma LoneVoxelCastsAlone(P: Grid<int>, rays: Caster, d: Dims, s0: Index3, c: Index3)
    requires InBox(s0, d) && At(P, s0, 0) != 0
    requires forall s :: InBox(s, d) && s != s0 ==> At(P, s, 0) == 0
    ensures SeenCount(P, rays, d, c) == Cast(P, rays, s0, c) as real
    ensures SeenCount(P, rays, d, c) == RayContribution(rays, s0, At(P, s0, 0), c, rays.stop(s0)) as real
  {
    var none: Index3 -> real := s => 0.0;
    BoxSumZero(none, d);
    BoxSumBump(none, CastField(P, rays, c), d, s0, Cast(P, rays, s0, c) as real);
  }
}
