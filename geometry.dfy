/** Points, voxel coordinates and the small amount of vector arithmetic the
    carving pipeline needs. Doubles and floats are modelled as exact reals. */
module Geometry {

  /** A position in continuous space (metres, or voxel units after scaling). */
  datatype Vec3 = Vec3(x: real, y: real, z: real)

  /** A voxel coordinate: column x, row y, slice z of a grid indexed [z](y, x). */
  datatype Index3 = Index3(x: int, y: int, z: int)

  /** A 3x3 matrix given by its rows, as an Eigen::Matrix3d. */
  datatype Mat3 = Mat3(row0: Vec3, row1: Vec3, row2: Vec3)

  function Add(a: Vec3, b: Vec3): Vec3 {
    Vec3(a.x + b.x, a.y + b.y, a.z + b.z)
  }

  function Sub(a: Vec3, b: Vec3): Vec3 {
    Vec3(a.x - b.x, a.y - b.y, a.z - b.z)
  }

  function Dot(a: Vec3, b: Vec3): real {
    a.x * b.x + a.y * b.y + a.z * b.z
  }

  /** The matrix-vector product m * v. */
  function Apply(m: Mat3, v: Vec3): Vec3 {
    Vec3(Dot(m.row0, v), Dot(m.row1, v), Dot(m.row2, v))
  }

  const Identity: Mat3 := Mat3(Vec3(1.0, 0.0, 0.0), Vec3(0.0, 1.0, 0.0), Vec3(0.0, 0.0, 1.0))

  function ToVec(c: Index3): Vec3 {
    Vec3(c.x as real, c.y as real, c.z as real)
  }

  /** C++'s conversion of a floating-point value to int: truncation toward zero. */
  function Trunc(r: real): (n: int)
    ensures 0.0 <= r ==> n as real <= r < n as real + 1.0
    ensures r < 0.0 ==> n as real - 1.0 < r <= n as real
  {
    if r >= 0.0 then r.Floor else -((-r).Floor)
  }

  /** The largest integer whose square does not exceed n. */
  function ISqrt(n: nat): (r: nat)
    ensures r * r <= n < (r + 1) * (r + 1)
  {
    if n == 0 then 0
    else
      var s := ISqrt(n - 1);
      if (s + 1) * (s + 1) <= n then s + 1 else s
  }

  /** `int(sqrt(2) * m)` for a non-negative integer m: since sqrt(2) * m is
      irrational for m > 0, its truncation is the integer square root of 2 m^2. */
  function DiagonalSide(m: nat): (side: nat)
    ensures side * side <= 2 * m * m < (side + 1) * (side + 1)
  {
    ISqrt(2 * m * m)
  }

  /** The enlarged side is never shorter than the side it encloses. */
  lemma DiagonalSideCovers(m: nat)
    ensures m <= DiagonalSide(m)
  {
    var side := DiagonalSide(m);
    assert m * m <= 2 * m * m;
    if side < m {
      MulMono(side + 1, m);
      assert false;
    }
  }

  lemma MulMono(a: nat, b: nat)
    requires a <= b
    ensures a * a <= b * b
  {
    assert a * a <= a * b;
    assert a * b <= b * b;
  }
}
