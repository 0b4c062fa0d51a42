/**
  Vector and matrix arithmetic as XNA's Vector3, Matrix and Plane provide it,
  over exact reals, and the library helpers the physics calls but whose code is
  not part of this model, bundled as uninterpreted functions.
 */
module Geometry {

  /** XNA's Vector3. */
  datatype Vec3 = Vec3(x: real, y: real, z: real)

  const Zero: Vec3 := Vec3(0.0, 0.0, 0.0)
  const UnitX: Vec3 := Vec3(1.0, 0.0, 0.0)
  const UnitY: Vec3 := Vec3(0.0, 1.0, 0.0)
  const UnitZ: Vec3 := Vec3(0.0, 0.0, 1.0)

  function Add(a: Vec3, b: Vec3): Vec3 { Vec3(a.x + b.x, a.y + b.y, a.z + b.z) }
  function Sub(a: Vec3, b: Vec3): Vec3 { Vec3(a.x - b.x, a.y - b.y, a.z - b.z) }
  function Neg(a: Vec3): Vec3 { Vec3(-a.x, -a.y, -a.z) }

  /** `k*v` and `v*k` for a scalar k. */
  function Scale(k: real, v: Vec3): Vec3 { Vec3(k * v.x, k * v.y, k * v.z) }

  /** `v/k` for a scalar k. */
  function DivScalar(v: Vec3, k: real): Vec3
    requires k != 0.0
  {
    Vec3(v.x / k, v.y / k, v.z / k)
  }

  /** `a*b` on two Vector3 values: XNA multiplies component by component. */
  function Mul(a: Vec3, b: Vec3): Vec3 { Vec3(a.x * b.x, a.y * b.y, a.z * b.z) }

  /** `a/b` on two Vector3 values: component by component. */
  function Div(a: Vec3, b: Vec3): Vec3
    requires b.x != 0.0 && b.y != 0.0 && b.z != 0.0
  {
    Vec3(a.x / b.x, a.y / b.y, a.z / b.z)
  }

  function Dot(a: Vec3, b: Vec3): real { a.x * b.x + a.y * b.y + a.z * b.z }

  /** Vector3.Cross. */
  function Cross(a: Vec3, b: Vec3): Vec3
  {
    Vec3(a.y * b.z - a.z * b.y, a.z * b.x - a.x * b.z, a.x * b.y - a.y * b.x)
  }

  /**
    The rotation part (M11..M33) of an XNA Matrix. XNA uses row vectors:
    a vector is transformed as v * M.
   */
  datatype Mat3 = Mat3(m11: real, m12: real, m13: real,
                       m21: real, m22: real, m23: real,
                       m31: real, m32: real, m33: real)

  const ZeroMatrix: Mat3 := Mat3(0.0, 0.0, 0.0, 0.0, 0.0, 0.0, 0.0, 0.0, 0.0)
  const Identity: Mat3 := Mat3(1.0, 0.0, 0.0, 0.0, 1.0, 0.0, 0.0, 0.0, 1.0)

  function MatAdd(a: Mat3, b: Mat3): Mat3
  {
    Mat3(a.m11 + b.m11, a.m12 + b.m12, a.m13 + b.m13,
         a.m21 + b.m21, a.m22 + b.m22, a.m23 + b.m23,
         a.m31 + b.m31, a.m32 + b.m32, a.m33 + b.m33)
  }

  function MatScale(a: Mat3, k: real): Mat3
  {
    Mat3(a.m11 * k, a.m12 * k, a.m13 * k,
         a.m21 * k, a.m22 * k, a.m23 * k,
         a.m31 * k, a.m32 * k, a.m33 * k)
  }

  function MatMul(a: Mat3, b: Mat3): Mat3
  {
    Mat3(a.m11 * b.m11 + a.m12 * b.m21 + a.m13 * b.m31,
         a.m11 * b.m12 + a.m12 * b.m22 + a.m13 * b.m32,
         a.m11 * b.m13 + a.m12 * b.m23 + a.m13 * b.m33,
         a.m21 * b.m11 + a.m22 * b.m21 + a.m23 * b.m31,
         a.m21 * b.m12 + a.m22 * b.m22 + a.m23 * b.m32,
         a.m21 * b.m13 + a.m22 * b.m23 + a.m23 * b.m33,
         a.m31 * b.m11 + a.m32 * b.m21 + a.m33 * b.m31,
         a.m31 * b.m12 + a.m32 * b.m22 + a.m33 * b.m32,
         a.m31 * b.m13 + a.m32 * b.m23 + a.m33 * b.m33)
  }

  function Transpose(a: Mat3): Mat3
  {
    Mat3(a.m11, a.m21, a.m31, a.m12, a.m22, a.m32, a.m13, a.m23, a.m33)
  }

  /** Vector3.Transform(v, m): the row vector v times m. */
  function Transform(v: Vec3, m: Mat3): Vec3
  {
    Vec3(v.x * m.m11 + v.y * m.m21 + v.z * m.m31,
         v.x * m.m12 + v.y * m.m22 + v.z * m.m32,
         v.x * m.m13 + v.y * m.m23 + v.z * m.m33)
  }

  /** Matrix.Forward: the negated third row. */
  function Forward(m: Mat3): Vec3 { Vec3(-m.m31, -m.m32, -m.m33) }

  /** Matrix.Right: the first row. */
  function Right(m: Mat3): Vec3 { Vec3(m.m11, m.m12, m.m13) }

  /** XNA's Plane: a normal and the scalar D. */
  datatype Plane = Plane(normal: Vec3, d: real)

  /**
    The helpers whose code is not part of this model: Vector3.Length and
    Vector3.Normalize (a square root), Globals.PointPlaneDistance,
    Globals.PlaneProjection, Globals.SkewSymmetricMatrix,
    Globals.OrthonormaliseMatrix and Matrix.CreateFromYawPitchRoll.
    Every operation of the model takes them as a parameter, so nothing it
    proves depends on how they are computed unless a lemma says so.
   */
  datatype Library = Library(
    length: Vec3 -> real,
    normalize: Vec3 -> Vec3,
    pointPlaneDistance: (Vec3, Plane) -> real,
    planeProjection: (Vec3, Plane) -> Vec3,
    skewSymmetric: Vec3 -> Mat3,
    orthonormalise: Mat3 -> Mat3,
    yawPitchRoll: (real, real, real) -> Mat3)

  /** The one fact about Vector3.Length the model relies on: the zero vector has length 0. */
  predicate LengthOfZero(lib: Library)
  {
    lib.length(Zero) == 0.0
  }

  /**
    The sign convention of Globals.PointPlaneDistance that the arena set-up
    implies: the distance is dot(n, p) - D, positive on the side the normal
    points to. This is an assumption, stated wherever it is used.
   */
  ghost predicate SignedDistance(lib: Library)
  {
    lib.pointPlaneDistance == SignedPlaneDistance
  }

  function SignedPlaneDistance(p: Vec3, plane: Plane): real
  {
    Dot(plane.normal, p) - plane.d
  }

  lemma CrossScale(r: Vec3, k: real, f: Vec3)
    ensures Cross(r, Scale(k, f)) == Scale(k, Cross(r, f))
  {
    var g := Scale(k, f);
    FactorOut(r.y, f.z, r.z, f.y, k);
    FactorOut(r.z, f.x, r.x, f.z, k);
    FactorOut(r.x, f.y, r.y, f.x, k);
    assert Cross(r, g).x == k * Cross(r, f).x;
    assert Cross(r, g).y == k * Cross(r, f).y;
    assert Cross(r, g).z == k * Cross(r, f).z;
  }

  lemma FactorOut(a: real, b: real, c: real, d: real, k: real)
    ensures a * (k * b) - c * (k * d) == k * (a * b - c * d)
  {
  }

  lemma DotScale(k: real, a: Vec3, b: Vec3)
    ensures Dot(Scale(k, a), b) == k * Dot(a, b)
  {
    assert (k * a.x) * b.x == k * (a.x * b.x);
    assert (k * a.y) * b.y == k * (a.y * b.y);
    assert (k * a.z) * b.z == k * (a.z * b.z);
  }

  /** A positive multiple of a vector of positive squared length has a positive component along it. */
  lemma PositiveAlong(k: real, n: Vec3)
    requires k > 0.0 && Dot(n, n) > 0.0
    ensures Dot(Scale(k, n), n) > 0.0
  {
    DotScale(k, n, n);
    PositiveProduct(k, Dot(n, n));
  }

  lemma PositiveProduct(a: real, c: real)
    requires a > 0.0 && c > 0.0
    ensures a * c > 0.0
  {
  }

  /** A part of a positive whole is a fraction between 0 and 1, equal to 1 only for the whole. */
  lemma FractionBounds(part: real, whole: real)
    requires 0.0 <= part <= whole && whole > 0.0
    ensures 0.0 <= part / whole <= 1.0
    ensures part / whole == 1.0 <==> part == whole
  {
    assert (part / whole) * whole == part;
  }

  lemma ScaledDifference(m: real, factor: real, a: real, u: Vec3, c: real, v: Vec3)
    ensures Scale(m, Sub(Scale(factor, Scale(a, u)), Scale(c, v))) == Sub(Scale(m * a * factor, u), Scale(m * c, v))
  {
    assert m * (factor * (a * u.x) - c * v.x) == (m * a * factor) * u.x - (m * c) * v.x;
    assert m * (factor * (a * u.y) - c * v.y) == (m * a * factor) * u.y - (m * c) * v.y;
    assert m * (factor * (a * u.z) - c * v.z) == (m * a * factor) * u.z - (m * c) * v.z;
  }
}
