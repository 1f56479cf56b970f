/**
 * Exact stand-ins for the parts of the glm library that the mesh-to-splat path uses.
 *
 * Vectors hold `real` components, so sums, products, dot and cross products are exact.
 * Square roots, glm::normalize (which multiplies by an inverse square root) and
 * glm::quat_cast are floating-point library routines that this model does not
 * re-derive: they are fields of `Ops`, a value the caller supplies, and nothing is
 * assumed about them beyond `Ops.Valid()` where a member says so.
 */
module Glm {

  datatype Vec2 = Vec2(x: real, y: real)

  datatype Vec3 = Vec3(x: real, y: real, z: real)

  datatype Vec4 = Vec4(x: real, y: real, z: real, w: real)

  /** The four components of a glm::quat; glm::quat(w, x, y, z) lists them in this order. */
  datatype Quat = Quat(w: real, x: real, y: real, z: real)

  /** A glm::mat3 given by its three columns: m[c][r] is row r of column c. */
  datatype Mat3 = Mat3(c0: Vec3, c1: Vec3, c2: Vec3) {

    function Column(c: nat): Vec3
      requires c < 3
    {
      if c == 0 then c0 else if c == 1 then c1 else c2
    }

    /** m[c][r] in glm's column-major indexing. */
    function At(c: nat, r: nat): real
      requires c < 3 && r < 3
    {
      Component(Column(c), r)
    }

    function Transpose(): Mat3 {
      Mat3(Vec3(c0.x, c1.x, c2.x), Vec3(c0.y, c1.y, c2.y), Vec3(c0.z, c1.z, c2.z))
    }
  }

  function Component(v: Vec3, i: nat): real
    requires i < 3
  {
    if i == 0 then v.x else if i == 1 then v.y else v.z
  }

  const Zero3 := Vec3(0.0, 0.0, 0.0)

  function Add2(a: Vec2, b: Vec2): Vec2 { Vec2(a.x + b.x, a.y + b.y) }
  function Sub2(a: Vec2, b: Vec2): Vec2 { Vec2(a.x - b.x, a.y - b.y) }
  function Scale2(k: real, a: Vec2): Vec2 { Vec2(k * a.x, k * a.y) }

  function Add3(a: Vec3, b: Vec3): Vec3 { Vec3(a.x + b.x, a.y + b.y, a.z + b.z) }
  function Sub3(a: Vec3, b: Vec3): Vec3 { Vec3(a.x - b.x, a.y - b.y, a.z - b.z) }
  function Scale3(k: real, a: Vec3): Vec3 { Vec3(k * a.x, k * a.y, k * a.z) }
  /** Component-wise product, glm's `vec3 * vec3`. */
  function Mul3(a: Vec3, b: Vec3): Vec3 { Vec3(a.x * b.x, a.y * b.y, a.z * b.z) }
  function Dot3(a: Vec3, b: Vec3): real { a.x * b.x + a.y * b.y + a.z * b.z }

  function Cross(a: Vec3, b: Vec3): Vec3 {
    Vec3(a.y * b.z - a.z * b.y, a.z * b.x - a.x * b.z, a.x * b.y - a.y * b.x)
  }

  function Add4(a: Vec4, b: Vec4): Vec4 { Vec4(a.x + b.x, a.y + b.y, a.z + b.z, a.w + b.w) }
  function Scale4(k: real, a: Vec4): Vec4 { Vec4(k * a.x, k * a.y, k * a.z, k * a.w) }
  /** Component-wise product, glm's `vec4 * vec4`. */
  function Mul4(a: Vec4, b: Vec4): Vec4 { Vec4(a.x * b.x, a.y * b.y, a.z * b.z, a.w * b.w) }
  function Dot4(a: Vec4, b: Vec4): real { a.x * b.x + a.y * b.y + a.z * b.z + a.w * b.w }

  /** glm::vec3(v) of a vec4: its first three components. */
  function Xyz(v: Vec4): Vec3 { Vec3(v.x, v.y, v.z) }

  /** glm::vec4(v, w). */
  function Extend(v: Vec3, w: real): Vec4 { Vec4(v.x, v.y, v.z, w) }

  /** Matrix times column vector: the columns weighted by the vector's components. */
  function MatVec(m: Mat3, v: Vec3): Vec3 {
    Add3(Add3(Scale3(v.x, m.c0), Scale3(v.y, m.c1)), Scale3(v.z, m.c2))
  }

  function Abs(r: real): real { if r < 0.0 then -r else r }
  function Min(a: real, b: real): real { if b < a then b else a }
  function Max(a: real, b: real): real { if a < b then b else a }

  /** glm::clamp(r, 0, 1). */
  function Clamp01(r: real): (c: real)
    ensures 0.0 <= c <= 1.0
    ensures 0.0 <= r <= 1.0 ==> c == r
  {
    Min(Max(r, 0.0), 1.0)
  }

  function Clamp3(v: Vec3): Vec3 { Vec3(Clamp01(v.x), Clamp01(v.y), Clamp01(v.z)) }

  /** The floating-point routines the source takes from glm and the C library. */
  datatype Ops = Ops(sqrt: real -> real, inverseSqrt: real -> real, quatCast: Mat3 -> Quat) {

    /**
     * What the model relies on about the square root routines, and nothing more: the
     * square roots of 0 and 1, the inverse square root of 1, and that the square root of
     * a non-negative number is non-negative, and positive for a positive number. Nothing
     * is assumed for negative arguments, where sqrtf gives NaN.
     */
    ghost predicate Valid() {
      && sqrt(0.0) == 0.0
      && sqrt(1.0) == 1.0
      && inverseSqrt(1.0) == 1.0
      && (forall r: real :: r >= 0.0 ==> sqrt(r) >= 0.0)
      && (forall r: real :: r > 0.0 ==> sqrt(r) > 0.0)
    }

    /** glm::length. */
    function Length3(v: Vec3): real { sqrt(Dot3(v, v)) }

    /** glm::normalize: the vector times the inverse square root of its squared length. */
    function Normalize3(v: Vec3): Vec3 { Scale3(inverseSqrt(Dot3(v, v)), v) }

    function Normalize4(v: Vec4): Vec4 { Scale4(inverseSqrt(Dot4(v, v)), v) }
  }

  /** A length computed by a valid `Ops` is never negative. */
  lemma LengthNonNegative(ops: Ops, v: Vec3)
    requires ops.Valid()
    ensures ops.Length3(v) >= 0.0
  {
    DotSelfNonNegative(v);
  }

  lemma SquareNonNegative(r: real)
    ensures r * r >= 0.0
  {
    if r < 0.0 {
      assert r * r == (-r) * (-r);
    }
  }

  /** A squared length is never negative. */
  lemma DotSelfNonNegative(v: Vec3)
    ensures Dot3(v, v) >= 0.0
  {
    SquareNonNegative(v.x);
    SquareNonNegative(v.y);
    SquareNonNegative(v.z);
  }

  /** The zero vector has length 0. */
  lemma LengthOfZero(ops: Ops)
    requires ops.Valid()
    ensures ops.Length3(Zero3) == 0.0
  {
    assert Dot3(Zero3, Zero3) == 0.0;
  }

  /** The product of two numbers in [0, 1] stays in [0, 1]. */
  lemma UnitProduct(a: real, b: real)
    requires 0.0 <= a <= 1.0 && 0.0 <= b <= 1.0
    ensures 0.0 <= a * b <= 1.0
  {
    ProductBelow(a, b);
    ProductNonNegative(a, b);
  }

  lemma ProductBelow(a: real, b: real)
    requires 0.0 <= a <= 1.0 && 0.0 <= b
    ensures a * b <= b
  {
  }

  lemma ProductNonNegative(a: real, b: real)
    requires 0.0 <= a && 0.0 <= b
    ensures a * b >= 0.0
  {
  }

  /** The cross product vanishes when either side is a multiple of the other. */
  lemma CrossOfParallel(a: Vec3, k: real)
    ensures Cross(a, Scale3(k, a)) == Zero3
    ensures Cross(Scale3(k, a), a) == Zero3
  {
  }

  /** Multiplying by a matrix whose columns are (T, B, N) sends the z axis to N. */
  lemma MatVecThirdAxis(m: Mat3)
    ensures MatVec(m, Vec3(0.0, 0.0, 1.0)) == m.c2
  {
    assert Scale3(0.0, m.c0) == Zero3 && Scale3(0.0, m.c1) == Zero3;
    assert Scale3(1.0, m.c2) == m.c2;
  }
}
