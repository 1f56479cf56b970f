/**
 * The earlier CPU sampler (cpu_sampler.hpp): the same barycentric lattice as the renderer's
 * sampler, but without material, without a degenerate-triangle test, with an anisotropic
 * scale (su, sv, 1e-7) that is neither averaged nor floored, and with its own
 * trace-branch quaternion, stored as (x, y, z, w). As written that quaternion is the
 * conjugate of the usual one (the inverse rotation); the sampler is modelled with the
 * corrected conversion `CorrectedBasisToQuat`.
 */
module CpuSampler {
  import opened Glm
  import opened Lattice
  import opened TriangleSampling

  /** One splat of the earlier sampler. */
  datatype GaussianCPU = GaussianCPU(pos: Vec4, scale: Vec4, normal: Vec4, quat: Vec4)

  /** m[0][0] + m[1][1] + m[2][2]. */
  function Trace(m: Mat3): real {
    m.At(0, 0) + m.At(1, 1) + m.At(2, 2)
  }

  const IdentityQuat := Quat(1.0, 0.0, 0.0, 0.0)

  /** The quaternion with the opposite vector part: the inverse rotation of a unit quaternion. */
  function Conjugate(q: Quat): Quat {
    Quat(q.w, -q.x, -q.y, -q.z)
  }

  /**
   * basisToQuat for the matrix with columns (X, Y, Z): with a positive trace t,
   * s = 2 sqrt(t + 1), w = s / 4 and x = (m[2][1] - m[1][2]) / s and so on;
   * otherwise the identity.
   */
  function BasisToQuat(ops: Ops, x: Vec3, y: Vec3, z: Vec3): (q: Quat)
    requires ops.Valid()
    ensures Trace(Mat3(x, y, z)) <= 0.0 ==> q == IdentityQuat
    ensures Trace(Mat3(x, y, z)) > 0.0 ==> q.w > 0.0
  {
    var m := Mat3(x, y, z);
    var t := Trace(m);
    if t > 0.0 then
      var s := ops.sqrt(t + 1.0) * 2.0;
      Quat(0.25 * s, (m.At(2, 1) - m.At(1, 2)) / s, (m.At(0, 2) - m.At(2, 0)) / s, (m.At(1, 0) - m.At(0, 1)) / s)
    else
      IdentityQuat
  }

  /**
   * The trace branch with the row and column roles exchanged, as in the usual
   * matrix-to-quaternion formula x = (r21 - r12) / s where rij is row i, column j.
   */
  function StandardTraceQuat(ops: Ops, m: Mat3): Quat
    requires ops.Valid() && Trace(m) > 0.0
  {
    var s := ops.sqrt(Trace(m) + 1.0) * 2.0;
    Quat(0.25 * s, (m.At(1, 2) - m.At(2, 1)) / s, (m.At(2, 0) - m.At(0, 2)) / s, (m.At(0, 1) - m.At(1, 0)) / s)
  }

  lemma SwappedQuotient(a: real, b: real, s: real)
    requires s != 0.0
    ensures (a - b) / s == -((b - a) / s)
  {
  }

  /** With a positive trace, basisToQuat is the conjugate of the usual formula. */
  lemma BasisToQuatConjugatesStandard(ops: Ops, x: Vec3, y: Vec3, z: Vec3)
    requires ops.Valid() && Trace(Mat3(x, y, z)) > 0.0
    ensures BasisToQuat(ops, x, y, z) == Conjugate(StandardTraceQuat(ops, Mat3(x, y, z)))
  {
    var m := Mat3(x, y, z);
    var s := ops.sqrt(Trace(m) + 1.0) * 2.0;
    assert s > 0.0;
    SwappedQuotient(m.At(2, 1), m.At(1, 2), s);
    SwappedQuotient(m.At(0, 2), m.At(2, 0), s);
    SwappedQuotient(m.At(1, 0), m.At(0, 1), s);
  }

  /** In the trace branch, the transposed basis (same trace) gives the conjugate quaternion. */
  lemma TransposeConjugates(ops: Ops, x: Vec3, y: Vec3, z: Vec3)
    requires ops.Valid() && Trace(Mat3(x, y, z)) > 0.0
    ensures var t := Mat3(x, y, z).Transpose();
      BasisToQuat(ops, t.c0, t.c1, t.c2) == Conjugate(BasisToQuat(ops, x, y, z))
  {
    var t := Mat3(x, y, z).Transpose();
    TransposedComponent(ops, x, y, z, 0);
    TransposedComponent(ops, x, y, z, 1);
    TransposedComponent(ops, x, y, z, 2);
    var p := BasisToQuat(ops, t.c0, t.c1, t.c2);
    var q := BasisToQuat(ops, x, y, z);
    assert p.w == q.w && p.x == -q.x && p.y == -q.y && p.z == -q.z;
  }

  function VectorPart(q: Quat, i: nat): real
    requires i < 3
  {
    if i == 0 then q.x else if i == 1 then q.y else q.z
  }

  lemma TransposedComponent(ops: Ops, x: Vec3, y: Vec3, z: Vec3, i: nat)
    requires ops.Valid() && Trace(Mat3(x, y, z)) > 0.0 && i < 3
    ensures var t := Mat3(x, y, z).Transpose();
      && BasisToQuat(ops, t.c0, t.c1, t.c2).w == BasisToQuat(ops, x, y, z).w
      && VectorPart(BasisToQuat(ops, t.c0, t.c1, t.c2), i) == -VectorPart(BasisToQuat(ops, x, y, z), i)
  {
    var m := Mat3(x, y, z);
    var t := m.Transpose();
    assert Trace(t) == Trace(m);
    var s := ops.sqrt(Trace(m) + 1.0) * 2.0;
    if i == 0 {
      SwappedQuotient(y.z, z.y, s);
    } else if i == 1 {
      SwappedQuotient(z.x, x.z, s);
    } else {
      SwappedQuotient(x.y, y.x, s);
    }
  }

  /**
   * basisToQuat as evidently intended: the usual formula in the trace branch, so that the
   * quaternion turns the standard axes onto (X, Y, Z) as glm::quat_cast does, and the
   * identity otherwise. The earlier sampler is modelled with this conversion.
   */
  function CorrectedBasisToQuat(ops: Ops, x: Vec3, y: Vec3, z: Vec3): (q: Quat)
    requires ops.Valid()
    ensures Trace(Mat3(x, y, z)) <= 0.0 ==> q == IdentityQuat
    ensures Trace(Mat3(x, y, z)) > 0.0 ==> q.w > 0.0
  {
    var m := Mat3(x, y, z);
    if Trace(m) > 0.0 then StandardTraceQuat(ops, m) else IdentityQuat
  }

  /** The corrected conversion and the one as written differ exactly by conjugation. */
  lemma CorrectedConjugatesAsWritten(ops: Ops, x: Vec3, y: Vec3, z: Vec3)
    requires ops.Valid()
    ensures CorrectedBasisToQuat(ops, x, y, z) == Conjugate(BasisToQuat(ops, x, y, z))
  {
    var m := Mat3(x, y, z);
    if Trace(m) > 0.0 {
      var standard := StandardTraceQuat(ops, m);
      assert CorrectedBasisToQuat(ops, x, y, z) == standard;
      BasisToQuatConjugatesStandard(ops, x, y, z);
      assert Conjugate(Conjugate(standard)) == standard;
    } else {
      IdentityBelowPositiveTrace(ops, x, y, z);
    }
  }

  /** Without a positive trace both conversions give the identity, its own conjugate. */
  lemma IdentityBelowPositiveTrace(ops: Ops, x: Vec3, y: Vec3, z: Vec3)
    requires ops.Valid() && Trace(Mat3(x, y, z)) <= 0.0
    ensures BasisToQuat(ops, x, y, z) == IdentityQuat == CorrectedBasisToQuat(ops, x, y, z)
    ensures Conjugate(IdentityQuat) == IdentityQuat
  {
  }

  /**
   * A turn about z with cosine c and sine s (X = (c, s, 0), Y = (-s, c, 0)) away from the
   * half turn: the corrected quaternion has no x or y part and a z part of the sign of s,
   * as the rotation by that angle about +z has.
   */
  lemma CorrectedTurnAboutZ(ops: Ops, c: real, s: real)
    requires ops.Valid() && 2.0 * c + 1.0 > 0.0
    ensures var q := CorrectedBasisToQuat(ops, Vec3(c, s, 0.0), Vec3(-s, c, 0.0), Vec3(0.0, 0.0, 1.0));
      && q.x == 0.0 && q.y == 0.0
      && (s > 0.0 ==> q.z > 0.0) && (s < 0.0 ==> q.z < 0.0)
  {
    var m := Mat3(Vec3(c, s, 0.0), Vec3(-s, c, 0.0), Vec3(0.0, 0.0, 1.0));
    assert Trace(m) == 2.0 * c + 1.0;
    var k := ops.sqrt(Trace(m) + 1.0) * 2.0;
    assert k > 0.0;
    assert m.At(0, 1) - m.At(1, 0) == 2.0 * s;
  }

  /** As written, the same turn comes out with a z part of the opposite sign. */
  lemma TurnAboutZAsWritten(ops: Ops, c: real, s: real)
    requires ops.Valid() && 2.0 * c + 1.0 > 0.0
    ensures var q := BasisToQuat(ops, Vec3(c, s, 0.0), Vec3(-s, c, 0.0), Vec3(0.0, 0.0, 1.0));
      && q.x == 0.0 && q.y == 0.0
      && (s > 0.0 ==> q.z < 0.0) && (s < 0.0 ==> q.z > 0.0)
  {
    var m := Mat3(Vec3(c, s, 0.0), Vec3(-s, c, 0.0), Vec3(0.0, 0.0, 1.0));
    assert Trace(m) == 2.0 * c + 1.0;
    var k := ops.sqrt(Trace(m) + 1.0) * 2.0;
    assert k > 0.0;
    assert m.At(1, 0) - m.At(0, 1) == -2.0 * s;
  }

  /** A symmetric basis with positive trace gives a quaternion without vector part. */
  lemma SymmetricBasisHasNoAxis(ops: Ops, x: Vec3, y: Vec3, z: Vec3)
    requires ops.Valid() && Trace(Mat3(x, y, z)) > 0.0
    requires x.y == y.x && x.z == z.x && y.z == z.y
    ensures var q := BasisToQuat(ops, x, y, z);
      q.x == 0.0 && q.y == 0.0 && q.z == 0.0
  {
  }

  /** A quarter turn about z (X = (0,1,0), Y = (-1,0,0)) comes out with a negative z component. */
  lemma QuarterTurnComesOutReversed(ops: Ops)
    requires ops.Valid()
    ensures BasisToQuat(ops, Vec3(0.0, 1.0, 0.0), Vec3(-1.0, 0.0, 0.0), Vec3(0.0, 0.0, 1.0)).z < 0.0
  {
    var m := Mat3(Vec3(0.0, 1.0, 0.0), Vec3(-1.0, 0.0, 0.0), Vec3(0.0, 0.0, 1.0));
    assert Trace(m) == 1.0;
    var s := ops.sqrt(2.0) * 2.0;
    assert s > 0.0;
    assert m.At(1, 0) - m.At(0, 1) == -2.0;
  }

  /** What every splat of one triangle shares in the earlier sampler. */
  datatype CpuSetup = CpuSetup(p0: Vec3, p1: Vec3, p2: Vec3, m: int, normal: Vec3, quat: Quat, scale: Vec3)

  /** su = |e1| / m and sv = |e2 - (e2 . X) X| / m, with the constant thickness 1e-7. */
  function CpuScale(ops: Ops, e1: Vec3, e2: Vec3, x: Vec3, m: int): Vec3
    requires m > 0
  {
    Vec3(ops.Length3(e1) / (m as real), ops.Length3(Sub3(e2, Scale3(Dot3(e2, x), x))) / (m as real), MIN_SCALE)
  }

  /** The per-triangle constants: n, X, Y = normalize(n x X), the quaternion and the scale. */
  function CpuSetupOf(ops: Ops, p0: Vec3, p1: Vec3, p2: Vec3, m: int): (st: CpuSetup)
    requires ops.Valid() && m > 0
    ensures st.p0 == p0 && st.p1 == p1 && st.p2 == p2 && st.m == m
  {
    var e1 := Sub3(p1, p0);
    var e2 := Sub3(p2, p0);
    var n := ops.Normalize3(Cross(e1, e2));
    var x := ops.Normalize3(e1);
    var y := ops.Normalize3(Cross(n, x));
    CpuSetup(p0, p1, p2, m, n, CorrectedBasisToQuat(ops, x, y, n), CpuScale(ops, e1, e2, x, m))
  }

  /** The splat of lattice point p: at fu p1 + fv p2 + fw p0, quaternion stored as (x, y, z, w). */
  function CpuSplat(st: CpuSetup, p: Point): (g: GaussianCPU)
    requires st.m > 0
    ensures g.pos.w == 1.0 && g.scale == Extend(st.scale, 0.0) && g.normal == Extend(st.normal, 0.0)
    ensures g.quat == Vec4(st.quat.x, st.quat.y, st.quat.z, st.quat.w)
  {
    var w := BarycentricWeights(p, st.m);
    var position := Add3(Add3(Scale3(w.fu, st.p1), Scale3(w.fv, st.p2)), Scale3(w.fw, st.p0));
    GaussianCPU(
      Extend(position, 1.0),
      Extend(st.scale, 0.0),
      Extend(st.normal, 0.0),
      Vec4(st.quat.x, st.quat.y, st.quat.z, st.quat.w))
  }

  /** The two samplers put the splat of a lattice point at the same place. */
  lemma CpuPositionMatchesRenderer(st: CpuSetup, p: Point)
    requires st.m > 0
    ensures CpuSplat(st, p).pos == Extend(Interpolate3(BarycentricWeights(p, st.m), st.p0, st.p1, st.p2), 1.0)
  {
  }

  /** The loop body as a function of the lattice point. */
  function CpuSplatOf(st: CpuSetup): Point -> GaussianCPU
    requires st.m > 0
  {
    p => CpuSplat(st, p)
  }

  /** The splats of a sequence of lattice points, in order. */
  function CpuEmit(st: CpuSetup, points: seq<Point>): (r: seq<GaussianCPU>)
    requires st.m > 0
    ensures |r| == |points|
    ensures forall i :: 0 <= i < |points| ==> r[i] == CpuSplat(st, points[i])
  {
    MapPoints(CpuSplatOf(st), points)
  }

  /**
   * What sampleTriangleCPU returns, with the missing guard for m = 0 supplied (for m < 0
   * the loops do not run, and for m = 0 the source's single iteration divides 0 by 0) and
   * with the corrected basis-to-quaternion conversion.
   */
  function CpuSplats(ops: Ops, p0: Vec3, p1: Vec3, p2: Vec3, m: int): seq<GaussianCPU>
    requires ops.Valid()
  {
    if m <= 0 then [] else CpuEmit(CpuSetupOf(ops, p0, p1, p2, m), Grid(m))
  }

  /** sampleTriangleCPU: the nested u / v loops push one splat per lattice point. */
  method SampleTriangleCpu(ops: Ops, p0: Vec3, p1: Vec3, p2: Vec3, m: int) returns (out: seq<GaussianCPU>)
    requires ops.Valid()
    ensures out == CpuSplats(ops, p0, p1, p2, m)
  {
    out := [];
    if m <= 0 {
      return;
    }
    var e1 := Sub3(p1, p0);
    var e2 := Sub3(p2, p0);
    var n := ops.Normalize3(Cross(e1, e2));
    var x := ops.Normalize3(e1);
    var y := ops.Normalize3(Cross(n, x));
    var q := CorrectedBasisToQuat(ops, x, y, n);
    var s := CpuScale(ops, e1, e2, x, m);
    var st := CpuSetup(p0, p1, p2, m, n, q, s);
    out := WalkLattice(CpuSplatOf(st), m);
  }

  /** A resolution of at least 1 gives (m+1)(m+2)/2 splats, and none below that. */
  lemma CpuSplatCount(ops: Ops, p0: Vec3, p1: Vec3, p2: Vec3, m: int)
    requires ops.Valid()
    ensures m <= 0 ==> CpuSplats(ops, p0, p1, p2, m) == []
    ensures m >= 1 ==> |CpuSplats(ops, p0, p1, p2, m)| == (m + 1) * (m + 2) / 2
  {
    if m >= 1 {
      GridLength(m);
    }
  }

  /** Splat Offset(u) + v is the splat of lattice point (u, v), as in the renderer's sampler. */
  lemma CpuSplatOrder(ops: Ops, p0: Vec3, p1: Vec3, p2: Vec3, m: int, u: nat, v: nat)
    requires ops.Valid() && m >= 1 && u + v <= m
    ensures var r := CpuSplats(ops, p0, p1, p2, m);
      Offset(u, m) + v < |r| && r[Offset(u, m) + v] == CpuSplat(CpuSetupOf(ops, p0, p1, p2, m), Point(u, v))
  {
    GridAt(m, u, v);
  }

  /**
   * Every splat of a triangle carries the same anisotropic scale (su, sv, 1e-7, 0), the
   * face normal n with w = 0, and the quaternion of the basis (X, Y, n) in (x, y, z, w) order.
   */
  lemma CpuSplatsShareFrame(ops: Ops, p0: Vec3, p1: Vec3, p2: Vec3, m: int)
    requires ops.Valid() && m >= 1
    ensures var r := CpuSplats(ops, p0, p1, p2, m);
      var e1 := Sub3(p1, p0);
      var e2 := Sub3(p2, p0);
      var n := ops.Normalize3(Cross(e1, e2));
      var x := ops.Normalize3(e1);
      var q := CorrectedBasisToQuat(ops, x, ops.Normalize3(Cross(n, x)), n);
      var su := ops.Length3(e1) / (m as real);
      var sv := ops.Length3(Sub3(e2, Scale3(Dot3(e2, x), x))) / (m as real);
      forall i :: 0 <= i < |r| ==>
        && r[i].scale == Vec4(su, sv, MIN_SCALE, 0.0)
        && r[i].normal == Extend(n, 0.0)
        && r[i].quat == Vec4(q.x, q.y, q.z, q.w)
  {
  }

  /**
   * Against the conversion as written, the quaternion of a triangle's set-up is the conjugate
   * of a = `BasisToQuat(X, Y, n)`.
   */
  lemma CpuSetupConjugatesAsWritten(ops: Ops, p0: Vec3, p1: Vec3, p2: Vec3, m: int, a: Quat)
    requires ops.Valid() && m >= 1
    requires var n := ops.Normalize3(Cross(Sub3(p1, p0), Sub3(p2, p0)));
      var x := ops.Normalize3(Sub3(p1, p0));
      a == BasisToQuat(ops, x, ops.Normalize3(Cross(n, x)), n)
    ensures CpuSetupOf(ops, p0, p1, p2, m).quat == Conjugate(a)
  {
    var n := ops.Normalize3(Cross(Sub3(p1, p0), Sub3(p2, p0)));
    var x := ops.Normalize3(Sub3(p1, p0));
    CorrectedConjugatesAsWritten(ops, x, ops.Normalize3(Cross(n, x)), n);
  }

  /** Splats of a set-up whose quaternion is Conjugate(a) carry a's vector part negated. */
  lemma SplatsCarryConjugate(ops: Ops, p0: Vec3, p1: Vec3, p2: Vec3, m: int, a: Quat)
    requires ops.Valid() && m >= 1 && CpuSetupOf(ops, p0, p1, p2, m).quat == Conjugate(a)
    ensures forall i :: 0 <= i < |CpuSplats(ops, p0, p1, p2, m)| ==>
      CpuSplats(ops, p0, p1, p2, m)[i].quat == Vec4(-a.x, -a.y, -a.z, a.w)
  {
    var st := CpuSetupOf(ops, p0, p1, p2, m);
    forall i | 0 <= i < |CpuSplats(ops, p0, p1, p2, m)|
      ensures CpuSplats(ops, p0, p1, p2, m)[i].quat == Vec4(-a.x, -a.y, -a.z, a.w)
    {
      assert CpuSplats(ops, p0, p1, p2, m)[i] == CpuSplat(st, Grid(m)[i]);
    }
  }

  /**
   * Against the conversion as written, the quaternion every splat carries in (x, y, z, w)
   * order is the conjugate of a = `BasisToQuat(X, Y, n)`: its vector part negated, its
   * scalar part kept.
   */
  lemma CpuSplatsCarryConjugateOfAsWritten(ops: Ops, p0: Vec3, p1: Vec3, p2: Vec3, m: int, a: Quat)
    requires ops.Valid() && m >= 1
    requires var n := ops.Normalize3(Cross(Sub3(p1, p0), Sub3(p2, p0)));
      var x := ops.Normalize3(Sub3(p1, p0));
      a == BasisToQuat(ops, x, ops.Normalize3(Cross(n, x)), n)
    ensures forall i :: 0 <= i < |CpuSplats(ops, p0, p1, p2, m)| ==>
      CpuSplats(ops, p0, p1, p2, m)[i].quat == Vec4(-a.x, -a.y, -a.z, a.w)
  {
    CpuSetupConjugatesAsWritten(ops, p0, p1, p2, m, a);
    SplatsCarryConjugate(ops, p0, p1, p2, m, a);
  }

  /**
   * Where the renderer keeps X along the first edge, its in-plane scale at scale factor 1
   * is the mean of the earlier sampler's su and sv, unless that mean falls below 1e-7.
   */
  lemma RendererScaleAveragesCpuScale(ops: Ops, e1: Vec3, e2: Vec3, m: int)
    requires m > 0
    requires TangentBasis(ops, e1, e2).c0 == ops.Normalize3(e1)
    ensures var c := CpuScale(ops, e1, e2, ops.Normalize3(e1), m);
      var s := InPlaneScale(ops, e1, e2, TangentBasis(ops, e1, e2).c0, m, 1.0);
      && ((c.x + c.y) * 0.5 > MIN_SCALE ==> s == (c.x + c.y) * 0.5)
      && ((c.x + c.y) * 0.5 <= MIN_SCALE ==> s == MIN_SCALE)
  {
  }

  /** A weight as the source computes it, float(k) / m, which is NaN for 0 / 0. */
  function WeightAsWritten(k: int, m: int): Float {
    if m == 0 then NaN else Num((k as real) / (m as real))
  }

  /**
   * Without a guard, m = 0 gives a lattice of one point, whose weight 0 / 0 is NaN: the
   * source emits one splat at an undefined position.
   */
  lemma ZeroResolutionDividesByZero()
    ensures |Grid(0)| == 1 && Grid(0)[0] == Point(0, 0)
    ensures WeightAsWritten(Grid(0)[0].u, 0) == NaN
  {
    GridLength(0);
    GridCorners(0);
  }
}
