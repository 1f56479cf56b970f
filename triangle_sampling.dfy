/**
 * sampleTriangleCPU_Internal (renderer.cpp): one triangle becomes one splat per point of
 * the barycentric lattice of resolution m. Every splat of a triangle shares the rotation
 * of the triangle's tangent frame and one isotropic in-plane scale; position, vertex
 * normal, UV and tangent are interpolated with the point's barycentric weights, and the
 * material is evaluated at the interpolated UV.
 */
module TriangleSampling {
  import opened Glm
  import opened Utils
  import opened Lattice
  import opened MaterialEvaluation

  /** 1e-6: the length below which a normal or a frame axis counts as vanishing. */
  const DEGENERATE_EPS: real := 0.000001

  /** 1e-7: the smallest in-plane scale, and the constant thickness of every splat. */
  const MIN_SCALE: real := 0.0000001

  /** 0.1: the length a normal-map normal must exceed to be applied. */
  const NORMAL_MAP_THRESHOLD: real := 0.1

  /** 0.9: how far the normal may lean towards x before (0,1,0) replaces (1,0,0) as helper axis. */
  const HELPER_AXIS_LIMIT: real := 0.9

  /** The edges p1 - p0 and p2 - p0. */
  function Edge1(p0: Vec3, p1: Vec3): Vec3 { Sub3(p1, p0) }
  function Edge2(p0: Vec3, p2: Vec3): Vec3 { Sub3(p2, p0) }

  /**
   * The degenerate-triangle test, applied to the un-normalised cross product of the edges:
   * the triangle is skipped when twice its area is below 1e-6.
   */
  predicate Degenerate(ops: Ops, p0: Vec3, p1: Vec3, p2: Vec3) {
    ops.Length3(Cross(Edge1(p0, p1), Edge2(p0, p2))) < DEGENERATE_EPS
  }

  /**
   * The tangent frame (X, Y, n): X along the first edge and Y = n x X, unless that cross
   * product vanishes, in which case Y comes from a helper axis and X is rebuilt from Y.
   */
  function TangentBasis(ops: Ops, e1: Vec3, e2: Vec3): (basis: Mat3)
    ensures basis.c2 == ops.Normalize3(Cross(e1, e2))
  {
    var n := ops.Normalize3(Cross(e1, e2));
    var x := ops.Normalize3(e1);
    var yCandidate := Cross(n, x);
    if ops.Length3(yCandidate) < DEGENERATE_EPS then
      var helper := if Abs(n.x) < HELPER_AXIS_LIMIT then Vec3(1.0, 0.0, 0.0) else Vec3(0.0, 1.0, 0.0);
      var y := ops.Normalize3(Cross(n, helper));
      Mat3(ops.Normalize3(Cross(y, n)), ops.Normalize3(y), n)
    else
      Mat3(x, ops.Normalize3(yCandidate), n)
  }

  /** Without the fallback, X is the normalised first edge. */
  lemma BasisFollowsFirstEdge(ops: Ops, e1: Vec3, e2: Vec3)
    requires ops.Length3(Cross(ops.Normalize3(Cross(e1, e2)), ops.Normalize3(e1))) >= DEGENERATE_EPS
    ensures TangentBasis(ops, e1, e2).c0 == ops.Normalize3(e1)
  {
  }

  /** The mean of the two in-plane extents at resolution m, floored at 1e-7. */
  function InPlaneScale(ops: Ops, e1: Vec3, e2: Vec3, x: Vec3, m: int, scaleFactor: real): real
    requires m > 0
  {
    var su := (ops.Length3(e1) / (m as real)) * scaleFactor;
    var e2Perp := Sub3(e2, Scale3(Dot3(e2, x), x));
    var sv := (ops.Length3(e2Perp) / (m as real)) * scaleFactor;
    var avg := (su + sv) * 0.5;
    if avg > MIN_SCALE then avg else MIN_SCALE
  }

  /** The scale every splat of a triangle gets: isotropic in the plane and 1e-7 thick. */
  function SplatScale(ops: Ops, e1: Vec3, e2: Vec3, x: Vec3, m: int, scaleFactor: real): (s: Vec3)
    requires m > 0
    ensures s.x == s.y && s.x >= MIN_SCALE && s.z == MIN_SCALE
  {
    var s := InPlaneScale(ops, e1, e2, x, m, scaleFactor);
    Vec3(s, s, MIN_SCALE)
  }

  /** The in-plane scale is the mean extent whenever that mean exceeds 1e-7. */
  lemma InPlaneScaleIsMeanExtent(ops: Ops, e1: Vec3, e2: Vec3, x: Vec3, m: int, scaleFactor: real)
    requires m > 0
    ensures var su := (ops.Length3(e1) / (m as real)) * scaleFactor;
      var sv := (ops.Length3(Sub3(e2, Scale3(Dot3(e2, x), x))) / (m as real)) * scaleFactor;
      var s := InPlaneScale(ops, e1, e2, x, m, scaleFactor);
      && s >= MIN_SCALE
      && ((su + sv) * 0.5 > MIN_SCALE ==> s == (su + sv) * 0.5)
      && ((su + sv) * 0.5 <= MIN_SCALE ==> s == MIN_SCALE)
  {
  }

  /** What every splat of one triangle shares. */
  datatype Setup = Setup(
    p0: Vec3, p1: Vec3, p2: Vec3,
    face: Face,
    material: MaterialGltf,
    m: int,
    rotation: Quat,
    scale: Vec3)
  {
    predicate Ready() { m > 0 && material.Sampleable() }
  }

  /** The per-triangle constants computed before the loops. */
  function SetupOf(ops: Ops, p0: Vec3, p1: Vec3, p2: Vec3, face: Face, material: MaterialGltf, m: int, scaleFactor: real): (st: Setup)
    requires m > 0
    ensures st.p0 == p0 && st.p1 == p1 && st.p2 == p2 && st.face == face && st.material == material && st.m == m
  {
    var e1 := Edge1(p0, p1);
    var e2 := Edge2(p0, p2);
    var basis := TangentBasis(ops, e1, e2);
    Setup(p0, p1, p2, face, material, m, ops.quatCast(basis), SplatScale(ops, e1, e2, basis.c0, m, scaleFactor))
  }

  /** fw * a0 + fu * a1 + fv * a2. */
  function Interpolate3(w: Weights, a0: Vec3, a1: Vec3, a2: Vec3): Vec3 {
    Add3(Add3(Scale3(w.fw, a0), Scale3(w.fu, a1)), Scale3(w.fv, a2))
  }

  function Interpolate2(w: Weights, a: Triple<Vec2>): Vec2 {
    Add2(Add2(Scale2(w.fw, a.c0), Scale2(w.fu, a.c1)), Scale2(w.fv, a.c2))
  }

  function Interpolate4(w: Weights, a: Triple<Vec4>): Vec4 {
    Add4(Add4(Scale4(w.fw, a.c0), Scale4(w.fu, a.c1)), Scale4(w.fv, a.c2))
  }

  /** With unit weights the interpolation returns the corresponding corner exactly. */
  lemma InterpolateCorners(a0: Vec3, a1: Vec3, a2: Vec3)
    ensures Interpolate3(Weights(0.0, 0.0, 1.0), a0, a1, a2) == a0
    ensures Interpolate3(Weights(1.0, 0.0, 0.0), a0, a1, a2) == a1
    ensures Interpolate3(Weights(0.0, 1.0, 0.0), a0, a1, a2) == a2
  {
    assert Scale3(0.0, a0) == Zero3 && Scale3(0.0, a1) == Zero3 && Scale3(0.0, a2) == Zero3;
    assert Scale3(1.0, a0) == a0 && Scale3(1.0, a1) == a1 && Scale3(1.0, a2) == a2;
  }

  /**
   * The shading normal: a normal-map normal longer than 0.1 is taken from tangent space
   * (columns T, B = (n x T) * tangent.w, n) to world space and normalised; otherwise it
   * is the interpolated vertex normal.
   */
  function ShadingNormal(ops: Ops, vertexNormal: Vec3, tangent: Vec4, mapNormal: Vec3): Vec3 {
    if ops.Length3(mapNormal) > NORMAL_MAP_THRESHOLD then
      var t := Xyz(tangent);
      var b := Scale3(tangent.w, Cross(vertexNormal, t));
      ops.Normalize3(MatVec(Mat3(t, b, vertexNormal), mapNormal))
    else
      vertexNormal
  }

  /** The flat map normal (0,0,1) picks out the third column: the vertex normal is only renormalised. */
  lemma FlatMapNormalKeepsVertexNormal(ops: Ops, vertexNormal: Vec3, tangent: Vec4)
    requires ops.Valid()
    ensures ShadingNormal(ops, vertexNormal, tangent, FlatNormal) == ops.Normalize3(vertexNormal)
  {
    assert Dot3(FlatNormal, FlatNormal) == 1.0;
    var t := Xyz(tangent);
    MatVecThirdAxis(Mat3(t, Scale3(tangent.w, Cross(vertexNormal, t)), vertexNormal));
  }

  /** The splat of lattice point p, as the loop body builds it. */
  function Splat(ops: Ops, st: Setup, p: Point): (g: GaussianDataSSBO)
    requires st.Ready()
    ensures g.position.w == 1.0 && g.normal.w == 0.0
    ensures g.scale == Extend(st.scale, 0.0)
    ensures g.rotation == Vec4(st.rotation.w, st.rotation.x, st.rotation.y, st.rotation.z)
    ensures 0.0 <= g.color.x <= 1.0 && 0.0 <= g.color.y <= 1.0 && 0.0 <= g.color.z <= 1.0
    ensures g.pbr.z == 0.0 && g.pbr.w == 0.0
  {
    var w := BarycentricWeights(p, st.m);
    var position := Interpolate3(w, st.p0, st.p1, st.p2);
    var vertexNormal := ops.Normalize3(Interpolate3(w, st.face.normal.c0, st.face.normal.c1, st.face.normal.c2));
    var uv := Interpolate2(w, st.face.uv);
    var tangent := ops.Normalize4(Interpolate4(w, st.face.tangent));
    var sample := ComputeMaterialPropertiesAtUV(st.material, uv);
    var normal := ShadingNormal(ops, vertexNormal, tangent, sample.normal);
    GaussianDataSSBO(
      Extend(position, 1.0),
      Extend(Clamp3(Xyz(sample.color)), sample.color.w),
      Extend(st.scale, 0.0),
      Extend(normal, 0.0),
      Vec4(st.rotation.w, st.rotation.x, st.rotation.y, st.rotation.z),
      Vec4(sample.metallicRoughness.x, sample.metallicRoughness.y, 0.0, 0.0))
  }

  /** The material evaluated at the interpolated UV of lattice point p. */
  function SampleAt(st: Setup, p: Point): MaterialSample
    requires st.Ready()
  {
    ComputeMaterialPropertiesAtUV(st.material, Interpolate2(BarycentricWeights(p, st.m), st.face.uv))
  }

  /** Colour, opacity and the PBR slot come from the material sample; emissive is not added. */
  lemma SplatTakesMaterial(ops: Ops, st: Setup, p: Point)
    requires st.Ready()
    ensures var g := Splat(ops, st, p);
      var sample := SampleAt(st, p);
      && Xyz(g.color) == Clamp3(Xyz(sample.color))
      && g.color.w == sample.color.w
      && g.pbr == Vec4(sample.metallicRoughness.x, sample.metallicRoughness.y, 0.0, 0.0)
  {
  }

  /** The splat sits at fw * p0 + fu * p1 + fv * p2. */
  lemma SplatPosition(ops: Ops, st: Setup, p: Point)
    requires st.Ready()
    ensures Splat(ops, st, p).position == Extend(Interpolate3(BarycentricWeights(p, st.m), st.p0, st.p1, st.p2), 1.0)
  {
  }

  /** Neither the emissive factor nor the emissive texture reaches a splat. */
  lemma EmissiveIsIgnored(ops: Ops, st: Setup, p: Point, factor: Vec3, texture: TextureInfo)
    requires st.Ready() && texture.WellFormed()
    ensures var other := st.(material := st.material.(emissiveFactor := factor, emissiveTexture := texture));
      other.Ready() && Splat(ops, other, p) == Splat(ops, st, p)
  {
    var other := st.(material := st.material.(emissiveFactor := factor, emissiveTexture := texture));
    EmissiveFeedsOnlyEmissive(st.material, Interpolate2(BarycentricWeights(p, st.m), st.face.uv), factor, texture);
    SplatDependsOnSample(ops, other, st, p);
  }

  /** Of the material, a splat sees only the colour, metallic-roughness and normal sampled at its UV. */
  lemma SplatDependsOnSample(ops: Ops, st1: Setup, st2: Setup, p: Point)
    requires st1.Ready() && st2.Ready()
    requires st1.(material := st2.material) == st2
    requires var s1 := SampleAt(st1, p); var s2 := SampleAt(st2, p);
      s1.color == s2.color && s1.metallicRoughness == s2.metallicRoughness && s1.normal == s2.normal
    ensures Splat(ops, st1, p) == Splat(ops, st2, p)
  {
  }

  /** Without a normal map the splat normal is the renormalised interpolated vertex normal. */
  lemma SplatNormalWithoutNormalMap(ops: Ops, st: Setup, p: Point)
    requires st.Ready() && ops.Valid() && st.material.normalTexture.path == EMPTY_TEXTURE
    ensures var w := BarycentricWeights(p, st.m);
      var vertexNormal := ops.Normalize3(Interpolate3(w, st.face.normal.c0, st.face.normal.c1, st.face.normal.c2));
      Splat(ops, st, p).normal == Extend(ops.Normalize3(vertexNormal), 0.0)
  {
    var w := BarycentricWeights(p, st.m);
    var vertexNormal := ops.Normalize3(Interpolate3(w, st.face.normal.c0, st.face.normal.c1, st.face.normal.c2));
    var tangent := ops.Normalize4(Interpolate4(w, st.face.tangent));
    assert SampleAt(st, p).normal == FlatNormal;
    FlatMapNormalKeepsVertexNormal(ops, vertexNormal, tangent);
  }

  /** The loop body as a function of the lattice point. */
  function SplatOf(ops: Ops, st: Setup): Point -> GaussianDataSSBO
    requires st.Ready()
  {
    p => Splat(ops, st, p)
  }

  /** The splats of a sequence of lattice points, in order. */
  function Emit(ops: Ops, st: Setup, points: seq<Point>): (r: seq<GaussianDataSSBO>)
    requires st.Ready()
    ensures |r| == |points|
    ensures forall i :: 0 <= i < |points| ==> r[i] == Splat(ops, st, points[i])
  {
    MapPoints(SplatOf(ops, st), points)
  }

  /** What sampleTriangleCPU_Internal returns. */
  function TriangleSplats(ops: Ops, p0: Vec3, p1: Vec3, p2: Vec3, face: Face, material: MaterialGltf, m: int, scaleFactor: real): seq<GaussianDataSSBO>
    requires material.Sampleable()
  {
    if m <= 0 then []
    else if Degenerate(ops, p0, p1, p2) then []
    else Emit(ops, SetupOf(ops, p0, p1, p2, face, material, m, scaleFactor), Grid(m))
  }

  /** sampleTriangleCPU_Internal: the nested u / v loops push one splat per lattice point. */
  method SampleTriangleCPUInternal(
    ops: Ops, p0: Vec3, p1: Vec3, p2: Vec3, face: Face, material: MaterialGltf, m: int, scaleFactor: real)
    returns (out: seq<GaussianDataSSBO>)
    requires material.Sampleable()
    ensures out == TriangleSplats(ops, p0, p1, p2, face, material, m, scaleFactor)
  {
    out := [];
    if m <= 0 {
      return;
    }
    var e1 := Sub3(p1, p0);
    var e2 := Sub3(p2, p0);
    var normal := Cross(e1, e2);
    if ops.Length3(normal) < DEGENERATE_EPS {
      return;
    }
    var st := ComputeSetup(ops, p0, p1, p2, face, material, m, scaleFactor);
    out := WalkLattice(SplatOf(ops, st), m);
  }

  /** The frame, rotation and scale sampleTriangleCPU_Internal computes before its loops. */
  method ComputeSetup(ops: Ops, p0: Vec3, p1: Vec3, p2: Vec3, face: Face, material: MaterialGltf, m: int, scaleFactor: real)
    returns (st: Setup)
    requires m > 0
    ensures st == SetupOf(ops, p0, p1, p2, face, material, m, scaleFactor)
  {
    var e1 := Sub3(p1, p0);
    var e2 := Sub3(p2, p0);
    var n := ops.Normalize3(Cross(e1, e2));
    var x := ops.Normalize3(e1);
    var yCandidate := Cross(n, x);
    if ops.Length3(yCandidate) < DEGENERATE_EPS {
      var helper := if Abs(n.x) < HELPER_AXIS_LIMIT then Vec3(1.0, 0.0, 0.0) else Vec3(0.0, 1.0, 0.0);
      yCandidate := ops.Normalize3(Cross(n, helper));
      x := ops.Normalize3(Cross(yCandidate, n));
    }
    var y := ops.Normalize3(yCandidate);
    var q := ops.quatCast(Mat3(x, y, n));
    var s := SplatScale(ops, e1, e2, x, m, scaleFactor);
    st := Setup(p0, p1, p2, face, material, m, q, s);
  }

  /** m <= 0 gives no splats. */
  lemma NoResolutionNoSplats(ops: Ops, p0: Vec3, p1: Vec3, p2: Vec3, face: Face, material: MaterialGltf, m: int, scaleFactor: real)
    requires material.Sampleable() && m <= 0
    ensures TriangleSplats(ops, p0, p1, p2, face, material, m, scaleFactor) == []
  {
  }

  /** A triangle with two coincident corners is degenerate and gives no splats. */
  lemma CoincidentCornersGiveNoSplats(ops: Ops, p0: Vec3, p1: Vec3, p2: Vec3, face: Face, material: MaterialGltf, m: int, scaleFactor: real)
    requires ops.Valid() && material.Sampleable()
    requires p0 == p1 || p0 == p2 || p1 == p2
    ensures Degenerate(ops, p0, p1, p2)
    ensures TriangleSplats(ops, p0, p1, p2, face, material, m, scaleFactor) == []
  {
    var e1 := Edge1(p0, p1);
    var e2 := Edge2(p0, p2);
    if p0 == p1 {
      assert e1 == Zero3;
    } else if p0 == p2 {
      assert e2 == Zero3;
    } else {
      assert e1 == e2;
      CrossOfParallel(e1, 1.0);
      assert Scale3(1.0, e1) == e1;
    }
    assert Cross(e1, e2) == Zero3;
    LengthOfZero(ops);
  }

  /** A sampled triangle gives exactly (m+1)(m+2)/2 splats. */
  lemma SplatCount(ops: Ops, p0: Vec3, p1: Vec3, p2: Vec3, face: Face, material: MaterialGltf, m: int, scaleFactor: real)
    requires material.Sampleable() && m >= 1 && !Degenerate(ops, p0, p1, p2)
    ensures |TriangleSplats(ops, p0, p1, p2, face, material, m, scaleFactor)| == (m + 1) * (m + 2) / 2
  {
    GridLength(m);
  }

  /** Splat Offset(u) + v is the splat of lattice point (u, v): u-major, then v ascending. */
  lemma SplatOrder(ops: Ops, p0: Vec3, p1: Vec3, p2: Vec3, face: Face, material: MaterialGltf, m: int, scaleFactor: real, u: nat, v: nat)
    requires material.Sampleable() && m >= 1 && !Degenerate(ops, p0, p1, p2) && u + v <= m
    ensures var r := TriangleSplats(ops, p0, p1, p2, face, material, m, scaleFactor);
      Offset(u, m) + v < |r|
      && r[Offset(u, m) + v] == Splat(ops, SetupOf(ops, p0, p1, p2, face, material, m, scaleFactor), Point(u, v))
  {
    var st := SetupOf(ops, p0, p1, p2, face, material, m, scaleFactor);
    assert st.m == m;
    assert TriangleSplats(ops, p0, p1, p2, face, material, m, scaleFactor) == Emit(ops, st, Grid(m));
    GridOrder(ops, st, u, v);
  }

  lemma GridOrder(ops: Ops, st: Setup, u: nat, v: nat)
    requires st.Ready() && u + v <= st.m
    ensures Offset(u, st.m) + v < |Grid(st.m)|
    ensures Emit(ops, st, Grid(st.m))[Offset(u, st.m) + v] == Splat(ops, st, Point(u, v))
  {
    GridAt(st.m, u, v);
  }

  /** The first splat sits on p0, the (m+1)-th on p2 and the last on p1. */
  lemma SplatCorners(ops: Ops, p0: Vec3, p1: Vec3, p2: Vec3, face: Face, material: MaterialGltf, m: int, scaleFactor: real)
    requires material.Sampleable() && m >= 1 && !Degenerate(ops, p0, p1, p2)
    ensures var r := TriangleSplats(ops, p0, p1, p2, face, material, m, scaleFactor);
      && m < |r|
      && r[0].position == Extend(p0, 1.0)
      && r[m].position == Extend(p2, 1.0)
      && r[|r| - 1].position == Extend(p1, 1.0)
  {
    var st := SetupOf(ops, p0, p1, p2, face, material, m, scaleFactor);
    GridCorners(m);
    GridLength(m);
    CornerWeights(m);
    InterpolateCorners(p0, p1, p2);
    SplatPosition(ops, st, Point(0, 0));
    SplatPosition(ops, st, Point(0, m));
    SplatPosition(ops, st, Point(m, 0));
  }

  /**
   * All splats of a triangle share one scale (s, s, 1e-7, 0) with s >= 1e-7 and one
   * rotation, stored as (w, x, y, z) of the frame's quaternion.
   */
  lemma SplatsShareFrame(ops: Ops, p0: Vec3, p1: Vec3, p2: Vec3, face: Face, material: MaterialGltf, m: int, scaleFactor: real)
    requires material.Sampleable() && m >= 1 && !Degenerate(ops, p0, p1, p2)
    ensures var r := TriangleSplats(ops, p0, p1, p2, face, material, m, scaleFactor);
      var e1 := Edge1(p0, p1);
      var e2 := Edge2(p0, p2);
      var basis := TangentBasis(ops, e1, e2);
      var q := ops.quatCast(basis);
      var s := InPlaneScale(ops, e1, e2, basis.c0, m, scaleFactor);
      && s >= MIN_SCALE
      && forall i :: 0 <= i < |r| ==>
           && r[i].scale == Vec4(s, s, MIN_SCALE, 0.0)
           && r[i].rotation == Vec4(q.w, q.x, q.y, q.z)
  {
  }

  /** Every splat has w = 1 in position and w = 0 in normal, RGB in [0, 1] and a zero-padded PBR slot. */
  lemma SplatRecordShape(ops: Ops, p0: Vec3, p1: Vec3, p2: Vec3, face: Face, material: MaterialGltf, m: int, scaleFactor: real)
    requires material.Sampleable()
    ensures var r := TriangleSplats(ops, p0, p1, p2, face, material, m, scaleFactor);
      forall i :: 0 <= i < |r| ==>
        && r[i].position.w == 1.0 && r[i].normal.w == 0.0 && r[i].scale.w == 0.0
        && 0.0 <= r[i].color.x <= 1.0 && 0.0 <= r[i].color.y <= 1.0 && 0.0 <= r[i].color.z <= 1.0
        && r[i].pbr.z == 0.0 && r[i].pbr.w == 0.0
  {
  }

  /**
   * A value that may be NaN, for reading the degenerate test exactly as written: it
   * measures the length of the normalised cross product.
   */
  datatype Float = Num(value: real) | NaN

  /**
   * glm::length(glm::normalize(c)) in exact arithmetic: the zero vector normalises to NaN
   * (0 times the infinite inverse square root of 0), every other vector to length 1.
   */
  function NormalizedLengthAsWritten(c: Vec3): Float {
    if c == Zero3 then NaN else Num(1.0)
  }

  /** `a < b` on floats: false whenever a is NaN. */
  predicate FloatLess(a: Float, b: real) {
    a.Num? && a.value < b
  }

  /** The degenerate test as written: length(normalize(cross(e1, e2))) < 1e-6. */
  predicate DegenerateGuardAsWritten(p0: Vec3, p1: Vec3, p2: Vec3) {
    FloatLess(NormalizedLengthAsWritten(Cross(Edge1(p0, p1), Edge2(p0, p2))), DEGENERATE_EPS)
  }

  /** As written, the test never fires: a zero cross product gives NaN, any other gives 1. */
  lemma GuardAsWrittenNeverFires(p0: Vec3, p1: Vec3, p2: Vec3)
    ensures !DegenerateGuardAsWritten(p0, p1, p2)
  {
  }

  /** Three collinear points on the x axis. */
  const CollinearP0 := Vec3(0.0, 0.0, 0.0)
  const CollinearP1 := Vec3(1.0, 0.0, 0.0)
  const CollinearP2 := Vec3(2.0, 0.0, 0.0)

  lemma CollinearCrossVanishes()
    ensures Cross(Edge1(CollinearP0, CollinearP1), Edge2(CollinearP0, CollinearP2)) == Zero3
  {
    CrossOfParallel(CollinearP1, 2.0);
  }

  /** The corrected test rejects the collinear triangle. */
  lemma CollinearTriangleIsDegenerate(ops: Ops)
    requires ops.Valid()
    ensures Degenerate(ops, CollinearP0, CollinearP1, CollinearP2)
  {
    CollinearCrossVanishes();
    LengthOfZero(ops);
  }

  /** The test as written lets the collinear triangle through. */
  lemma CollinearTrianglePassesGuardAsWritten()
    ensures !DegenerateGuardAsWritten(CollinearP0, CollinearP1, CollinearP2)
  {
    CollinearCrossVanishes();
  }
}
