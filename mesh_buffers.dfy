/**
 * setupMeshBuffers (SceneManager.cpp) without its OpenGL calls: every mesh is packed into
 * an interleaved vertex array of 17 floats per corner, its surface area is accumulated,
 * it receives the running bounding box, and it is recorded in the render context next to
 * its vertex count.
 *
 * The bounding box accumulators start at (FLT_MAX, -FLT_MAX) once, before the first mesh,
 * so the box recorded for a mesh covers the corners of every mesh up to and including it.
 * The area of a triangle is computed by utils::triangleArea, whose body is not part of
 * this model: it is a parameter here.
 */
module MeshBuffers {
  import opened Glm
  import opened Utils
  import opened Context

  /** utils::triangleArea(A, B, C). */
  type AreaFunction = (Vec3, Vec3, Vec3) -> real

  // ---------------------------------------------------------------------------
  // Vertex layout
  // ---------------------------------------------------------------------------

  /** 3 position, 3 normal, 4 tangent, 2 UV, 2 normalised UV and 3 scale floats. */
  const FLOATS_PER_VERTEX: nat := 17

  /** The attribute offsets, in floats, that the vertex attribute pointers use. */
  const POSITION_OFFSET: nat := 0
  const NORMAL_OFFSET: nat := 3
  const TANGENT_OFFSET: nat := 6
  const UV_OFFSET: nat := 10
  const NORMALIZED_UV_OFFSET: nat := 12
  const SCALE_OFFSET: nat := 14

  /** The floats pushed for corner `e` of a face; the scale is the face's, the same for all three corners. */
  function PackCorner(face: Face, e: nat): (v: seq<real>)
    requires e < 3
    ensures |v| == FLOATS_PER_VERTEX
  {
    var p := face.pos.At(e);
    var n := face.normal.At(e);
    var t := face.tangent.At(e);
    var uv := face.uv.At(e);
    var nuv := face.normalizedUvs.At(e);
    [p.x, p.y, p.z, n.x, n.y, n.z, t.x, t.y, t.z, t.w, uv.x, uv.y, nuv.x, nuv.y,
     face.scale.x, face.scale.y, face.scale.z]
  }

  /** The floats of the first `e` corners of a face. */
  function PackCorners(face: Face, e: nat): (v: seq<real>)
    requires e <= 3
    ensures |v| == FLOATS_PER_VERTEX * e
  {
    if e == 0 then [] else PackCorners(face, e - 1) + PackCorner(face, e - 1)
  }

  /** The vertex array of a run of faces, face after face and corner after corner. */
  function PackFaces(faces: seq<Face>): (v: seq<real>)
    ensures |v| == 3 * FLOATS_PER_VERTEX * |faces|
  {
    if faces == [] then [] else PackFaces(faces[..|faces| - 1]) + PackCorners(faces[|faces| - 1], 3)
  }

  /** One interleaved vertex, as the attribute pointers read it. */
  datatype Vertex = Vertex(position: Vec3, normal: Vec3, tangent: Vec4, uv: Vec2, normalizedUv: Vec2, scale: Vec3)

  /** The attributes of corner `e` of a face. */
  function CornerVertex(face: Face, e: nat): Vertex
    requires e < 3
  {
    Vertex(face.pos.At(e), face.normal.At(e), face.tangent.At(e), face.uv.At(e), face.normalizedUvs.At(e), face.scale)
  }

  /** Vertex `k` of a vertex array, read at the stride and offsets the attribute pointers declare. */
  function ReadVertex(data: seq<real>, k: nat): Vertex
    requires FLOATS_PER_VERTEX * (k + 1) <= |data|
  {
    var b := FLOATS_PER_VERTEX * k;
    Vertex(
      Vec3(data[b + POSITION_OFFSET], data[b + POSITION_OFFSET + 1], data[b + POSITION_OFFSET + 2]),
      Vec3(data[b + NORMAL_OFFSET], data[b + NORMAL_OFFSET + 1], data[b + NORMAL_OFFSET + 2]),
      Vec4(data[b + TANGENT_OFFSET], data[b + TANGENT_OFFSET + 1], data[b + TANGENT_OFFSET + 2], data[b + TANGENT_OFFSET + 3]),
      Vec2(data[b + UV_OFFSET], data[b + UV_OFFSET + 1]),
      Vec2(data[b + NORMALIZED_UV_OFFSET], data[b + NORMALIZED_UV_OFFSET + 1]),
      Vec3(data[b + SCALE_OFFSET], data[b + SCALE_OFFSET + 1], data[b + SCALE_OFFSET + 2]))
  }

  /** The packing order and the attribute offsets agree: one packed corner reads back as that corner. */
  lemma PackedCornerReadsBack(face: Face, e: nat)
    requires e < 3
    ensures ReadVertex(PackCorner(face, e), 0) == CornerVertex(face, e)
  {
  }

  /** Reading a vertex looks only at its own 17 floats. */
  lemma ReadVertexOfConcat(a: seq<real>, b: seq<real>, k: nat)
    requires FLOATS_PER_VERTEX * (k + 1) <= |a| + |b|
    ensures FLOATS_PER_VERTEX * (k + 1) <= |a| ==> ReadVertex(a + b, k) == ReadVertex(a, k)
    ensures |a| == FLOATS_PER_VERTEX * k ==> ReadVertex(a + b, k) == ReadVertex(b, 0)
  {
  }

  lemma PackedCornersReadBack(face: Face, n: nat, e: nat)
    requires e < n <= 3
    ensures ReadVertex(PackCorners(face, n), e) == CornerVertex(face, e)
  {
    var prefix := PackCorners(face, n - 1);
    if e == n - 1 {
      ReadVertexOfConcat(prefix, PackCorner(face, e), e);
      PackedCornerReadsBack(face, e);
    } else {
      ReadVertexOfConcat(prefix, PackCorner(face, n - 1), e);
      PackedCornersReadBack(face, n - 1, e);
    }
  }

  /** Vertex 3f + e of a packed vertex array is corner e of face f. */
  lemma {:induction false} PackedFacesReadBack(faces: seq<Face>, f: nat, e: nat)
    requires f < |faces| && e < 3
    ensures ReadVertex(PackFaces(faces), 3 * f + e) == CornerVertex(faces[f], e)
  {
    var n := |faces| - 1;
    var prefix := PackFaces(faces[..n]);
    var last := PackCorners(faces[n], 3);
    assert PackFaces(faces) == prefix + last;
    if f == n {
      assert |prefix| == FLOATS_PER_VERTEX * (3 * f);
      ReadVertexOfConcat(prefix, last, 3 * f);
      ReadVertexOfConcat([], last, e);
      assert ReadVertex(prefix + last, 3 * f + e) == ReadVertex(last, e) by {
        ReadVertexShift(prefix, last, 3 * f, e);
      }
      PackedCornersReadBack(faces[n], 3, e);
    } else {
      ReadVertexOfConcat(prefix, last, 3 * f + e);
      PackedFacesReadBack(faces[..n], f, e);
      assert faces[..n][f] == faces[f];
    }
  }

  /** Past a prefix of k whole vertices, vertex k + e is vertex e of the rest. */
  lemma ReadVertexShift(a: seq<real>, b: seq<real>, k: nat, e: nat)
    requires |a| == FLOATS_PER_VERTEX * k && FLOATS_PER_VERTEX * (e + 1) <= |b|
    ensures ReadVertex(a + b, k + e) == ReadVertex(b, e)
  {
  }

  /** The vertex count of a mesh is three per face. */
  lemma VertexCountIsThreePerFace(faces: seq<Face>)
    ensures |PackFaces(faces)| / FLOATS_PER_VERTEX == 3 * |faces|
  {
  }

  // ---------------------------------------------------------------------------
  // Bounding box and area
  // ---------------------------------------------------------------------------

  /** FLT_MAX, the largest finite single-precision float. */
  const FLT_MAX: real := 340282346638528859811704183484516925440.0

  /** minBB(FLT_MAX) and maxBB(-FLT_MAX): the box before any corner is seen. */
  const INITIAL_BOX := BBox(Vec3(FLT_MAX, FLT_MAX, FLT_MAX), Vec3(-FLT_MAX, -FLT_MAX, -FLT_MAX))

  /** One std::min and one std::max per coordinate. */
  function Grow(b: BBox, p: Vec3): BBox {
    BBox(Vec3(Min(b.min.x, p.x), Min(b.min.y, p.y), Min(b.min.z, p.z)),
         Vec3(Max(b.max.x, p.x), Max(b.max.y, p.y), Max(b.max.z, p.z)))
  }

  /** The box after the first `e` corners of a face. */
  function GrowCorners(b: BBox, face: Face, e: nat): BBox
    requires e <= 3
  {
    if e == 0 then b else Grow(GrowCorners(b, face, e - 1), face.pos.At(e - 1))
  }

  /** The box after every corner of a run of faces. */
  function GrowFaces(b: BBox, faces: seq<Face>): BBox {
    if faces == [] then b else GrowCorners(GrowFaces(b, faces[..|faces| - 1]), faces[|faces| - 1], 3)
  }

  /** The box after every corner of every mesh of a run. */
  function GrowMeshes(b: BBox, meshes: seq<Mesh>): BBox {
    if meshes == [] then b else GrowFaces(GrowMeshes(b, meshes[..|meshes| - 1]), meshes[|meshes| - 1].faces)
  }

  predicate Contains(b: BBox, p: Vec3) {
    b.min.x <= p.x <= b.max.x && b.min.y <= p.y <= b.max.y && b.min.z <= p.z <= b.max.z
  }

  /** `outer` reaches at least as far as `inner` in every direction. */
  predicate Encloses(outer: BBox, inner: BBox) {
    && outer.min.x <= inner.min.x && outer.min.y <= inner.min.y && outer.min.z <= inner.min.z
    && outer.max.x >= inner.max.x && outer.max.y >= inner.max.y && outer.max.z >= inner.max.z
  }

  /** Growing a box by a point covers the point and everything the box covered. */
  lemma GrowCovers(b: BBox, p: Vec3)
    ensures Contains(Grow(b, p), p) && Encloses(Grow(b, p), b)
  {
  }

  lemma EnclosesTransitive(a: BBox, b: BBox, c: BBox)
    requires Encloses(a, b) && Encloses(b, c)
    ensures Encloses(a, c)
  {
  }

  lemma ContainsWithin(outer: BBox, inner: BBox, p: Vec3)
    requires Encloses(outer, inner) && Contains(inner, p)
    ensures Contains(outer, p)
  {
  }

  lemma GrowCornersCovers(b: BBox, face: Face, n: nat)
    requires n <= 3
    ensures Encloses(GrowCorners(b, face, n), b)
    ensures forall e :: 0 <= e < n ==> Contains(GrowCorners(b, face, n), face.pos.At(e))
  {
    if n > 0 {
      var before := GrowCorners(b, face, n - 1);
      GrowCornersCovers(b, face, n - 1);
      GrowCovers(before, face.pos.At(n - 1));
      EnclosesTransitive(GrowCorners(b, face, n), before, b);
      forall e | 0 <= e < n - 1
        ensures Contains(GrowCorners(b, face, n), face.pos.At(e))
      {
        ContainsWithin(GrowCorners(b, face, n), before, face.pos.At(e));
      }
    }
  }

  /** The box after a run of faces encloses the box before it and covers every corner of the run. */
  lemma {:induction false} GrowFacesCovers(b: BBox, faces: seq<Face>)
    ensures Encloses(GrowFaces(b, faces), b)
    ensures forall f, e :: 0 <= f < |faces| && 0 <= e < 3 ==> Contains(GrowFaces(b, faces), faces[f].pos.At(e))
  {
    if faces != [] {
      var n := |faces| - 1;
      var before := GrowFaces(b, faces[..n]);
      var after := GrowFaces(b, faces);
      GrowFacesCovers(b, faces[..n]);
      GrowCornersCovers(before, faces[n], 3);
      EnclosesTransitive(after, before, b);
      forall f, e | 0 <= f < |faces| && 0 <= e < 3
        ensures Contains(after, faces[f].pos.At(e))
      {
        if f < n {
          assert faces[..n][f] == faces[f];
          ContainsWithin(after, before, faces[f].pos.At(e));
        }
      }
    }
  }

  /** The sum of the triangle areas of a run of faces. */
  function FacesArea(area: AreaFunction, faces: seq<Face>): real {
    if faces == [] then 0.0
    else FacesArea(area, faces[..|faces| - 1]) + TriangleAreaOf(area, faces[|faces| - 1])
  }

  function TriangleAreaOf(area: AreaFunction, face: Face): real {
    area(face.pos.c0, face.pos.c1, face.pos.c2)
  }

  /** When every triangle area is non-negative, so is the sum. */
  lemma {:induction false} FacesAreaNonNegative(area: AreaFunction, faces: seq<Face>)
    requires forall a: Vec3, b: Vec3, c: Vec3 :: area(a, b, c) >= 0.0
    ensures FacesArea(area, faces) >= 0.0
  {
    if faces != [] {
      FacesAreaNonNegative(area, faces[..|faces| - 1]);
      var last := faces[|faces| - 1];
      assert area(last.pos.c0, last.pos.c1, last.pos.c2) >= 0.0;
    }
  }

  // ---------------------------------------------------------------------------
  // setupMeshBuffers
  // ---------------------------------------------------------------------------

  /**
   * A mesh after setupMeshBuffers, given the box before it: its face areas are added to the
   * area it already had, and its box is the running box after its corners.
   */
  function SetUpMesh(area: AreaFunction, before: BBox, mesh: Mesh): Mesh {
    mesh.(surfaceArea := mesh.surfaceArea + FacesArea(area, mesh.faces), bbox := GrowFaces(before, mesh.faces))
  }

  /** The GPU-side mesh: the packed vertex array's length over the stride. */
  function GlMeshOf(mesh: Mesh): GLMesh {
    GLMesh(|PackFaces(mesh.faces)| / FLOATS_PER_VERTEX)
  }

  /** The context entries setupMeshBuffers records for a run of meshes, in order. */
  function Entries(area: AreaFunction, meshes: seq<Mesh>): (r: seq<(Mesh, GLMesh)>)
    ensures |r| == |meshes|
  {
    if meshes == [] then []
    else
      var n := |meshes| - 1;
      Entries(area, meshes[..n]) + [(SetUpMesh(area, GrowMeshes(INITIAL_BOX, meshes[..n]), meshes[n]), GlMeshOf(meshes[n]))]
  }

  /** The sum of the recorded meshes' areas. */
  function EntriesArea(entries: seq<(Mesh, GLMesh)>): real {
    if entries == [] then 0.0 else EntriesArea(entries[..|entries| - 1]) + entries[|entries| - 1].0.surfaceArea
  }

  lemma EntriesStep(area: AreaFunction, meshes: seq<Mesh>, k: nat)
    requires k < |meshes|
    ensures Entries(area, meshes[..k + 1])
         == Entries(area, meshes[..k])
          + [(SetUpMesh(area, GrowMeshes(INITIAL_BOX, meshes[..k]), meshes[k]), GlMeshOf(meshes[k]))]
  {
    assert meshes[..k + 1][..k] == meshes[..k];
  }

  lemma EntriesAreaStep(entries: seq<(Mesh, GLMesh)>, entry: (Mesh, GLMesh))
    ensures EntriesArea(entries + [entry]) == EntriesArea(entries) + entry.0.surfaceArea
  {
    assert (entries + [entry])[..|entries|] == entries;
  }

  /** Entry k of a run is the set-up mesh k, given the box after the meshes before it. */
  lemma {:induction false} EntryAt(area: AreaFunction, meshes: seq<Mesh>, k: nat)
    requires k < |meshes|
    ensures Entries(area, meshes)[k]
         == (SetUpMesh(area, GrowMeshes(INITIAL_BOX, meshes[..k]), meshes[k]), GlMeshOf(meshes[k]))
  {
    var n := |meshes| - 1;
    var prefix := Entries(area, meshes[..n]);
    var last := (SetUpMesh(area, GrowMeshes(INITIAL_BOX, meshes[..n]), meshes[n]), GlMeshOf(meshes[n]));
    assert Entries(area, meshes) == prefix + [last];
    if k < n {
      EntryAt(area, meshes[..n], k);
      assert meshes[..n][..k] == meshes[..k];
      assert meshes[..n][k] == meshes[k];
      assert (prefix + [last])[k] == prefix[k];
    }
  }

  lemma GrowMeshesStep(meshes: seq<Mesh>, k: nat)
    requires k < |meshes|
    ensures GrowMeshes(INITIAL_BOX, meshes[..k + 1]) == GrowFaces(GrowMeshes(INITIAL_BOX, meshes[..k]), meshes[k].faces)
  {
    assert meshes[..k + 1][..k] == meshes[..k];
  }

  /** The running box never shrinks: the box after more meshes encloses the box after fewer. */
  lemma {:induction false} GrowMeshesMonotone(meshes: seq<Mesh>, j: nat, k: nat)
    requires j <= k <= |meshes|
    ensures Encloses(GrowMeshes(INITIAL_BOX, meshes[..k]), GrowMeshes(INITIAL_BOX, meshes[..j]))
  {
    if j < k {
      GrowMeshesMonotone(meshes, j, k - 1);
      GrowMeshesStep(meshes, k - 1);
      GrowFacesCovers(GrowMeshes(INITIAL_BOX, meshes[..k - 1]), meshes[k - 1].faces);
      EnclosesTransitive(GrowMeshes(INITIAL_BOX, meshes[..k]), GrowMeshes(INITIAL_BOX, meshes[..k - 1]),
                         GrowMeshes(INITIAL_BOX, meshes[..j]));
    }
  }

  /**
   * Because the accumulators are set once before the loop, the box recorded for mesh k
   * covers every corner of every mesh j <= k, not only its own.
   */
  lemma BoxCoversEveryCornerSoFar(area: AreaFunction, meshes: seq<Mesh>, k: nat, j: nat, f: nat, e: nat)
    requires j <= k < |meshes| && f < |meshes[j].faces| && e < 3
    ensures Contains(Entries(area, meshes)[k].0.bbox, meshes[j].faces[f].pos.At(e))
  {
    EntryBox(area, meshes, k);
    GrowMeshesStep(meshes, j);
    GrowFacesCovers(GrowMeshes(INITIAL_BOX, meshes[..j]), meshes[j].faces);
    GrowMeshesMonotone(meshes, j + 1, k + 1);
    ContainsWithin(GrowMeshes(INITIAL_BOX, meshes[..k + 1]), GrowMeshes(INITIAL_BOX, meshes[..j + 1]),
                   meshes[j].faces[f].pos.At(e));
  }

  /** The box recorded for a later mesh encloses the box recorded for an earlier one. */
  lemma LaterBoxesEncloseEarlier(area: AreaFunction, meshes: seq<Mesh>, j: nat, k: nat)
    requires j <= k < |meshes|
    ensures Encloses(Entries(area, meshes)[k].0.bbox, Entries(area, meshes)[j].0.bbox)
  {
    EntryBox(area, meshes, k);
    EntryBox(area, meshes, j);
    GrowMeshesMonotone(meshes, j + 1, k + 1);
  }

  /** The box recorded for mesh k is the running box after meshes 0..k. */
  lemma EntryBox(area: AreaFunction, meshes: seq<Mesh>, k: nat)
    requires k < |meshes|
    ensures Entries(area, meshes)[k].0.bbox == GrowMeshes(INITIAL_BOX, meshes[..k + 1])
  {
    EntryAt(area, meshes, k);
    GrowMeshesStep(meshes, k);
  }

  /** When no mesh up to k has faces, mesh k's box is still the inverted (FLT_MAX, -FLT_MAX) box. */
  lemma {:induction false} LeadingEmptyMeshesKeepInitialBox(area: AreaFunction, meshes: seq<Mesh>, k: nat)
    requires k < |meshes|
    requires forall j :: 0 <= j <= k ==> meshes[j].faces == []
    ensures Entries(area, meshes)[k].0.bbox == INITIAL_BOX
  {
    EntryAt(area, meshes, k);
    EmptyMeshesKeepBox(meshes[..k]);
  }

  lemma {:induction false} EmptyMeshesKeepBox(meshes: seq<Mesh>)
    requires forall j :: 0 <= j < |meshes| ==> meshes[j].faces == []
    ensures GrowMeshes(INITIAL_BOX, meshes) == INITIAL_BOX
  {
    if meshes != [] {
      var n := |meshes| - 1;
      EmptyMeshesKeepBox(meshes[..n]);
      assert meshes[n].faces == [];
    }
  }

  /**
   * The area is added to what the mesh already holds: setting up a set-up mesh again, as a
   * second call on the same meshes does, counts its faces twice.
   */
  lemma SecondSetupCountsAreaTwice(area: AreaFunction, b1: BBox, b2: BBox, mesh: Mesh)
    ensures SetUpMesh(area, b2, SetUpMesh(area, b1, mesh)).surfaceArea
         == mesh.surfaceArea + 2.0 * FacesArea(area, mesh.faces)
  {
  }

  /**
   * How far setupMeshBuffers' mesh loop has got after k meshes: the first k array slots hold
   * the set-up meshes that the context records, the rest are untouched, the running box has
   * seen meshes 0..k-1 and the context's total has grown by their areas.
   */
  ghost predicate SetupProgress(area: AreaFunction, original: seq<Mesh>, k: nat, current: seq<Mesh>,
                                entries: seq<(Mesh, GLMesh)>, total0: real, total: real, box: BBox)
  {
    && k <= |original| == |current|
    && current[k..] == original[k..]
    && entries == Entries(area, original[..k])
    && (forall j :: 0 <= j < k ==> current[j] == entries[j].0)
    && box == GrowMeshes(INITIAL_BOX, original[..k])
    && total == total0 + EntriesArea(entries)
  }

  /** One iteration of the mesh loop keeps SetupProgress. */
  lemma SetupStep(area: AreaFunction, original: seq<Mesh>, k: nat, current: seq<Mesh>,
                  entries: seq<(Mesh, GLMesh)>, total0: real, total: real, box: BBox)
    requires SetupProgress(area, original, k, current, entries, total0, total, box) && k < |original|
    ensures
      var mesh := SetUpMesh(area, box, current[k]);
      SetupProgress(area, original, k + 1, current[k := mesh], entries + [(mesh, GlMeshOf(current[k]))],
                    total0, total + mesh.surfaceArea, GrowFaces(box, current[k].faces))
  {
    assert current[k] == original[k] by { assert current[k..][0] == original[k..][0]; }
    var mesh := SetUpMesh(area, box, current[k]);
    var next := current[k := mesh];
    var nextEntries := entries + [(mesh, GlMeshOf(current[k]))];
    EntriesStep(area, original, k);
    assert nextEntries == Entries(area, original[..k + 1]);
    GrowMeshesStep(original, k);
    assert GrowFaces(box, current[k].faces) == GrowMeshes(INITIAL_BOX, original[..k + 1]);
    EntriesAreaStep(entries, (mesh, GlMeshOf(current[k])));
    assert total + mesh.surfaceArea == total0 + EntriesArea(nextEntries);
    forall i | k + 1 <= i < |original|
      ensures next[i] == original[i]
    {
      assert current[k..][i - k] == original[k..][i - k];
    }
    assert next[k + 1..] == original[k + 1..];
    forall j | 0 <= j < k + 1
      ensures next[j] == nextEntries[j].0
    {
      if j < k {
        assert nextEntries[j] == entries[j];
      }
    }
  }

  /** When the mesh loop has run over every mesh, SetupProgress is setupMeshBuffers' result. */
  lemma SetupDone(area: AreaFunction, original: seq<Mesh>, current: seq<Mesh>,
                  entries: seq<(Mesh, GLMesh)>, total0: real, total: real, box: BBox)
    requires SetupProgress(area, original, |original|, current, entries, total0, total, box)
    ensures entries == Entries(area, original) && |current| == |entries|
    ensures forall j :: 0 <= j < |current| ==> current[j] == entries[j].0
    ensures total == total0 + EntriesArea(entries)
  {
    assert original[..|original|] == original;
  }

  /** The scene manager, of which the model keeps the render context it shares with the renderer. */
  class SceneManager {
    const renderContext: RenderContext

    /** SceneManager(RenderContext& context): keeps a reference to the context. */
    constructor (context: RenderContext)
      ensures renderContext == context
    {
      renderContext := context;
    }

    /**
     * setupMeshBuffers: the context's mesh list is replaced by the set-up meshes and their
     * vertex counts, each mesh of `meshes` is updated in place to its set-up form, and the
     * meshes' areas are added to the context's running total, which is not reset.
     */
    method SetupMeshBuffers(area: AreaFunction, meshes: array<Mesh>)
      modifies renderContext`dataMeshAndGlMesh, renderContext`totalSurfaceArea, meshes
      ensures renderContext.dataMeshAndGlMesh == Entries(area, old(meshes[..]))
      ensures forall k :: 0 <= k < meshes.Length ==> meshes[k] == renderContext.dataMeshAndGlMesh[k].0
      ensures renderContext.totalSurfaceArea
           == old(renderContext.totalSurfaceArea) + EntriesArea(renderContext.dataMeshAndGlMesh)
    {
      ghost var original := meshes[..];
      ghost var total0 := renderContext.totalSurfaceArea;
      renderContext.dataMeshAndGlMesh := [];
      var box := INITIAL_BOX;
      var k := 0;
      while k < meshes.Length
        invariant SetupProgress(area, original, k, meshes[..], renderContext.dataMeshAndGlMesh,
                                total0, renderContext.totalSurfaceArea, box)
      {
        ghost var current := meshes[..];
        ghost var entries := renderContext.dataMeshAndGlMesh;
        ghost var total := renderContext.totalSurfaceArea;
        ghost var boxBefore := box;
        var mesh, glMesh;
        mesh, glMesh, box := SetUpOneMesh(area, meshes[k], box);
        SetupStep(area, original, k, current, entries, total0, total, boxBefore);
        meshes[k] := mesh;
        renderContext.totalSurfaceArea := renderContext.totalSurfaceArea + mesh.surfaceArea;
        renderContext.dataMeshAndGlMesh := renderContext.dataMeshAndGlMesh + [(mesh, glMesh)];
        assert meshes[..] == current[k := mesh];
        k := k + 1;
      }
      SetupDone(area, original, meshes[..], renderContext.dataMeshAndGlMesh, total0,
                renderContext.totalSurfaceArea, box);
    }
  }

  /**
   * One iteration of setupMeshBuffers' mesh loop: pack the mesh, give it the running box
   * and its accumulated area, and count its vertices.
   */
  method SetUpOneMesh(area: AreaFunction, mesh: Mesh, box: BBox) returns (out: Mesh, glMesh: GLMesh, newBox: BBox)
    ensures out == SetUpMesh(area, box, mesh) && glMesh == GlMeshOf(mesh)
    ensures newBox == GrowFaces(box, mesh.faces)
  {
    var vertices, meshArea;
    vertices, newBox, meshArea := PackMesh(area, mesh.faces, box, mesh.surfaceArea);
    out := mesh.(surfaceArea := meshArea, bbox := newBox);
    glMesh := GLMesh(|vertices| / FLOATS_PER_VERTEX);
  }

  /**
   * The per-mesh loop of setupMeshBuffers: push the 17 floats of every corner, grow the
   * running box by every corner position, and add every triangle's area to the mesh's.
   */
  method PackMesh(area: AreaFunction, faces: seq<Face>, box0: BBox, area0: real)
    returns (vertices: seq<real>, box: BBox, meshArea: real)
    ensures vertices == PackFaces(faces)
    ensures box == GrowFaces(box0, faces)
    ensures meshArea == area0 + FacesArea(area, faces)
  {
    vertices := [];
    box := box0;
    meshArea := area0;
    var j := 0;
    while j < |faces|
      invariant 0 <= j <= |faces|
      invariant vertices == PackFaces(faces[..j])
      invariant box == GrowFaces(box0, faces[..j])
      invariant meshArea == area0 + FacesArea(area, faces[..j])
    {
      var face := faces[j];
      PackFacesStep(area, box0, faces, j);
      vertices, box := PackFace(face, vertices, box);
      meshArea := meshArea + area(face.pos.c0, face.pos.c1, face.pos.c2);
      j := j + 1;
    }
    assert faces[..j] == faces;
  }

  /** The three corners of one face: push each corner's floats and grow the box by its position. */
  method PackFace(face: Face, vertices0: seq<real>, box0: BBox) returns (vertices: seq<real>, box: BBox)
    ensures vertices == vertices0 + PackCorners(face, 3)
    ensures box == GrowCorners(box0, face, 3)
  {
    vertices := vertices0;
    box := box0;
    var e := 0;
    while e < 3
      invariant 0 <= e <= 3
      invariant vertices == vertices0 + PackCorners(face, e)
      invariant box == GrowCorners(box0, face, e)
    {
      vertices := vertices + PackCorner(face, e);
      box := Grow(box, face.pos.At(e));
      e := e + 1;
    }
  }

  /** Faces 0..j are faces 0..j-1 followed by face j, for the vertex array, the box and the area. */
  lemma PackFacesStep(area: AreaFunction, box0: BBox, faces: seq<Face>, j: nat)
    requires j < |faces|
    ensures PackFaces(faces[..j + 1]) == PackFaces(faces[..j]) + PackCorners(faces[j], 3)
    ensures GrowFaces(box0, faces[..j + 1]) == GrowCorners(GrowFaces(box0, faces[..j]), faces[j], 3)
    ensures FacesArea(area, faces[..j + 1]) == FacesArea(area, faces[..j]) + TriangleAreaOf(area, faces[j])
  {
    assert faces[..j + 1][..j] == faces[..j];
  }
}
