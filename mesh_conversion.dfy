/**
 * convertMeshToGaussiansCPU (renderer.cpp): clear the splat list, then for every mesh that
 * has faces, and every face of it in order, append the splats the triangle sampler makes
 * of that face. The ordering and counting facts hold for any per-face generator and are
 * proved at that level; `TriangleSampler` is the one the converter uses.
 */
module MeshConversion {
  import opened Glm
  import opened Utils
  import opened TriangleSampling
  import opened Context

  /** A per-face splat generator, given the face and the material of its mesh. */
  type FaceSampler = (Face, MaterialGltf) --> seq<GaussianDataSSBO>

  /** `sample` can be applied to any face under any material that can be sampled. */
  ghost predicate AcceptsSampleable(sample: FaceSampler) {
    forall face: Face, material: MaterialGltf :: material.Sampleable() ==> sample.requires(face, material)
  }

  /** sampleTriangleCPU_Internal on the face's three positions, at a fixed density and scale factor. */
  function TriangleSampler(ops: Ops, density: int, scaleFactor: real): (sample: FaceSampler)
    ensures AcceptsSampleable(sample)
  {
    (face: Face, material: MaterialGltf) requires material.Sampleable() =>
      TriangleSplats(ops, face.pos.c0, face.pos.c1, face.pos.c2, face, material, density, scaleFactor)
  }

  lemma SamplerApplies(ops: Ops, density: int, scaleFactor: real, face: Face, material: MaterialGltf)
    requires material.Sampleable()
    ensures TriangleSampler(ops, density, scaleFactor)(face, material)
         == TriangleSplats(ops, face.pos.c0, face.pos.c1, face.pos.c2, face, material, density, scaleFactor)
  {
  }

  /** sampleTriangleCPU_Internal called on a face's three corner positions. */
  method SampleFace(ops: Ops, face: Face, material: MaterialGltf, density: int, scaleFactor: real)
    returns (out: seq<GaussianDataSSBO>)
    requires material.Sampleable()
    ensures out == TriangleSampler(ops, density, scaleFactor)(face, material)
  {
    out := SampleTriangleCPUInternal(
      ops, face.pos.c0, face.pos.c1, face.pos.c2, face, material, density, scaleFactor);
    SamplerApplies(ops, density, scaleFactor, face, material);
  }

  /** A mesh the converter samples: one without faces is skipped, so its material is never read. */
  predicate MeshSampleable(entry: (Mesh, GLMesh)) {
    entry.0.faces == [] || entry.0.material.Sampleable()
  }

  /** Every mesh with faces has a material that can be sampled. */
  predicate MeshesSampleable(meshes: seq<(Mesh, GLMesh)>) {
    forall i :: 0 <= i < |meshes| ==> MeshSampleable(meshes[i])
  }

  lemma SampleablePrefix(meshes: seq<(Mesh, GLMesh)>, k: nat)
    requires MeshesSampleable(meshes) && k <= |meshes|
    ensures MeshesSampleable(meshes[..k])
  {
    forall i | 0 <= i < k
      ensures MeshSampleable(meshes[..k][i])
    {
      assert meshes[..k][i] == meshes[i];
    }
  }

  /** The splats of a run of faces, face after face. */
  function FacesSplats(sample: FaceSampler, faces: seq<Face>, material: MaterialGltf): seq<GaussianDataSSBO>
    requires AcceptsSampleable(sample) && material.Sampleable()
  {
    if faces == [] then []
    else FacesSplats(sample, faces[..|faces| - 1], material) + sample(faces[|faces| - 1], material)
  }

  /** Appending the splats of face j after those of the faces before it gives those of faces 0..j. */
  lemma FacesSplatsStep(sample: FaceSampler, base: seq<GaussianDataSSBO>, faces: seq<Face>, j: nat, material: MaterialGltf)
    requires AcceptsSampleable(sample) && material.Sampleable() && j < |faces|
    ensures base + FacesSplats(sample, faces[..j + 1], material)
         == base + FacesSplats(sample, faces[..j], material) + sample(faces[j], material)
  {
    assert faces[..j + 1][..j] == faces[..j];
  }

  /** What one mesh contributes: nothing for a mesh without faces. */
  function MeshSplats(sample: FaceSampler, mesh: Mesh): seq<GaussianDataSSBO>
    requires AcceptsSampleable(sample) && (mesh.faces == [] || mesh.material.Sampleable())
  {
    if mesh.faces == [] then [] else FacesSplats(sample, mesh.faces, mesh.material)
  }

  /** The splats of a run of meshes, mesh after mesh. */
  function ConvertMeshes(sample: FaceSampler, meshes: seq<(Mesh, GLMesh)>): seq<GaussianDataSSBO>
    requires AcceptsSampleable(sample) && MeshesSampleable(meshes)
  {
    if meshes == [] then []
    else
      SampleablePrefix(meshes, |meshes| - 1);
      ConvertMeshes(sample, meshes[..|meshes| - 1]) + MeshSplats(sample, meshes[|meshes| - 1].0)
  }

  /** Faces are converted in order: the splats of a concatenation are the concatenated splats. */
  lemma {:induction false} FacesSplatsConcat(sample: FaceSampler, a: seq<Face>, b: seq<Face>, material: MaterialGltf)
    requires AcceptsSampleable(sample) && material.Sampleable()
    ensures FacesSplats(sample, a + b, material) == FacesSplats(sample, a, material) + FacesSplats(sample, b, material)
  {
    if b == [] {
      assert a + b == a;
    } else {
      assert (a + b)[..|a + b| - 1] == a + b[..|b| - 1];
      assert (a + b)[|a + b| - 1] == b[|b| - 1];
      FacesSplatsConcat(sample, a, b[..|b| - 1], material);
    }
  }

  /** Meshes are converted in order: the splats of a concatenation are the concatenated splats. */
  lemma {:induction false} ConvertMeshesConcat(sample: FaceSampler, a: seq<(Mesh, GLMesh)>, b: seq<(Mesh, GLMesh)>)
    requires AcceptsSampleable(sample) && MeshesSampleable(a) && MeshesSampleable(b)
    ensures MeshesSampleable(a + b)
    ensures ConvertMeshes(sample, a + b) == ConvertMeshes(sample, a) + ConvertMeshes(sample, b)
  {
    forall i | 0 <= i < |a + b|
      ensures MeshSampleable((a + b)[i])
    {
      if i < |a| {
        assert (a + b)[i] == a[i];
      } else {
        assert (a + b)[i] == b[i - |a|];
      }
    }
    if b == [] {
      assert a + b == a;
    } else {
      assert (a + b)[..|a + b| - 1] == a + b[..|b| - 1];
      assert (a + b)[|a + b| - 1] == b[|b| - 1];
      SampleablePrefix(b, |b| - 1);
      ConvertMeshesConcat(sample, a, b[..|b| - 1]);
    }
  }

  /** Meshes without faces contribute nothing: dropping them leaves the result unchanged. */
  lemma EmptyMeshAddsNothing(sample: FaceSampler, a: seq<(Mesh, GLMesh)>, empty: (Mesh, GLMesh), b: seq<(Mesh, GLMesh)>)
    requires AcceptsSampleable(sample) && MeshesSampleable(a) && MeshesSampleable(b)
    requires empty.0.faces == []
    ensures MeshesSampleable(a + [empty] + b) && MeshesSampleable(a + b)
    ensures ConvertMeshes(sample, a + [empty] + b) == ConvertMeshes(sample, a + b)
  {
    assert MeshesSampleable([empty]);
    assert ConvertMeshes(sample, [empty]) == [] by {
      assert [empty][..0] == [];
    }
    ConvertMeshesConcat(sample, a, [empty]);
    assert ConvertMeshes(sample, a + [empty]) == ConvertMeshes(sample, a);
    ConvertMeshesConcat(sample, a + [empty], b);
    ConvertMeshesConcat(sample, a, b);
  }

  /** The sum of |sample(face)| over a run of faces. */
  function FacesCount(sample: FaceSampler, faces: seq<Face>, material: MaterialGltf): nat
    requires AcceptsSampleable(sample) && material.Sampleable()
  {
    if faces == [] then 0
    else FacesCount(sample, faces[..|faces| - 1], material) + |sample(faces[|faces| - 1], material)|
  }

  /** The length of the converted run of faces is the sum of the per-face counts. */
  lemma {:induction false} FacesSplatsLength(sample: FaceSampler, faces: seq<Face>, material: MaterialGltf)
    requires AcceptsSampleable(sample) && material.Sampleable()
    ensures |FacesSplats(sample, faces, material)| == FacesCount(sample, faces, material)
  {
    if faces != [] {
      FacesSplatsLength(sample, faces[..|faces| - 1], material);
    }
  }

  /** If every face gives k splats, a run of faces gives k per face. */
  lemma {:induction false} UniformFacesCount(sample: FaceSampler, faces: seq<Face>, material: MaterialGltf, k: nat)
    requires AcceptsSampleable(sample) && material.Sampleable()
    requires forall i :: 0 <= i < |faces| ==> |sample(faces[i], material)| == k
    ensures FacesCount(sample, faces, material) == |faces| * k
  {
    if faces != [] {
      var front := faces[..|faces| - 1];
      forall i | 0 <= i < |front|
        ensures |sample(front[i], material)| == k
      {
        assert front[i] == faces[i];
      }
      UniformFacesCount(sample, front, material, k);
      assert (|faces| - 1) * k + k == |faces| * k;
    }
  }

  lemma Distribute(a: int, b: int, k: int)
    ensures a * k + b * k == (a + b) * k
  {
  }

  /** The number of faces over all meshes. */
  function TotalFaces(meshes: seq<(Mesh, GLMesh)>): nat {
    if meshes == [] then 0 else TotalFaces(meshes[..|meshes| - 1]) + |meshes[|meshes| - 1].0.faces|
  }

  /** The mesh's material can be sampled and `sample` makes k splats of each of its faces. */
  ghost predicate MeshUniform(sample: FaceSampler, entry: (Mesh, GLMesh), k: nat)
    requires AcceptsSampleable(sample)
  {
    && MeshSampleable(entry)
    && forall j :: 0 <= j < |entry.0.faces| ==> |sample(entry.0.faces[j], entry.0.material)| == k
  }

  /** `sample` makes k splats of every face of every mesh. */
  ghost predicate UniformOver(sample: FaceSampler, meshes: seq<(Mesh, GLMesh)>, k: nat)
    requires AcceptsSampleable(sample)
  {
    forall i :: 0 <= i < |meshes| ==> MeshUniform(sample, meshes[i], k)
  }

  /** With k splats per face, the converter makes k splats per face of every mesh. */
  lemma {:induction false} UniformMeshesCount(sample: FaceSampler, meshes: seq<(Mesh, GLMesh)>, k: nat)
    requires AcceptsSampleable(sample) && MeshesSampleable(meshes) && UniformOver(sample, meshes, k)
    ensures |ConvertMeshes(sample, meshes)| == TotalFaces(meshes) * k
  {
    if meshes != [] {
      var front := meshes[..|meshes| - 1];
      var last := meshes[|meshes| - 1];
      SampleablePrefix(meshes, |meshes| - 1);
      assert UniformOver(sample, front, k) by {
        forall i | 0 <= i < |front|
          ensures MeshUniform(sample, front[i], k)
        {
          assert front[i] == meshes[i];
        }
      }
      UniformMeshesCount(sample, front, k);
      assert MeshUniform(sample, last, k);
      if last.0.faces != [] {
        UniformFacesCount(sample, last.0.faces, last.0.material, k);
        FacesSplatsLength(sample, last.0.faces, last.0.material);
      }
      assert TotalFaces(meshes) == TotalFaces(front) + |last.0.faces|;
      Distribute(TotalFaces(front), |last.0.faces|, k);
    }
  }

  /** No triangle of any mesh is degenerate. */
  predicate MeshesNonDegenerate(ops: Ops, meshes: seq<(Mesh, GLMesh)>) {
    forall i, j :: 0 <= i < |meshes| && 0 <= j < |meshes[i].0.faces| ==>
      !Degenerate(ops, meshes[i].0.faces[j].pos.c0, meshes[i].0.faces[j].pos.c1, meshes[i].0.faces[j].pos.c2)
  }

  /** Without degenerate faces, the converter makes (m+1)(m+2)/2 splats per face of every mesh. */
  lemma ConvertMeshesCount(ops: Ops, meshes: seq<(Mesh, GLMesh)>, m: int, scaleFactor: real)
    requires MeshesSampleable(meshes) && MeshesNonDegenerate(ops, meshes) && m >= 1
    ensures |ConvertMeshes(TriangleSampler(ops, m, scaleFactor), meshes)| == TotalFaces(meshes) * ((m + 1) * (m + 2) / 2)
  {
    var sample := TriangleSampler(ops, m, scaleFactor);
    var k := (m + 1) * (m + 2) / 2;
    forall i | 0 <= i < |meshes|
      ensures MeshUniform(sample, meshes[i], k)
    {
      var mesh := meshes[i].0;
      assert MeshSampleable(meshes[i]);
      forall j | 0 <= j < |mesh.faces|
        ensures |sample(mesh.faces[j], mesh.material)| == k
      {
        var face := mesh.faces[j];
        SplatCount(ops, face.pos.c0, face.pos.c1, face.pos.c2, face, mesh.material, m, scaleFactor);
      }
    }
    UniformMeshesCount(sample, meshes, k);
  }

  /** The sampler gives nothing at resolution m <= 0. */
  lemma NoDensityNoSplats(ops: Ops, meshes: seq<(Mesh, GLMesh)>, m: int, scaleFactor: real)
    requires MeshesSampleable(meshes) && m <= 0
    ensures ConvertMeshes(TriangleSampler(ops, m, scaleFactor), meshes) == []
  {
    var sample := TriangleSampler(ops, m, scaleFactor);
    forall i | 0 <= i < |meshes|
      ensures MeshUniform(sample, meshes[i], 0)
    {
      assert MeshSampleable(meshes[i]);
    }
    UniformMeshesCount(sample, meshes, 0);
  }

  /** The renderer, of which the model keeps the context it owns. */
  class Renderer {
    var renderContext: RenderContext

    /** Renderer(...) : renderContext {}: a value-initialised context. */
    constructor ()
      ensures fresh(renderContext)
      ensures renderContext.dataMeshAndGlMesh == [] && renderContext.readGaussians == []
      ensures renderContext.totalSurfaceArea == 0.0
    {
      renderContext := new RenderContext();
    }

    /**
     * convertMeshToGaussiansCPU up to the upload: the previous splats are discarded and
     * replaced by those of every face of every mesh with faces, in mesh-then-face order.
     */
    method ConvertMeshToGaussiansCPU(ops: Ops, samplingDensity: int, scaleFactor: real)
      requires MeshesSampleable(renderContext.dataMeshAndGlMesh)
      modifies renderContext`readGaussians
      ensures renderContext.readGaussians
           == ConvertMeshes(TriangleSampler(ops, samplingDensity, scaleFactor), renderContext.dataMeshAndGlMesh)
    {
      ghost var sample := TriangleSampler(ops, samplingDensity, scaleFactor);
      var meshes := renderContext.dataMeshAndGlMesh;
      renderContext.readGaussians := [];
      var i := 0;
      while i < |meshes|
        invariant 0 <= i <= |meshes|
        invariant renderContext.dataMeshAndGlMesh == meshes
        invariant MeshesSampleable(meshes[..i])
        invariant renderContext.readGaussians == ConvertMeshes(sample, meshes[..i])
      {
        var mesh := meshes[i].0;
        assert MeshSampleable(meshes[i]);
        assert meshes[..i + 1][..i] == meshes[..i];
        SampleablePrefix(meshes, i + 1);
        if mesh.faces == [] {
          i := i + 1;
          continue;
        }
        AppendFaceSplats(ops, mesh, samplingDensity, scaleFactor);
        i := i + 1;
      }
      assert meshes[..i] == meshes;
    }

    /** The inner loop of convertMeshToGaussiansCPU: append the splats of each face of `mesh`, in order. */
    method AppendFaceSplats(ops: Ops, mesh: Mesh, samplingDensity: int, scaleFactor: real)
      requires mesh.material.Sampleable()
      modifies renderContext`readGaussians
      ensures renderContext.readGaussians
           == old(renderContext.readGaussians)
            + FacesSplats(TriangleSampler(ops, samplingDensity, scaleFactor), mesh.faces, mesh.material)
    {
      ghost var sample := TriangleSampler(ops, samplingDensity, scaleFactor);
      var j := 0;
      while j < |mesh.faces|
        invariant 0 <= j <= |mesh.faces|
        invariant renderContext.readGaussians == old(renderContext.readGaussians) + FacesSplats(sample, mesh.faces[..j], mesh.material)
      {
        AppendTriangle(ops, mesh.faces[j], mesh.material, samplingDensity, scaleFactor);
        FacesSplatsStep(sample, old(renderContext.readGaussians), mesh.faces, j, mesh.material);
        j := j + 1;
      }
      assert mesh.faces[..j] == mesh.faces;
    }

    /** One face of the inner loop: its splats are inserted at the end of the list. */
    method AppendTriangle(ops: Ops, face: Face, material: MaterialGltf, samplingDensity: int, scaleFactor: real)
      requires material.Sampleable()
      modifies renderContext`readGaussians
      ensures renderContext.readGaussians
           == old(renderContext.readGaussians) + TriangleSampler(ops, samplingDensity, scaleFactor)(face, material)
    {
      var triangleGaussians := SampleFace(ops, face, material, samplingDensity, scaleFactor);
      renderContext.readGaussians := renderContext.readGaussians + triangleGaussians;
    }
  }
}
