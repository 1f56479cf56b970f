/**
 * The slice of the renderer's shared RenderContext that the CPU conversion path reads and
 * writes: the loaded meshes with their GPU handles, the generated splats and the running
 * total of surface area. The scene manager holds a reference to the same context object.
 */
module Context {
  import opened Utils

  class RenderContext {
    /** dataMeshAndGlMesh: each loaded mesh next to its GPU-side mesh. */
    var dataMeshAndGlMesh: seq<(Mesh, GLMesh)>
    /** readGaussians: the splats the CPU converter produced last. */
    var readGaussians: seq<GaussianDataSSBO>
    /** totalSurfaceArea: the area summed over every mesh set up so far. */
    var totalSurfaceArea: real

    /** `renderContext {}`: value-initialised, so empty and zero. */
    constructor ()
      ensures dataMeshAndGlMesh == [] && readGaussians == [] && totalSurfaceArea == 0.0
    {
      dataMeshAndGlMesh := [];
      readGaussians := [];
      totalSurfaceArea := 0.0;
    }
  }
}
