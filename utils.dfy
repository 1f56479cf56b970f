/**
 * The value types shared by the loader and the splat generators (utils.hpp): texture
 * descriptions, glTF materials, faces, meshes, the GPU-side splat record and the texture
 * upload record, with the defaults their constructors give.
 */
module Utils {
  import opened Glm

  /** The marker path of a texture slot that holds no texture. */
  const EMPTY_TEXTURE: string := "empty_texture"

  /** An `unsigned char` of a pixel buffer. */
  type Byte = b: int | 0 <= b < 256

  const TWO_POW_32: int := 0x1_0000_0000

  /** C++ conversion of an `int` to `unsigned int`: reduction modulo 2^32. */
  function ToUnsigned32(x: int): (r: nat)
    ensures r < TWO_POW_32
    ensures 0 <= x < TWO_POW_32 ==> r == x
    ensures (r - x) % TWO_POW_32 == 0
  {
    x % TWO_POW_32
  }

  /** A texture slot of a material: where it came from and its pixels, row-major, `channels` bytes each. */
  datatype TextureInfo = TextureInfo(
    path: string,
    texCoordIndex: int,
    texture: seq<Byte>,
    width: int,
    height: int,
    channels: nat)
  {
    /**
     * Sampling takes remainders by the width and the height, which C++ leaves undefined
     * for 0; a slot that is sampled past its two early exits must therefore have both.
     */
    predicate WellFormed() {
      path == EMPTY_TEXTURE || texture == [] || (width > 0 && height > 0)
    }
  }

  /** TextureInfo() with every default argument. */
  function DefaultTextureInfo(): (t: TextureInfo)
    ensures t.path == EMPTY_TEXTURE && t.texCoordIndex == 0 && t.texture == []
    ensures t.width == 0 && t.height == 0 && t.channels == 0
    ensures t.WellFormed()
  {
    TextureInfo(EMPTY_TEXTURE, 0, [], 0, 0, 0)
  }

  /** A glTF metallic-roughness material and its texture slots. */
  datatype MaterialGltf = MaterialGltf(
    name: string,
    baseColorFactor: Vec4,
    baseColorTexture: TextureInfo,
    normalTexture: TextureInfo,
    metallicRoughnessTexture: TextureInfo,
    occlusionTexture: TextureInfo,
    emissiveTexture: TextureInfo,
    metallicFactor: real,
    roughnessFactor: real,
    occlusionStrength: real,
    normalScale: real,
    emissiveFactor: Vec3)
  {
    /** The four slots the splat generator samples can all be sampled. */
    predicate Sampleable() {
      && baseColorTexture.WellFormed()
      && normalTexture.WellFormed()
      && metallicRoughnessTexture.WellFormed()
      && emissiveTexture.WellFormed()
    }
  }

  const White4 := Vec4(1.0, 1.0, 1.0, 1.0)
  const Ones3 := Vec3(1.0, 1.0, 1.0)

  /** MaterialGltf(): a white, fully metallic, fully rough material without textures. */
  function DefaultMaterialGltf(): (mat: MaterialGltf)
    ensures mat.name == "Default" && mat.baseColorFactor == White4
    ensures mat.baseColorTexture == DefaultTextureInfo() && mat.normalTexture == DefaultTextureInfo()
    ensures mat.metallicRoughnessTexture == DefaultTextureInfo()
    ensures mat.occlusionTexture == DefaultTextureInfo() && mat.emissiveTexture == DefaultTextureInfo()
    ensures mat.metallicFactor == 1.0 && mat.roughnessFactor == 1.0
    ensures mat.occlusionStrength == 1.0 && mat.normalScale == 1.0
    ensures mat.emissiveFactor == Ones3
    ensures mat.Sampleable()
  {
    var t := DefaultTextureInfo();
    MaterialGltf("Default", White4, t, t, t, t, t, 1.0, 1.0, 1.0, 1.0, Ones3)
  }

  /** MaterialGltf(name, baseColorFactor). */
  function NamedMaterialGltf(name: string, baseColorFactor: Vec4): (mat: MaterialGltf)
    ensures mat.Sampleable()
  {
    var t := DefaultTextureInfo();
    MaterialGltf(name, baseColorFactor, t, t, t, t, t, 1.0, 1.0, 1.0, 1.0, Ones3)
  }

  /** The two-argument constructor differs from the default one in the name and the base colour only. */
  lemma NamedMaterialIsDefaultElsewhere(name: string, baseColorFactor: Vec4)
    ensures NamedMaterialGltf(name, baseColorFactor)
         == DefaultMaterialGltf().(name := name, baseColorFactor := baseColorFactor)
  {
  }

  /** A splat as the CPU generator builds it (not used by the generator itself). */
  datatype Gaussian3D = Gaussian3D(
    position: Vec3,
    normal: Vec3,
    scale: Vec3,
    rotation: Vec4,
    sh0: Vec3,
    opacity: real,
    material: MaterialGltf)

  /** Gaussian3D(): everything zero, with the default material. */
  function DefaultGaussian3D(): (g: Gaussian3D)
    ensures g.position == Zero3 && g.normal == Zero3 && g.scale == Zero3 && g.sh0 == Zero3
    ensures g.rotation == Vec4(0.0, 0.0, 0.0, 0.0) && g.opacity == 0.0
    ensures g.material == DefaultMaterialGltf()
  {
    Gaussian3D(Zero3, Zero3, Zero3, Vec4(0.0, 0.0, 0.0, 0.0), Zero3, 0.0, DefaultMaterialGltf())
  }

  /** One splat as laid out in the GPU storage buffer: six vec4 in this order. */
  datatype GaussianDataSSBO = GaussianDataSSBO(
    position: Vec4,
    color: Vec4,
    scale: Vec4,
    normal: Vec4,
    rotation: Vec4,
    pbr: Vec4)

  const SSBO_FLOATS: nat := 24

  function Vec4Floats(v: Vec4): seq<real> { [v.x, v.y, v.z, v.w] }

  /** The 24 floats of one record as they sit in GPU memory. */
  function Flatten(g: GaussianDataSSBO): (s: seq<real>)
    ensures |s| == SSBO_FLOATS
    ensures s[0..4] == Vec4Floats(g.position) && s[4..8] == Vec4Floats(g.color)
    ensures s[8..12] == Vec4Floats(g.scale) && s[12..16] == Vec4Floats(g.normal)
    ensures s[16..20] == Vec4Floats(g.rotation) && s[20..24] == Vec4Floats(g.pbr)
  {
    Vec4Floats(g.position) + Vec4Floats(g.color) + Vec4Floats(g.scale)
      + Vec4Floats(g.normal) + Vec4Floats(g.rotation) + Vec4Floats(g.pbr)
  }

  function Vec4At(s: seq<real>, k: nat): Vec4
    requires k + 4 <= |s|
  {
    Vec4(s[k], s[k + 1], s[k + 2], s[k + 3])
  }

  /** Reads one record back from 24 floats of GPU memory. */
  function Unflatten(s: seq<real>): GaussianDataSSBO
    requires |s| == SSBO_FLOATS
  {
    GaussianDataSSBO(Vec4At(s, 0), Vec4At(s, 4), Vec4At(s, 8), Vec4At(s, 12), Vec4At(s, 16), Vec4At(s, 20))
  }

  lemma UnflattenFlatten(g: GaussianDataSSBO)
    ensures Unflatten(Flatten(g)) == g
  {
  }

  lemma FlattenUnflatten(s: seq<real>)
    requires |s| == SSBO_FLOATS
    ensures Flatten(Unflatten(s)) == s
  {
    assert Flatten(Unflatten(s)) == s[0..4] + s[4..8] + s[8..12] + s[12..16] + s[16..20] + s[20..24];
    assert s == s[0..4] + s[4..8] + s[8..12] + s[12..16] + s[16..20] + s[20..24];
  }

  /** The three corners of a face. */
  datatype Triple<T> = Triple(c0: T, c1: T, c2: T) {
    function At(e: nat): T
      requires e < 3
    {
      if e == 0 then c0 else if e == 1 then c1 else c2
    }
  }

  /** A triangle with its per-corner attributes. */
  datatype Face = Face(
    pos: Triple<Vec3>,
    uv: Triple<Vec2>,
    normalizedUvs: Triple<Vec2>,
    normal: Triple<Vec3>,
    tangent: Triple<Vec4>,
    scale: Vec3,
    rotation: Vec4)

  const Zero2 := Vec2(0.0, 0.0)
  const Zero4 := Vec4(0.0, 0.0, 0.0, 0.0)

  /** A value-initialised Face, as std::vector::resize creates it: every component 0. */
  const ZeroFace := Face(
    Triple(Zero3, Zero3, Zero3), Triple(Zero2, Zero2, Zero2), Triple(Zero2, Zero2, Zero2),
    Triple(Zero3, Zero3, Zero3), Triple(Zero4, Zero4, Zero4), Zero3, Zero4)

  datatype BBox = BBox(min: Vec3, max: Vec3)

  datatype Mesh = Mesh(name: string, faces: seq<Face>, material: MaterialGltf, surfaceArea: real, bbox: BBox)

  /** Mesh(name): no faces, the default material, no area and a zero box. */
  function NewMesh(name: string): (mesh: Mesh)
    ensures mesh.name == name && mesh.faces == [] && mesh.material == DefaultMaterialGltf()
    ensures mesh.surfaceArea == 0.0 && mesh.bbox == BBox(Zero3, Zero3)
  {
    Mesh(name, [], DefaultMaterialGltf(), 0.0, BBox(Zero3, Zero3))
  }

  /** Mesh() names the mesh "Unnamed". */
  function DefaultMesh(): (mesh: Mesh)
    ensures mesh.name == "Unnamed" && mesh.faces == []
  {
    NewMesh("Unnamed")
  }

  /** The GPU side of a mesh; of it the model keeps only the vertex count. */
  datatype GLMesh = GLMesh(vertexCount: nat)

  /** A texture ready for upload; every field is an `unsigned int`. */
  datatype TextureDataGl = TextureDataGl(
    textureData: seq<Byte>,
    channels: nat,
    glTextureID: nat,
    width: nat,
    height: nat)

  /** TextureDataGl(textureData, channels): no texture object yet and no size. */
  function UnsizedTextureDataGl(textureData: seq<Byte>, channels: nat): (t: TextureDataGl)
    ensures t.textureData == textureData && t.channels == channels
    ensures t.glTextureID == 0 && t.width == 0 && t.height == 0
  {
    TextureDataGl(textureData, channels, 0, 0, 0)
  }

  /** TextureDataGl(TextureInfo): copies pixels, channels and size; the `int` size becomes unsigned. */
  function TextureDataGlFromInfo(info: TextureInfo): (t: TextureDataGl)
    ensures t.textureData == info.texture && t.channels == info.channels
    ensures t.glTextureID == 0
    ensures 0 <= info.width < TWO_POW_32 ==> t.width == info.width
    ensures 0 <= info.height < TWO_POW_32 ==> t.height == info.height
  {
    TextureDataGl(info.texture, info.channels, 0, ToUnsigned32(info.width), ToUnsigned32(info.height))
  }

  /** A texture description within 32-bit limits survives the conversion to an upload record. */
  lemma TextureDataGlKeepsInfo(info: TextureInfo)
    requires 0 <= info.width < TWO_POW_32 && 0 <= info.height < TWO_POW_32
    ensures var t := TextureDataGlFromInfo(info);
      t == TextureDataGl(info.texture, info.channels, 0, info.width, info.height)
  {
  }

  /** A negative width, which no image has, wraps around to a width of 2^32 - 1. */
  lemma TextureDataGlWrapsNegativeWidth(info: TextureInfo)
    requires info.width == -1
    ensures TextureDataGlFromInfo(info).width == TWO_POW_32 - 1
  {
  }
}
