/**
 * The pure parts of the glTF loader (SceneManager.cpp): reading a material and its
 * texture slots out of an already-parsed glTF document, choosing the vertex attribute
 * streams of a primitive, and assembling faces from the index buffer.
 *
 * The document is reduced to the fields the loader reads. Buffer decoding, image decoding
 * and the file itself belong to the glTF library and are not modelled.
 */
module GltfLoading {
  import opened Wrappers
  import opened Glm
  import opened Utils
  import TextureSampling

  /** A tinygltf::Parameter: its numeric JSON members and its number array. */
  datatype Parameter = Parameter(jsonDoubleValue: map<string, real>, numberArray: seq<real>)

  datatype GltfTexture = GltfTexture(source: int)

  /** A decoded image: `component` is the channel count the library reports. */
  datatype GltfImage = GltfImage(name: string, mimeType: string, width: int, height: int, component: int, image: seq<Byte>)

  /**
   * A tinygltf::Material: `values` holds the pbrMetallicRoughness members and
   * `additionalValues` the normal, occlusion and emissive textures.
   */
  datatype GltfMaterial = GltfMaterial(
    name: string,
    values: map<string, Parameter>,
    additionalValues: map<string, Parameter>,
    metallicFactor: real,
    roughnessFactor: real)

  datatype GltfModel = GltfModel(textures: seq<GltfTexture>, images: seq<GltfImage>, materials: seq<GltfMaterial>)

  // ---------------------------------------------------------------------------
  // parseGltfTextureInfo
  // ---------------------------------------------------------------------------

  /**
   * The image copy of parseGltfTextureInfo. The path built from the folder, the image name
   * and the MIME type is overwritten a few lines later by the slot name, so only the slot
   * name survives. The channel count is stored as `unsigned int`.
   */
  function CopyImage(image: GltfImage, name: string, info: TextureInfo): (r: TextureInfo)
    ensures r.path == name && r.texture == image.image
    ensures r.width == image.width && r.height == image.height
    ensures 0 <= image.component < TWO_POW_32 ==> r.channels == image.component
    ensures r.texCoordIndex == info.texCoordIndex
  {
    info.(path := name, width := image.width, height := image.height, texture := image.image,
          channels := ToUnsigned32(image.component))
  }

  /** The texture index a parameter names, if it has an "index" member. */
  function TextureIndex(param: Parameter): Option<int> {
    if "index" in param.jsonDoubleValue then Some(TextureSampling.Trunc(param.jsonDoubleValue["index"])) else None
  }

  /** parseGltfTextureInfo: `info` after reading the texture slot that `param` describes. */
  function ParseGltfTextureInfo(model: GltfModel, param: Parameter, name: string, info: TextureInfo): TextureInfo {
    var index := TextureIndex(param);
    if index.None? || !(0 <= index.value < |model.textures|) then info
    else
      var source := model.textures[index.value].source;
      var copied := if 0 <= source < |model.images| then CopyImage(model.images[source], name, info) else info;
      var texCoord :=
        if "texCoord" in param.jsonDoubleValue then TextureSampling.Trunc(param.jsonDoubleValue["texCoord"]) else 0;
      copied.(texCoordIndex := texCoord)
  }

  /** Without an "index" member, or with one outside the texture list, the slot is left as it was. */
  lemma UnknownTextureLeavesSlot(model: GltfModel, param: Parameter, name: string, info: TextureInfo)
    requires TextureIndex(param).None? || !(0 <= TextureIndex(param).value < |model.textures|)
    ensures ParseGltfTextureInfo(model, param, name, info) == info
  {
  }

  /**
   * A known texture whose image exists fills the slot from the image, names it after the
   * slot, and takes the "texCoord" member as its coordinate set, 0 when there is none.
   */
  lemma KnownTextureCopiesImage(model: GltfModel, param: Parameter, name: string, info: TextureInfo)
    requires TextureIndex(param).Some? && 0 <= TextureIndex(param).value < |model.textures|
    requires var source := model.textures[TextureIndex(param).value].source; 0 <= source < |model.images|
    ensures var r := ParseGltfTextureInfo(model, param, name, info);
      var image := model.images[model.textures[TextureIndex(param).value].source];
      && r.path == name && r.texture == image.image
      && r.width == image.width && r.height == image.height
      && r.channels == ToUnsigned32(image.component)
      && ("texCoord" !in param.jsonDoubleValue ==> r.texCoordIndex == 0)
      && ("texCoord" in param.jsonDoubleValue ==>
            r.texCoordIndex == TextureSampling.Trunc(param.jsonDoubleValue["texCoord"]))
  {
  }

  /**
   * A known texture whose image index is out of range changes only the coordinate set, which
   * is read as for an existing image.
   */
  lemma MissingImageKeepsPixels(model: GltfModel, param: Parameter, name: string, info: TextureInfo)
    requires TextureIndex(param).Some? && 0 <= TextureIndex(param).value < |model.textures|
    requires var source := model.textures[TextureIndex(param).value].source; !(0 <= source < |model.images|)
    ensures var r := ParseGltfTextureInfo(model, param, name, info);
      && r == info.(texCoordIndex := r.texCoordIndex)
      && ("texCoord" !in param.jsonDoubleValue ==> r.texCoordIndex == 0)
      && ("texCoord" in param.jsonDoubleValue ==>
            r.texCoordIndex == TextureSampling.Trunc(param.jsonDoubleValue["texCoord"]))
  {
  }

  /** Every image that has pixels has a positive size (what a decoder reports). */
  predicate ImagesSized(model: GltfModel) {
    forall i :: 0 <= i < |model.images| ==> ImageSized(model.images[i])
  }

  predicate ImageSized(image: GltfImage) {
    image.image != [] ==> image.width > 0 && image.height > 0
  }

  /** Reading a slot from a document of sized images keeps the slot samplable. */
  lemma ParsedTextureWellFormed(model: GltfModel, param: Parameter, name: string, info: TextureInfo)
    requires ImagesSized(model) && info.WellFormed()
    ensures ParseGltfTextureInfo(model, param, name, info).WellFormed()
  {
    var index := TextureIndex(param);
    if index.Some? && 0 <= index.value < |model.textures| {
      var source := model.textures[index.value].source;
      if 0 <= source < |model.images| {
        assert ImageSized(model.images[source]);
      }
    }
  }

  // ---------------------------------------------------------------------------
  // parseGltfMaterial
  // ---------------------------------------------------------------------------

  /**
   * The document supplies the factor arrays the loader indexes unchecked: three numbers at
   * least for the base colour, whose fourth defaults to 1, and three for the emissive factor.
   */
  predicate FactorsComplete(material: GltfMaterial) {
    && ("baseColorFactor" in material.values ==> |material.values["baseColorFactor"].numberArray| >= 3)
    && ("emissiveFactor" in material.values ==> |material.values["emissiveFactor"].numberArray| >= 3)
  }

  /** tinygltf's Parameter::ColorFactor: the first four numbers, with alpha 1 when only three are given. */
  function ColorFactor(c: seq<real>): (r: Vec4)
    requires |c| >= 3
    ensures r.x == c[0] && r.y == c[1] && r.z == c[2]
    ensures |c| == 3 ==> r.w == 1.0
    ensures |c| >= 4 ==> r.w == c[3]
  {
    Vec4(c[0], c[1], c[2], if |c| > 3 then c[3] else 1.0)
  }

  /** The material that parseGltfMaterial reads, if the index names one, has complete factor arrays. */
  predicate MaterialComplete(model: GltfModel, materialIndex: int) {
    0 <= materialIndex < |model.materials| ==> FactorsComplete(model.materials[materialIndex])
  }

  /** A texture slot that the material does not list keeps its contents under the empty path. */
  function Cleared(info: TextureInfo): (r: TextureInfo)
    ensures r.path == EMPTY_TEXTURE && r.WellFormed()
  {
    info.(path := EMPTY_TEXTURE)
  }

  /** The slot named `key` of `params` read into `info`, or `absent` when the key is missing. */
  function SlotOrElse(model: GltfModel, params: map<string, Parameter>, key: string, info: TextureInfo, absent: TextureInfo): TextureInfo {
    if key in params then ParseGltfTextureInfo(model, params[key], key, info) else absent
  }

  /** A numeric member of a parameter, or 1 when it is missing (normal scale, occlusion strength). */
  function MemberOrOne(param: Parameter, key: string): real {
    if key in param.jsonDoubleValue then param.jsonDoubleValue[key] else 1.0
  }

  /**
   * parseGltfMaterial: `mat` after reading material `materialIndex`. An index outside the
   * material list leaves `mat` as it is. Otherwise the name and the two scalar factors are
   * taken from the document, the colour factors when present, and each texture slot is read
   * when listed; the base colour, normal, occlusion and emissive slots are marked empty when
   * not listed, the metallic-roughness slot is then left as it was.
   */
  function ParseGltfMaterial(model: GltfModel, materialIndex: int, mat: MaterialGltf): MaterialGltf
    requires MaterialComplete(model, materialIndex)
  {
    if materialIndex < 0 || materialIndex >= |model.materials| then mat
    else
      var material := model.materials[materialIndex];
      assert FactorsComplete(material);
      var values := material.values;
      var extra := material.additionalValues;
      var baseColorFactor :=
        if "baseColorFactor" in values then
          ColorFactor(values["baseColorFactor"].numberArray)
        else mat.baseColorFactor;
      var emissiveFactor :=
        if "emissiveFactor" in values then
          var c := values["emissiveFactor"].numberArray;
          Vec3(c[0], c[1], c[2])
        else mat.emissiveFactor;
      var normalScale := if "normalTexture" in extra then MemberOrOne(extra["normalTexture"], "scale") else mat.normalScale;
      var occlusionStrength :=
        if "occlusionTexture" in extra then MemberOrOne(extra["occlusionTexture"], "strength") else mat.occlusionStrength;
      mat.(
        name := material.name,
        baseColorFactor := baseColorFactor,
        baseColorTexture :=
          SlotOrElse(model, values, "baseColorTexture", mat.baseColorTexture, Cleared(mat.baseColorTexture)),
        normalTexture := SlotOrElse(model, extra, "normalTexture", mat.normalTexture, Cleared(mat.normalTexture)),
        normalScale := normalScale,
        metallicRoughnessTexture :=
          SlotOrElse(model, values, "metallicRoughnessTexture", mat.metallicRoughnessTexture, mat.metallicRoughnessTexture),
        occlusionTexture :=
          SlotOrElse(model, extra, "occlusionTexture", mat.occlusionTexture, Cleared(mat.occlusionTexture)),
        occlusionStrength := occlusionStrength,
        emissiveTexture := SlotOrElse(model, extra, "emissiveTexture", mat.emissiveTexture, Cleared(mat.emissiveTexture)),
        emissiveFactor := emissiveFactor,
        metallicFactor := material.metallicFactor,
        roughnessFactor := material.roughnessFactor)
  }

  /** An index outside the material list leaves the material untouched. */
  lemma OutOfRangeMaterialIsUntouched(model: GltfModel, materialIndex: int, mat: MaterialGltf)
    requires materialIndex < 0 || materialIndex >= |model.materials|
    ensures ParseGltfMaterial(model, materialIndex, mat) == mat
  {
  }

  /** The name and the metallic and roughness factors always come from the document. */
  lemma NameAndFactorsFromDocument(model: GltfModel, materialIndex: int, mat: MaterialGltf)
    requires MaterialComplete(model, materialIndex) && 0 <= materialIndex < |model.materials|
    ensures var r := ParseGltfMaterial(model, materialIndex, mat);
      var material := model.materials[materialIndex];
      && r.name == material.name
      && r.metallicFactor == material.metallicFactor
      && r.roughnessFactor == material.roughnessFactor
  {
  }

  /** The colour factors are read from their number arrays when present and kept otherwise. */
  lemma ColorFactorsRead(model: GltfModel, materialIndex: int, mat: MaterialGltf)
    requires MaterialComplete(model, materialIndex) && 0 <= materialIndex < |model.materials|
    ensures var r := ParseGltfMaterial(model, materialIndex, mat);
      var values := model.materials[materialIndex].values;
      && ("baseColorFactor" !in values ==> r.baseColorFactor == mat.baseColorFactor)
      && ("baseColorFactor" in values ==>
            var c := values["baseColorFactor"].numberArray;
            |c| >= 3 && r.baseColorFactor == ColorFactor(c))
      && ("emissiveFactor" !in values ==> r.emissiveFactor == mat.emissiveFactor)
      && ("emissiveFactor" in values ==>
            var c := values["emissiveFactor"].numberArray;
            |c| >= 3 && r.emissiveFactor == Vec3(c[0], c[1], c[2]))
  {
    assert FactorsComplete(model.materials[materialIndex]);
  }

  /**
   * An unlisted base colour, normal, occlusion or emissive texture is marked empty; an
   * unlisted metallic-roughness texture is kept as it was.
   */
  lemma AbsentTexturesAreEmpty(model: GltfModel, materialIndex: int, mat: MaterialGltf)
    requires MaterialComplete(model, materialIndex) && 0 <= materialIndex < |model.materials|
    ensures var r := ParseGltfMaterial(model, materialIndex, mat);
      var material := model.materials[materialIndex];
      && ("baseColorTexture" !in material.values ==> r.baseColorTexture.path == EMPTY_TEXTURE)
      && ("normalTexture" !in material.additionalValues ==> r.normalTexture.path == EMPTY_TEXTURE)
      && ("occlusionTexture" !in material.additionalValues ==> r.occlusionTexture.path == EMPTY_TEXTURE)
      && ("emissiveTexture" !in material.additionalValues ==> r.emissiveTexture.path == EMPTY_TEXTURE)
      && ("metallicRoughnessTexture" !in material.values ==> r.metallicRoughnessTexture == mat.metallicRoughnessTexture)
  {
  }

  /**
   * The normal scale and the occlusion strength are 1 when their texture is listed without
   * the member, the member's value when it is given, and unchanged without the texture.
   */
  lemma ScaleAndStrengthDefaults(model: GltfModel, materialIndex: int, mat: MaterialGltf)
    requires MaterialComplete(model, materialIndex) && 0 <= materialIndex < |model.materials|
    ensures var r := ParseGltfMaterial(model, materialIndex, mat);
      var extra := model.materials[materialIndex].additionalValues;
      && ("normalTexture" !in extra ==> r.normalScale == mat.normalScale)
      && ("normalTexture" in extra && "scale" !in extra["normalTexture"].jsonDoubleValue ==> r.normalScale == 1.0)
      && ("normalTexture" in extra && "scale" in extra["normalTexture"].jsonDoubleValue ==>
            r.normalScale == extra["normalTexture"].jsonDoubleValue["scale"])
      && ("occlusionTexture" !in extra ==> r.occlusionStrength == mat.occlusionStrength)
      && ("occlusionTexture" in extra && "strength" !in extra["occlusionTexture"].jsonDoubleValue ==>
            r.occlusionStrength == 1.0)
      && ("occlusionTexture" in extra && "strength" in extra["occlusionTexture"].jsonDoubleValue ==>
            r.occlusionStrength == extra["occlusionTexture"].jsonDoubleValue["strength"])
  {
  }

  /** A listed texture slot is read under its own key, which becomes its path when the image exists. */
  lemma ListedTextureIsNamedAfterSlot(model: GltfModel, materialIndex: int, mat: MaterialGltf)
    requires MaterialComplete(model, materialIndex) && 0 <= materialIndex < |model.materials|
    requires "baseColorTexture" in model.materials[materialIndex].values
    ensures var param := model.materials[materialIndex].values["baseColorTexture"];
      ParseGltfMaterial(model, materialIndex, mat).baseColorTexture
        == ParseGltfTextureInfo(model, param, "baseColorTexture", mat.baseColorTexture)
  {
  }

  /**
   * A material read from a document of sized images can be sampled when the material it
   * was read into could: in particular a fresh mesh's default material.
   */
  lemma ParsedMaterialSampleable(model: GltfModel, materialIndex: int, mat: MaterialGltf)
    requires MaterialComplete(model, materialIndex) && ImagesSized(model) && mat.Sampleable()
    ensures ParseGltfMaterial(model, materialIndex, mat).Sampleable()
  {
    if 0 <= materialIndex < |model.materials| {
      var material := model.materials[materialIndex];
      SlotWellFormed(model, material.values, "baseColorTexture", mat.baseColorTexture, Cleared(mat.baseColorTexture));
      SlotWellFormed(model, material.additionalValues, "normalTexture", mat.normalTexture, Cleared(mat.normalTexture));
      SlotWellFormed(model, material.values, "metallicRoughnessTexture", mat.metallicRoughnessTexture, mat.metallicRoughnessTexture);
      SlotWellFormed(model, material.additionalValues, "emissiveTexture", mat.emissiveTexture, Cleared(mat.emissiveTexture));
    }
  }

  lemma SlotWellFormed(model: GltfModel, params: map<string, Parameter>, key: string, info: TextureInfo, absent: TextureInfo)
    requires ImagesSized(model) && info.WellFormed() && absent.WellFormed()
    ensures SlotOrElse(model, params, key, info, absent).WellFormed()
  {
    if key in params {
      ParsedTextureWellFormed(model, params[key], key, info);
    }
  }

  // ---------------------------------------------------------------------------
  // Attribute streams of a primitive
  // ---------------------------------------------------------------------------

  /** The attribute accessors a primitive lists, already decoded. */
  datatype Attributes = Attributes(
    position: Option<seq<Vec3>>,
    normal: Option<seq<Vec3>>,
    texcoord0: Option<seq<Vec2>>,
    tangent: Option<seq<Vec4>>)

  /** The streams the face assembly reads; an absent one is not copied. */
  datatype Streams = Streams(
    vertices: seq<Vec3>,
    normals: Option<seq<Vec3>>,
    uvs: Option<seq<Vec2>>,
    tangents: Option<seq<Vec4>>)

  /**
   * The attribute lookups of parseGltfFile. POSITION is looked up with `at`, which throws
   * when it is missing. Normals are read under the TEXCOORD_0 test, again with `at`: a
   * primitive with TEXCOORD_0 and no NORMAL throws, and one with NORMAL and no TEXCOORD_0
   * gets no normals.
   */
  function SelectStreams(attributes: Attributes): (r: Result<Streams, string>)
    ensures r.Err? <==> attributes.position.None? || (attributes.texcoord0.Some? && attributes.normal.None?)
    ensures r.Ok? ==> r.value.vertices == attributes.position.value
    ensures r.Ok? ==> (r.value.normals.Some? <==> attributes.texcoord0.Some?)
    ensures r.Ok? && r.value.normals.Some? ==> r.value.normals == attributes.normal
    ensures r.Ok? ==> r.value.uvs == attributes.texcoord0 && r.value.tangents == attributes.tangent
  {
    if attributes.position.None? then Err("POSITION")
    else if attributes.texcoord0.Some? && attributes.normal.None? then Err("NORMAL")
    else
      var normals := if attributes.texcoord0.Some? then attributes.normal else None;
      Ok(Streams(attributes.position.value, normals, attributes.texcoord0, attributes.tangent))
  }

  /** Normals without texture coordinates are dropped. */
  lemma NormalsNeedTexcoords(positions: seq<Vec3>, normals: seq<Vec3>, tangent: Option<seq<Vec4>>)
    ensures SelectStreams(Attributes(Some(positions), Some(normals), None, tangent))
         == Ok(Streams(positions, None, None, tangent))
  {
  }

  // ---------------------------------------------------------------------------
  // Face assembly
  // ---------------------------------------------------------------------------

  /** The threshold below which the UV determinant is replaced by 1. */
  const DET_EPS: real := 0.00000001

  /** The UV determinant the tangent divides by: 1 in place of one too close to zero. */
  function SafeDet(det: real): (d: real)
    ensures d != 0.0
    ensures Abs(det) >= DET_EPS ==> d == det
    ensures Abs(det) < DET_EPS ==> d == 1.0
  {
    if Abs(det) < DET_EPS then 1.0 else det
  }

  /**
   * The tangent computed for a face without a TANGENT stream: the UV-gradient tangent and
   * bitangent, both normalised, and the handedness, -1 when (N x T) . B is negative and +1
   * otherwise, as the fourth component.
   */
  function ComputedTangent(ops: Ops, pos: Triple<Vec3>, uv: Triple<Vec2>): (t: Vec4)
    ensures t.w == 1.0 || t.w == -1.0
  {
    var dp1 := Sub3(pos.c1, pos.c0);
    var dp2 := Sub3(pos.c2, pos.c0);
    var duv1 := Sub2(uv.c1, uv.c0);
    var duv2 := Sub2(uv.c2, uv.c0);
    var invDet := 1.0 / SafeDet(duv1.x * duv2.y - duv1.y * duv2.x);
    var tangent := ops.Normalize3(Scale3(invDet, Sub3(Scale3(duv2.y, dp1), Scale3(duv1.y, dp2))));
    var bitangent := ops.Normalize3(Scale3(invDet, Sub3(Scale3(duv1.x, dp2), Scale3(duv2.x, dp1))));
    var normal := ops.Normalize3(Cross(dp1, dp2));
    var handedness := if Dot3(Cross(normal, tangent), bitangent) < 0.0 then -1.0 else 1.0;
    Extend(tangent, handedness)
  }

  const ZeroUvs := Triple(Zero2, Zero2, Zero2)

  /**
   * Without texture coordinates the determinant is 0 and replaced by 1, the tangent
   * direction is `Normalize3` of the zero vector (NaN in C++; NaN is not modelled) and the
   * handedness is +1.
   */
  lemma NoUvsGiveZeroTangentDirection(ops: Ops, pos: Triple<Vec3>)
    ensures var t := ComputedTangent(ops, pos, ZeroUvs);
      Xyz(t) == ops.Normalize3(Zero3) && t.w == 1.0
  {
    var dp1 := Sub3(pos.c1, pos.c0);
    var dp2 := Sub3(pos.c2, pos.c0);
    assert Sub2(Zero2, Zero2) == Zero2;
    assert SafeDet(0.0) == 1.0;
    assert Scale3(0.0, dp1) == Zero3 && Scale3(0.0, dp2) == Zero3;
    assert Sub3(Zero3, Zero3) == Zero3 && Scale3(1.0, Zero3) == Zero3;
    var z := ops.Normalize3(Zero3);
    assert z == Zero3;
    assert Cross(ops.Normalize3(Cross(dp1, dp2)), z) == Zero3;
  }

  /** With the unit UV frame (0,0), (1,0), (0,1) the tangent runs along the first edge. */
  lemma UnitUvFrameTangentFollowsFirstEdge(ops: Ops, pos: Triple<Vec3>)
    ensures var t := ComputedTangent(ops, pos, Triple(Zero2, Vec2(1.0, 0.0), Vec2(0.0, 1.0)));
      Xyz(t) == ops.Normalize3(Sub3(pos.c1, pos.c0))
  {
    var dp1 := Sub3(pos.c1, pos.c0);
    var dp2 := Sub3(pos.c2, pos.c0);
    assert SafeDet(1.0) == 1.0;
    assert Scale3(1.0, dp1) == dp1;
    assert Scale3(0.0, dp2) == Zero3;
    assert Sub3(dp1, Zero3) == dp1;
  }

  /** The three entries of `data` at the corner indices. */
  function Corners<T>(data: seq<T>, i0: nat, i1: nat, i2: nat): (t: Triple<T>)
    requires i0 < |data| && i1 < |data| && i2 < |data|
    ensures t.At(0) == data[i0] && t.At(1) == data[i1] && t.At(2) == data[i2]
  {
    Triple(data[i0], data[i1], data[i2])
  }

  /** Every index addresses a vertex of every stream that is present. */
  predicate IndicesFit(s: Streams, indices: seq<nat>) {
    forall k :: 0 <= k < |indices| ==> IndexFits(s, indices[k])
  }

  predicate IndexFits(s: Streams, index: nat) {
    && index < |s.vertices|
    && (s.normals.Some? ==> index < |s.normals.value|)
    && (s.uvs.Some? ==> index < |s.uvs.value|)
    && (s.tangents.Some? ==> index < |s.tangents.value|)
  }

  /**
   * Face `f` of the index buffer: its corners read the streams at indices 3f, 3f+1 and
   * 3f+2; UVs and normals stay zero when their stream is absent, and the tangent is either
   * read per corner or computed once from the face and shared by its three corners.
   */
  function FaceAt(ops: Ops, s: Streams, indices: seq<nat>, f: nat): Face
    requires IndicesFit(s, indices) && 3 * f + 2 < |indices|
  {
    var i0 := indices[3 * f];
    var i1 := indices[3 * f + 1];
    var i2 := indices[3 * f + 2];
    assert IndexFits(s, i0) && IndexFits(s, i1) && IndexFits(s, i2);
    var pos := Corners(s.vertices, i0, i1, i2);
    var uv := if s.uvs.Some? then Corners(s.uvs.value, i0, i1, i2) else ZeroUvs;
    var normal := if s.normals.Some? then Corners(s.normals.value, i0, i1, i2) else ZeroFace.normal;
    var tangent :=
      if s.tangents.Some? then Corners(s.tangents.value, i0, i1, i2)
      else
        var t := ComputedTangent(ops, pos, uv);
        Triple(t, t, t);
    ZeroFace.(pos := pos, uv := uv, normal := normal, tangent := tangent)
  }

  /** The faces of a primitive, one per index triple. */
  function AssembledFaces(ops: Ops, s: Streams, indices: seq<nat>): (faces: seq<Face>)
    requires IndicesFit(s, indices)
    ensures |faces| == |indices| / 3
  {
    seq(|indices| / 3, (f: int) requires 0 <= f < |indices| / 3 => FaceAt(ops, s, indices, f))
  }

  /**
   * The face-assembly loop of parseGltfFile: the face list is sized to a third of the
   * index count, then one face is written per index triple.
   */
  method AssembleFaces(ops: Ops, s: Streams, indices: seq<nat>) returns (faces: seq<Face>)
    requires |indices| % 3 == 0 && IndicesFit(s, indices)
    ensures faces == AssembledFaces(ops, s, indices)
  {
    var count := |indices| / 3;
    var dst := new Face[count](_ => ZeroFace);
    var i := 0;
    var f := 0;
    while i < |indices|
      invariant 0 <= f <= count && i == 3 * f
      invariant forall k :: 0 <= k < f ==> dst[k] == FaceAt(ops, s, indices, k)
    {
      dst[f] := FaceAt(ops, s, indices, f);
      i := i + 3;
      f := f + 1;
    }
    faces := dst[..];
  }

  /** Corner e of face f holds the position, and the UV and normal when present, of vertex indices[3f + e]. */
  lemma CornerTakesIndexedVertex(ops: Ops, s: Streams, indices: seq<nat>, f: nat, e: nat)
    requires IndicesFit(s, indices) && f < |indices| / 3 && e < 3
    ensures var face := AssembledFaces(ops, s, indices)[f];
      var index := indices[3 * f + e];
      && index < |s.vertices| && face.pos.At(e) == s.vertices[index]
      && (s.uvs.Some? ==> index < |s.uvs.value| && face.uv.At(e) == s.uvs.value[index])
      && (s.uvs.None? ==> face.uv.At(e) == Zero2)
      && (s.normals.Some? ==> index < |s.normals.value| && face.normal.At(e) == s.normals.value[index])
      && (s.normals.None? ==> face.normal.At(e) == Zero3)
  {
    assert IndexFits(s, indices[3 * f + e]);
  }

  /**
   * With a TANGENT stream each corner reads its own tangent; without one the three corners
   * share one computed tangent whose handedness is -1 or +1.
   */
  lemma TangentsPerCornerOrShared(ops: Ops, s: Streams, indices: seq<nat>, f: nat)
    requires IndicesFit(s, indices) && f < |indices| / 3
    ensures var face := AssembledFaces(ops, s, indices)[f];
      && (s.tangents.Some? ==>
            forall e :: 0 <= e < 3 ==>
              (indices[3 * f + e] < |s.tangents.value| && face.tangent.At(e) == s.tangents.value[indices[3 * f + e]]))
      && (s.tangents.None? ==>
            && face.tangent.c0 == face.tangent.c1 == face.tangent.c2
            && (face.tangent.c0.w == 1.0 || face.tangent.c0.w == -1.0))
  {
    assert IndexFits(s, indices[3 * f]) && IndexFits(s, indices[3 * f + 1]) && IndexFits(s, indices[3 * f + 2]);
  }

  /** The face record's per-face fields stay zero: assembly leaves scale, rotation and normalised UVs alone. */
  lemma AssemblyLeavesPerFaceFieldsZero(ops: Ops, s: Streams, indices: seq<nat>, f: nat)
    requires IndicesFit(s, indices) && f < |indices| / 3
    ensures var face := AssembledFaces(ops, s, indices)[f];
      face.scale == Zero3 && face.rotation == Zero4 && face.normalizedUvs == ZeroUvs
  {
  }
}
