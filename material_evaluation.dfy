/**
 * computeMaterialPropertiesAtUV (renderer.cpp): the glTF 2.0 metallic-roughness material
 * evaluated at one UV. Base colour is the texel times the factor, component by component;
 * metallic is the blue and roughness the green channel of the metallic-roughness texel
 * (section 3.9.2 of the glTF 2.0 specification) times their factors; a normal-map texel is
 * decoded from [0, 1] to [-1, 1] and scaled; emissive is the texel's RGB times the factor.
 */
module MaterialEvaluation {
  import opened Glm
  import opened Utils
  import opened TextureSampling

  /** The four out-parameters of computeMaterialPropertiesAtUV. */
  datatype MaterialSample = MaterialSample(color: Vec4, metallicRoughness: Vec2, normal: Vec3, emissive: Vec3)

  /** The tangent-space normal used when a material has no normal map. */
  const FlatNormal := Vec3(0.0, 0.0, 1.0)

  /** A normal-map texel, each channel in [0, 1], as a vector in [-1, 1]: 2c - 1. */
  function DecodeNormal(c: Vec3): Vec3 {
    Vec3(c.x * 2.0 - 1.0, c.y * 2.0 - 1.0, c.z * 2.0 - 1.0)
  }

  /** The encoding a normal map uses: (n + 1) / 2. */
  function EncodeNormal(n: Vec3): Vec3 {
    Vec3((n.x + 1.0) / 2.0, (n.y + 1.0) / 2.0, (n.z + 1.0) / 2.0)
  }

  lemma NormalCodingRoundTrips(c: Vec3, n: Vec3)
    ensures EncodeNormal(DecodeNormal(c)) == c
    ensures DecodeNormal(EncodeNormal(n)) == n
  {
  }

  /** Texel channels in [0, 1] decode to components in [-1, 1]. */
  lemma DecodedNormalInRange(c: Vec3)
    requires 0.0 <= c.x <= 1.0 && 0.0 <= c.y <= 1.0 && 0.0 <= c.z <= 1.0
    ensures var n := DecodeNormal(c);
      -1.0 <= n.x <= 1.0 && -1.0 <= n.y <= 1.0 && -1.0 <= n.z <= 1.0
  {
  }

  /** Metallic from the blue and roughness from the green channel of a texel, each times its factor. */
  function MetallicRoughnessOf(texel: Vec4, mat: MaterialGltf): Vec2 {
    Vec2(texel.z * mat.metallicFactor, texel.y * mat.roughnessFactor)
  }

  /** computeMaterialPropertiesAtUV. */
  function ComputeMaterialPropertiesAtUV(mat: MaterialGltf, uv: Vec2): MaterialSample
    requires mat.Sampleable()
  {
    var baseColor := SampleTextureAtUV(mat.baseColorTexture, uv);
    var metallicRoughnessTexel := SampleTextureAtUV(mat.metallicRoughnessTexture, uv);
    var normalTexel := SampleTextureAtUV(mat.normalTexture, uv);
    var normal :=
      if mat.normalTexture.path != EMPTY_TEXTURE then Scale3(mat.normalScale, DecodeNormal(Xyz(normalTexel)))
      else FlatNormal;
    var emissiveTexel := SampleTextureAtUV(mat.emissiveTexture, uv);
    MaterialSample(
      Mul4(baseColor, mat.baseColorFactor),
      MetallicRoughnessOf(metallicRoughnessTexel, mat),
      normal,
      Mul3(Xyz(emissiveTexel), mat.emissiveFactor))
  }

  /** The emissive factor and texture feed only the emissive output. */
  lemma EmissiveFeedsOnlyEmissive(mat: MaterialGltf, uv: Vec2, factor: Vec3, texture: TextureInfo)
    requires mat.Sampleable() && texture.WellFormed()
    ensures var other := mat.(emissiveFactor := factor, emissiveTexture := texture);
      && other.Sampleable()
      && var s1 := ComputeMaterialPropertiesAtUV(mat, uv);
         var s2 := ComputeMaterialPropertiesAtUV(other, uv);
         s1.color == s2.color && s1.metallicRoughness == s2.metallicRoughness && s1.normal == s2.normal
  {
    var other := mat.(emissiveFactor := factor, emissiveTexture := texture);
    assert other.baseColorTexture == mat.baseColorTexture && other.baseColorFactor == mat.baseColorFactor;
    assert other.metallicRoughnessTexture == mat.metallicRoughnessTexture;
    assert MetallicRoughnessOf(SampleTextureAtUV(other.metallicRoughnessTexture, uv), other)
        == MetallicRoughnessOf(SampleTextureAtUV(mat.metallicRoughnessTexture, uv), mat);
    assert other.normalTexture == mat.normalTexture && other.normalScale == mat.normalScale;
  }

  /** Without textures a material evaluates to its factors, with the flat normal. */
  lemma UntexturedMaterialGivesFactors(mat: MaterialGltf, uv: Vec2)
    requires mat.baseColorTexture.path == EMPTY_TEXTURE && mat.metallicRoughnessTexture.path == EMPTY_TEXTURE
    requires mat.normalTexture.path == EMPTY_TEXTURE && mat.emissiveTexture.path == EMPTY_TEXTURE
    ensures mat.Sampleable()
    ensures ComputeMaterialPropertiesAtUV(mat, uv)
         == MaterialSample(mat.baseColorFactor, Vec2(mat.metallicFactor, mat.roughnessFactor), FlatNormal, mat.emissiveFactor)
  {
  }

  /** The default material is opaque white, fully metallic and fully rough, flat and fully emissive. */
  lemma DefaultMaterialSample(uv: Vec2)
    ensures ComputeMaterialPropertiesAtUV(DefaultMaterialGltf(), uv)
         == MaterialSample(White4, Vec2(1.0, 1.0), FlatNormal, Ones3)
  {
    UntexturedMaterialGivesFactors(DefaultMaterialGltf(), uv);
  }

  /**
   * Metallic comes from the third (blue) byte and roughness from the second (green) byte of
   * the metallic-roughness pixel; the first (red, occlusion) byte is not read.
   */
  lemma MetallicBlueRoughnessGreen(mat: MaterialGltf, uv: Vec2)
    requires mat.Sampleable()
    requires var t := mat.metallicRoughnessTexture;
      && t.path != EMPTY_TEXTURE && t.texture != [] && t.channels >= 3
      && PixelIndex(t, PixelCoord(uv.x, t.width), PixelCoord(uv.y, t.height)) + t.channels <= |t.texture|
    ensures var t := mat.metallicRoughnessTexture;
      var index := PixelIndex(t, PixelCoord(uv.x, t.width), PixelCoord(uv.y, t.height));
      var s := ComputeMaterialPropertiesAtUV(mat, uv);
      && 0 <= index && index + 2 < |t.texture|
      && s.metallicRoughness.x == Channel(t.texture[index + 2]) * mat.metallicFactor
      && s.metallicRoughness.y == Channel(t.texture[index + 1]) * mat.roughnessFactor
  {
    ReadablePixelDecodes(mat.metallicRoughnessTexture, uv);
  }

  /**
   * The normal is decoded and scaled exactly when the slot names a texture; a named slot
   * whose pixels are missing samples white, so its normal is (1, 1, 1) times the scale.
   */
  lemma NormalFollowsSlotPath(mat: MaterialGltf, uv: Vec2)
    requires mat.Sampleable()
    ensures var s := ComputeMaterialPropertiesAtUV(mat, uv);
      && (mat.normalTexture.path == EMPTY_TEXTURE ==> s.normal == FlatNormal)
      && (mat.normalTexture.path != EMPTY_TEXTURE ==>
            s.normal == Scale3(mat.normalScale, DecodeNormal(Xyz(SampleTextureAtUV(mat.normalTexture, uv)))))
      && (mat.normalTexture.path != EMPTY_TEXTURE && mat.normalTexture.texture == [] ==>
            s.normal == Vec3(mat.normalScale, mat.normalScale, mat.normalScale))
  {
    if mat.normalTexture.path != EMPTY_TEXTURE && mat.normalTexture.texture == [] {
      assert DecodeNormal(Xyz(White4)) == Ones3;
    }
  }

  predicate Unit3(v: Vec3) { 0.0 <= v.x <= 1.0 && 0.0 <= v.y <= 1.0 && 0.0 <= v.z <= 1.0 }
  predicate Unit4(v: Vec4) { 0.0 <= v.x <= 1.0 && 0.0 <= v.y <= 1.0 && 0.0 <= v.z <= 1.0 && 0.0 <= v.w <= 1.0 }

  lemma UnitMul3(a: Vec3, b: Vec3)
    requires Unit3(a) && Unit3(b)
    ensures Unit3(Mul3(a, b))
  {
    UnitProduct(a.x, b.x);
    UnitProduct(a.y, b.y);
    UnitProduct(a.z, b.z);
  }

  lemma UnitMul4(a: Vec4, b: Vec4)
    requires Unit4(a) && Unit4(b)
    ensures Unit4(Mul4(a, b))
  {
    UnitProduct(a.x, b.x);
    UnitProduct(a.y, b.y);
    UnitProduct(a.z, b.z);
    UnitProduct(a.w, b.w);
  }

  /** A base-colour factor in [0, 1] keeps the colour, alpha included, in [0, 1]. */
  lemma UnitBaseColorFactorGivesUnitColor(mat: MaterialGltf, uv: Vec2)
    requires mat.Sampleable() && Unit4(mat.baseColorFactor)
    ensures Unit4(ComputeMaterialPropertiesAtUV(mat, uv).color)
  {
    var b := SampleTextureAtUV(mat.baseColorTexture, uv);
    assert ComputeMaterialPropertiesAtUV(mat, uv).color == Mul4(b, mat.baseColorFactor);
    UnitMul4(b, mat.baseColorFactor);
  }

  predicate Unit2(v: Vec2) { 0.0 <= v.x <= 1.0 && 0.0 <= v.y <= 1.0 }

  lemma UnitMetallicRoughnessOf(texel: Vec4, mat: MaterialGltf)
    requires Unit4(texel) && Unit2(Vec2(mat.metallicFactor, mat.roughnessFactor))
    ensures Unit2(MetallicRoughnessOf(texel, mat))
  {
    UnitProduct(texel.z, mat.metallicFactor);
    UnitProduct(texel.y, mat.roughnessFactor);
  }

  /** Metallic and roughness factors in [0, 1] keep metallic and roughness in [0, 1]. */
  lemma UnitFactorsGiveUnitMetallicRoughness(mat: MaterialGltf, uv: Vec2)
    requires mat.Sampleable() && Unit2(Vec2(mat.metallicFactor, mat.roughnessFactor))
    ensures Unit2(ComputeMaterialPropertiesAtUV(mat, uv).metallicRoughness)
  {
    UnitMetallicRoughnessOf(SampleTextureAtUV(mat.metallicRoughnessTexture, uv), mat);
  }

  /** An emissive factor in [0, 1] keeps the emissive colour in [0, 1]. */
  lemma UnitEmissiveFactorGivesUnitEmissive(mat: MaterialGltf, uv: Vec2)
    requires mat.Sampleable() && Unit3(mat.emissiveFactor)
    ensures Unit3(ComputeMaterialPropertiesAtUV(mat, uv).emissive)
  {
    var t := SampleTextureAtUV(mat.emissiveTexture, uv);
    assert ComputeMaterialPropertiesAtUV(mat, uv).emissive == Mul3(Xyz(t), mat.emissiveFactor);
    UnitMul3(Xyz(t), mat.emissiveFactor);
  }
}
