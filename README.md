# mesh2splat: the CPU mesh-to-splat path, modelled and verified in Dafny

mesh2splat turns triangle meshes loaded from glTF files into 3D Gaussian splats. This
project models the CPU side of that conversion:

- the glTF loader's pure steps: reading materials and their texture slots, choosing the
  vertex attribute streams, assembling faces from the index buffer and computing a
  fallback tangent;
- the scene manager's vertex packing, surface-area accumulation and running bounding box;
- the texture sampler and the glTF 2.0 metallic-roughness material evaluator;
- the renderer's triangle sampler, which walks a triangular barycentric lattice of
  resolution m and emits one GPU splat record per lattice point;
- the mesh converter, which concatenates the splats of every face of every mesh;
- the earlier stand-alone CPU sampler and its basis-to-quaternion conversion;
- the value types and their constructors, and the small utilities the path uses
  (file-extension classification, spherical-harmonics stubs, triangle area).

Numbers are exact `real`s. The floating-point routines that the code takes from glm and
the C library (`sqrt`, `inversesqrt`, and therefore `length` and `normalize`, and
`quat_cast`) are the fields of a value `Glm.Ops` passed to every member that needs them.
`Ops.Valid()` states the few facts the proofs use: the square root of a non-negative
number is non-negative, and positive for a positive number, `sqrt(0) = 0`, `sqrt(1) = 1`
and `inversesqrt(1) = 1`. Nothing is assumed about the square root of a negative number,
which is NaN in C; every argument the model passes is a squared length or `t + 1` with
`t > 0`, and `Glm.DotSelfNonNegative` proves a squared length non-negative. C++ conversions are
written out: `static_cast<int>` of a float truncates toward zero (`TextureSampling.Trunc`),
`%` on `int` keeps the sign of the dividend (`TextureSampling.CRem`), and an `int` stored
in an `unsigned int` is reduced modulo 2^32 (`Utils.ToUnsigned32`).

Modules, by source file:

| module | file | models |
|---|---|---|
| `Wrappers` | wrappers.dfy | `Option` / `Result` |
| `Glm` | glm.dfy | vectors, 3x3 matrices, quaternions, `Ops` |
| `Utils` | utils.dfy | the value types of `src/utils/utils.hpp` and their constructors |
| `UtilsSimplified` | utils_simplified.dfy | `src/utils/utils_simplified.cpp` |
| `TextureSampling` | texture_sampling.dfy | `sampleTextureAtUV` |
| `MaterialEvaluation` | material_evaluation.dfy | `computeMaterialPropertiesAtUV` |
| `Lattice` | lattice.dfy | the barycentric lattice both samplers walk |
| `TriangleSampling` | triangle_sampling.dfy | `sampleTriangleCPU_Internal` |
| `CpuSampler` | cpu_sampler.dfy | `src/cpu_sampler.hpp` |
| `Context` | render_context.dfy | the render context the renderer and the scene manager share |
| `MeshConversion` | mesh_conversion.dfy | `Renderer::convertMeshToGaussiansCPU` |
| `GltfLoading` | gltf_loading.dfy | `parseGltfTextureInfo`, `parseGltfMaterial`, face assembly in `parseGltfFile` |
| `MeshBuffers` | mesh_buffers.dfy | `SceneManager::setupMeshBuffers` without OpenGL |

The loops of the source are methods with loop invariants, each proved equal to a
specification function that is defined once. The triangle sampler and the earlier sampler
are proved against `TriangleSplats` and `CpuSplats`. The mesh converter is proved against
`ConvertMeshes`, face assembly against `AssembledFaces`, and vertex packing and the bounding
box against `PackFaces`, `GrowFaces` and `Entries`. The properties the source promises are
lemmas about these functions. The render context is a class whose fields the converter and
the scene manager update in place, and the meshes that `setupMeshBuffers` updates are an
`array`.

Where the code and the project documentation disagree, the model follows the code, except
in the three cases listed under "## Findings" below. There the sampler models take the
corrected behaviour (`Degenerate`, the m <= 0 guard of `CpuSplats`, `CorrectedBasisToQuat`),
and the members that the Findings table names keep the code as written. Two cases where the
model follows the code:

- The default material is fully metallic (`metallicFactor` 1, utils.hpp:119), not a
  non-metal.
- In a 2x2 checkerboard, UVs (0.25, 0.25) and (0.75, 0.75) land on the two diagonal pixels,
  which have the same colour (`TextureSampling.CheckerboardDiagonal`).

## Model

| member | source | states |
|---|---|---|
| Utils.ToUnsigned32 | src/utils/utils.hpp:97 | the stored value is below 2^32, equals the input when it is already in range, and is congruent to it modulo 2^32 |
| Utils.DefaultTextureInfo | src/utils/utils.hpp:99 | the default slot has path EMPTY_TEXTURE, coordinate set 0, no pixels, width, height and channels 0, and is well formed |
| Utils.DefaultMaterialGltf | src/utils/utils.hpp:116-119 | name "Default", white base colour, five default texture slots, metallic, roughness, occlusion strength and normal scale 1, emissive (1,1,1), and it can be sampled |
| Utils.NamedMaterialGltf | src/utils/utils.hpp:121-125 | the two-argument material can be sampled |
| Utils.NamedMaterialIsDefaultElsewhere | src/utils/utils.hpp:116-125 | the two-argument material is the default material with only the name and the base colour replaced |
| Utils.DefaultGaussian3D | src/utils/utils.hpp:140 | every vector and the opacity are zero, and the material is the default one |
| Utils.Flatten | src/utils/utils.hpp:150-157 | a record is 24 floats: position, color, scale, normal, rotation and pbr, four each, in that order |
| Utils.UnflattenFlatten | src/utils/utils.hpp:150-157 | reading back the 24 floats of a record gives the record |
| Utils.FlattenUnflatten | src/utils/utils.hpp:150-157 | any 24 floats are the layout of the record read from them |
| Utils.NewMesh | src/utils/utils.hpp:179-186 | a new mesh keeps its name and has no faces, the default material, area 0 and the zero box |
| Utils.DefaultMesh | src/utils/utils.hpp:186 | the default mesh is named "Unnamed" and has no faces |
| Utils.UnsizedTextureDataGl | src/utils/utils.hpp:197-204 | the two-argument upload record keeps pixels and channels, with texture object 0 and size 0 |
| Utils.TextureDataGlFromInfo | src/utils/utils.hpp:206-213 | the upload record keeps pixels and channels, has texture object 0, and keeps width and height when they fit an `unsigned int` |
| Utils.TextureDataGlKeepsInfo | src/utils/utils.hpp:206-213 | a texture within 32-bit limits converts to exactly its pixels, channels, width and height |
| Utils.TextureDataGlWrapsNegativeWidth | src/utils/utils.hpp:199-211 | a width of -1 is stored as 2^32 - 1 |
| UtilsSimplified.ShRoundTrips | src/utils/utils_simplified.cpp:12-22 | colour to coefficients and back is the identity, in both directions |
| UtilsSimplified.GetShFromColor | src/utils/utils_simplified.cpp:12-16 | colour to coefficients, the identity for now; `ShRoundTrips` states it is inverted by `GetColorFromSh` |
| UtilsSimplified.GetColorFromSh | src/utils/utils_simplified.cpp:18-22 | coefficients to colour, the identity for now; `ShRoundTrips` states it is inverted by `GetShFromColor` |
| UtilsSimplified.ToLowerChar | src/utils/utils_simplified.cpp:31 | an upper-case ASCII letter becomes its lower-case letter, 32 code points higher; every other character is unchanged |
| UtilsSimplified.ToLower | src/utils/utils_simplified.cpp:31 | the lower-cased string has the same length and lower-cases each character in place |
| UtilsSimplified.LastDot | src/utils/utils_simplified.cpp:27-28 | None exactly when there is no '.', otherwise the position of a '.' with no '.' after it |
| UtilsSimplified.GetFileExtension | src/utils/utils_simplified.cpp:24-37 | the result is "ply", "glb" or "none" |
| UtilsSimplified.NoDotMeansNone | src/utils/utils_simplified.cpp:25-28 | an empty name or a name without '.' gives "none" |
| UtilsSimplified.LastDotUnique | src/utils/utils_simplified.cpp:27 | a '.' with no '.' after it is the one found |
| UtilsSimplified.ExtensionCharacterised | src/utils/utils_simplified.cpp:24-37 | the result is "ply" (or "glb") exactly when the text after the last '.', lower-cased, is that word |
| UtilsSimplified.ExtensionAtLastDot | src/utils/utils_simplified.cpp:24-37 | given the last dot, the name is "ply" or "glb" exactly when the lower-cased text after that dot is, and "none" otherwise |
| UtilsSimplified.ExtensionFound | src/utils/utils_simplified.cpp:24-37 | an answer "ply" or "glb" means that is the lower-cased text after the last dot |
| UtilsSimplified.ExtensionRecognised | src/utils/utils_simplified.cpp:24-37 | a lower-cased "ply" or "glb" after the last dot is the answer |
| UtilsSimplified.ExtensionAfterLastDot | src/utils/utils_simplified.cpp:27-36 | a name ending in '.' and a dot-free extension is classified by that extension, lower-cased, alone |
| UtilsSimplified.LastDotDecides | src/utils/utils_simplified.cpp:27-36 | any name ending in ".glb.PLY" gives "ply": only the last dot counts |
| UtilsSimplified.UpperCaseExtensionRecognised | src/utils/utils_simplified.cpp:31-34 | any name ending in ".GLB" gives "glb": the comparison ignores case |
| UtilsSimplified.OtherLastExtensionIsNone | src/utils/utils_simplified.cpp:27-36 | any name ending in ".ply.zip" gives "none" |
| UtilsSimplified.ShortArgumentHasNoArea | src/utils/utils_simplified.cpp:40-42 | an argument with fewer than 3 components gives area 0 |
| UtilsSimplified.TriangleArea | src/utils/utils_simplified.cpp:39-52 | half the length of the cross product of the two edges from A, or 0 for a short argument; its promises are `ShortArgumentHasNoArea`, `AreaNonNegative` and `CoincidentCornersHaveNoArea` |
| UtilsSimplified.AreaNonNegative | src/utils/utils_simplified.cpp:44-51 | the area is never negative |
| UtilsSimplified.CoincidentCornersHaveNoArea | src/utils/utils_simplified.cpp:44-51 | two coincident corners give area 0 |
| Glm.Clamp01 | src/renderer/renderer.cpp:187-188 | the clamped value is in [0, 1] and equals the input when that is already in [0, 1] |
| Glm.MatVecThirdAxis | src/renderer/renderer.cpp:176-179 | a matrix with columns (T, B, N) sends (0, 0, 1) to N |
| Glm.DotSelfNonNegative | src/renderer/renderer.cpp:100-129 | a squared length is never negative, so every square root the model takes has a non-negative argument |
| Glm.LengthNonNegative | src/renderer/renderer.cpp:120-129 | glm::length under `Ops.Valid()` is never negative |
| TextureSampling.Trunc | src/renderer/renderer.cpp:27-28 | `static_cast<int>` truncates toward zero: the integer part of a non-negative value, the ceiling of a negative one |
| TextureSampling.CRem | src/renderer/renderer.cpp:27-28 | the C++ remainder has the sign of the dividend, magnitude below the divisor's, and magnitude equal to the magnitudes' Euclidean remainder |
| TextureSampling.PixelCoord | src/renderer/renderer.cpp:27-32 | the pixel coordinate is always within [0, size - 1] |
| TextureSampling.Channel | src/renderer/renderer.cpp:37-45 | a byte over 255 lies in [0, 1] |
| TextureSampling.SampleTextureAtUV | src/renderer/renderer.cpp:11-47 | every component of the sampled colour is in [0, 1] |
| TextureSampling.MissingTextureIsWhite | src/renderer/renderer.cpp:12-20 | an empty path or an empty buffer samples as (1,1,1,1) whatever the UV |
| TextureSampling.DefaultTextureIsWhite | src/renderer/renderer.cpp:12-14 | the default slot samples as (1,1,1,1) |
| TextureSampling.NonNegativeCoordWraps | src/renderer/renderer.cpp:27-32 | a non-negative coordinate maps to floor(coord * size) mod size |
| TextureSampling.NegativeCoordClampsToZero | src/renderer/renderer.cpp:27-32 | a negative coordinate truncates toward zero, leaves a non-positive remainder and clamps to 0 |
| TextureSampling.UnreadablePixelIsWhite | src/renderer/renderer.cpp:34-36 | a pixel whose bytes leave the buffer, or fewer than 3 channels, gives (1,1,1,1) |
| TextureSampling.ReadablePixelDecodes | src/renderer/renderer.cpp:34-46 | otherwise R, G and B are bytes index..index+2 over 255, and A is byte index+3 over 255 with 4 or more channels and 1 otherwise |
| TextureSampling.CheckerboardCoords | src/renderer/renderer.cpp:27-32 | on a 2-pixel axis, 0.25 maps to 0, 0.75 to 1 and -0.25 to 0 |
| TextureSampling.CheckerboardBlackCorner | src/renderer/renderer.cpp:11-47 | UV (0.25, 0.25) reads pixel (0, 0) of the checkerboard |
| TextureSampling.CheckerboardWhiteNeighbour | src/renderer/renderer.cpp:11-47 | UV (0.75, 0.25) reads pixel (1, 0) |
| TextureSampling.CheckerboardDiagonal | src/renderer/renderer.cpp:11-47 | UV (0.75, 0.75) reads pixel (1, 1), the same colour as (0, 0) |
| TextureSampling.CheckerboardNegativeU | src/renderer/renderer.cpp:27-46 | UV (-0.25, 0.75) clamps to column 0 and reads pixel (0, 1) |
| MaterialEvaluation.NormalCodingRoundTrips | src/renderer/renderer.cpp:70-80 | decoding 2c - 1 and encoding (n + 1) / 2 are inverse in both directions |
| MaterialEvaluation.DecodedNormalInRange | src/renderer/renderer.cpp:70-80 | texels in [0, 1] decode to components in [-1, 1] |
| MaterialEvaluation.ComputeMaterialPropertiesAtUV | src/renderer/renderer.cpp:50-85 | the four material outputs at a UV: colour, metallic-roughness, normal and emissive; its promises are the lemmas of this module, from `UntexturedMaterialGivesFactors` to `UnitEmissiveFactorGivesUnitEmissive` |
| MaterialEvaluation.UntexturedMaterialGivesFactors | src/renderer/renderer.cpp:50-85 | without textures the colour, metallic, roughness and emissive are the factors, and the normal is (0, 0, 1) |
| MaterialEvaluation.DefaultMaterialSample | src/renderer/renderer.cpp:50-85 | the default material evaluates to white, metallic 1, roughness 1, flat normal and emissive (1,1,1) |
| MaterialEvaluation.MetallicBlueRoughnessGreen | src/renderer/renderer.cpp:64-67 | metallic is the third (blue) byte and roughness the second (green) byte of the pixel, each times its factor |
| MaterialEvaluation.NormalFollowsSlotPath | src/renderer/renderer.cpp:70-80 | the normal is the decoded texel times the normal scale when the slot names a texture, (0,0,1) otherwise, and the scale times (1,1,1) when the named slot has no pixels |
| MaterialEvaluation.EmissiveFeedsOnlyEmissive | src/renderer/renderer.cpp:54-84 | replacing the emissive factor and texture keeps the material sampleable and leaves colour, metallic-roughness and normal unchanged |
| MaterialEvaluation.UnitBaseColorFactorGivesUnitColor | src/renderer/renderer.cpp:55-56 | a base-colour factor in [0, 1] keeps all four colour components in [0, 1] |
| MaterialEvaluation.UnitFactorsGiveUnitMetallicRoughness | src/renderer/renderer.cpp:64-67 | factors in [0, 1] keep metallic and roughness in [0, 1] |
| MaterialEvaluation.UnitMetallicRoughnessOf | src/renderer/renderer.cpp:64-67 | a texel in [0, 1] times factors in [0, 1] gives metallic and roughness in [0, 1] |
| MaterialEvaluation.UnitEmissiveFactorGivesUnitEmissive | src/renderer/renderer.cpp:83-84 | an emissive factor in [0, 1] keeps the emissive colour in [0, 1] |
| Lattice.Row | src/renderer/renderer.cpp:133 | the inner loop for one u visits v = 0 .. m - u, in order |
| Lattice.RowsBelowLength | src/renderer/renderer.cpp:131-137 | the rows before u hold u(2m + 3 - u)/2 points |
| Lattice.GridLength | src/renderer/renderer.cpp:96 | the lattice has (m+1)(m+2)/2 points, the count the sampler reserves |
| Lattice.RowsBelowMembers | src/renderer/renderer.cpp:131-137 | the rows before u hold exactly the triangle's points with a smaller u |
| Lattice.GridMembers | src/renderer/renderer.cpp:131-137 | the lattice holds exactly the points with u, v >= 0 and u + v <= m |
| Lattice.RowsBelowPrefix | src/renderer/renderer.cpp:131-137 | the points visited before row u are a prefix of those visited before any later row |
| Lattice.GridAt | src/renderer/renderer.cpp:131-137 | point (u, v) is visited at position Offset(u) + v |
| Lattice.MapPoints | src/renderer/renderer.cpp:131-226 | one result per visited point, result i computed from point i alone |
| Lattice.MapPointsSnoc | src/renderer/renderer.cpp:224 | visiting one more point appends its result after the earlier ones |
| Lattice.WalkLattice | src/renderer/renderer.cpp:131-226 | the nested u/v loops push the result of every lattice point, in visiting order, and nothing else |
| Lattice.RowsBelowSorted | src/renderer/renderer.cpp:131-137 | the rows before u are visited in strictly increasing (u, v) order |
| Lattice.GridSorted | src/renderer/renderer.cpp:131-137 | the whole lattice is visited u-major and then v ascending, without repeats |
| Lattice.GridCorners | src/renderer/renderer.cpp:131-137 | the first point is (0,0), point m is (0,m) and the last is (m,0) |
| Lattice.BarycentricWeights | src/renderer/renderer.cpp:135-137 | fu + fv + fw = 1, fu * m = u and fv * m = v |
| Lattice.WeightsConvex | src/renderer/renderer.cpp:135-137 | inside the triangle all three weights are in [0, 1] |
| Lattice.CornerWeights | src/renderer/renderer.cpp:135-140 | the corner points have the unit weights of p0, p1 and p2 |
| TriangleSampling.TangentBasis | src/renderer/renderer.cpp:98-118 | the frame's third column is the normalised face normal |
| TriangleSampling.BasisFollowsFirstEdge | src/renderer/renderer.cpp:108-114 | without the helper-axis fallback, X is the normalised first edge |
| TriangleSampling.SplatScale | src/renderer/renderer.cpp:125-129 | the scale is (s, s, 1e-7) with s >= 1e-7 |
| TriangleSampling.InPlaneScaleIsMeanExtent | src/renderer/renderer.cpp:120-129 | s is the mean of su and sv when that exceeds 1e-7, and 1e-7 otherwise |
| TriangleSampling.InPlaneScale | src/renderer/renderer.cpp:120-129 | the mean of the two in-plane extents times the scale factor, floored at 1e-7; `InPlaneScaleIsMeanExtent` and `SplatScale` state it |
| TriangleSampling.SetupOf | src/renderer/renderer.cpp:98-129 | the per-triangle constants keep the corners, face, material and resolution the sampler was given |
| TriangleSampling.ComputeSetup | src/renderer/renderer.cpp:98-129 | the statements before the loops compute exactly the per-triangle constants `SetupOf` |
| TriangleSampling.InterpolateCorners | src/renderer/renderer.cpp:140 | the unit weights of each corner interpolate to that corner |
| TriangleSampling.FlatMapNormalKeepsVertexNormal | src/renderer/renderer.cpp:174-180 | the flat map normal (0,0,1) gives the normalised vertex normal |
| TriangleSampling.ShadingNormal | src/renderer/renderer.cpp:174-180 | a map normal longer than 0.1 is taken to world space by (T, (n x T) w, n) and normalised, otherwise the vertex normal is kept; `FlatMapNormalKeepsVertexNormal` and `SplatNormalWithoutNormalMap` state it |
| TriangleSampling.Splat | src/renderer/renderer.cpp:196-211 | a record has position w 1, normal w 0, the triangle's scale padded with 0, the rotation as (w, x, y, z), RGB in [0,1] and pbr z and w zero |
| TriangleSampling.SplatTakesMaterial | src/renderer/renderer.cpp:168-204 | RGB is the clamped material colour, alpha the unclamped material alpha, and pbr is (metallic, roughness, 0, 0) |
| TriangleSampling.SplatPosition | src/renderer/renderer.cpp:140 | the record sits at fw p0 + fu p1 + fv p2 |
| TriangleSampling.EmissiveIsIgnored | src/renderer/renderer.cpp:182-185 | changing the emissive factor or texture changes no record |
| TriangleSampling.SplatDependsOnSample | src/renderer/renderer.cpp:159-211 | a record depends on the material only through its sampled colour, metallic-roughness and normal |
| TriangleSampling.SplatNormalWithoutNormalMap | src/renderer/renderer.cpp:143-180 | without a normal map the record's normal is the renormalised interpolated vertex normal |
| TriangleSampling.Emit | src/renderer/renderer.cpp:131-226 | one record per visited point, record i for point i |
| TriangleSampling.SampleTriangleCPUInternal | src/renderer/renderer.cpp:87-228 | the nested loops return exactly `TriangleSplats`: nothing for m <= 0 or a degenerate triangle, else the records of the lattice in visiting order |
| TriangleSampling.TriangleSplats | src/renderer/renderer.cpp:87-228 | nothing for m <= 0 or a degenerate triangle, else one record per lattice point; `SplatCount`, `SplatOrder`, `SplatCorners`, `SplatsShareFrame` and `SplatRecordShape` state its promises |
| TriangleSampling.Degenerate | src/renderer/renderer.cpp:100-105 | the corrected degenerate test: the un-normalised cross product of the edges is shorter than 1e-6; `CollinearTriangleIsDegenerate` and `CoincidentCornersGiveNoSplats` state it |
| TriangleSampling.NoResolutionNoSplats | src/renderer/renderer.cpp:94 | m <= 0 gives no records |
| TriangleSampling.CoincidentCornersGiveNoSplats | src/renderer/renderer.cpp:98-105 | two coincident corners make the triangle degenerate, and it gives no records |
| TriangleSampling.SplatCount | src/renderer/renderer.cpp:96-137 | a sampled triangle gives exactly (m+1)(m+2)/2 records |
| TriangleSampling.SplatOrder | src/renderer/renderer.cpp:131-224 | record Offset(u) + v is the record of lattice point (u, v) |
| TriangleSampling.SplatCorners | src/renderer/renderer.cpp:131-140 | the first record sits on p0, record m on p2 and the last on p1 |
| TriangleSampling.SplatsShareFrame | src/renderer/renderer.cpp:117-129 | every record of a triangle has scale (s, s, 1e-7, 0) with s >= 1e-7 and the same rotation (w, x, y, z) |
| TriangleSampling.SplatRecordShape | src/renderer/renderer.cpp:196-211 | every record has position w 1, normal w 0, scale w 0, RGB in [0, 1] and pbr z and w zero |
| TriangleSampling.GuardAsWrittenNeverFires | src/renderer/renderer.cpp:100-105 | the degenerate test as written never rejects a triangle whose squared cross product is finite |
| TriangleSampling.CollinearCrossVanishes | src/renderer/renderer.cpp:98-100 | the collinear example has a zero cross product |
| TriangleSampling.CollinearTriangleIsDegenerate | src/renderer/renderer.cpp:100-105 | the corrected test rejects the collinear example |
| TriangleSampling.CollinearTrianglePassesGuardAsWritten | src/renderer/renderer.cpp:100-105 | the test as written lets the collinear example through |
| CpuSampler.BasisToQuat | src/cpu_sampler.hpp:15-32 | a trace <= 0 gives the identity quaternion, and a positive trace gives w > 0 |
| CpuSampler.BasisToQuatConjugatesStandard | src/cpu_sampler.hpp:20-27 | with a positive trace the result is the conjugate of the usual matrix-to-quaternion formula |
| CpuSampler.TransposedComponent | src/cpu_sampler.hpp:20-27 | with a positive trace, the transposed basis keeps w and negates each vector component |
| CpuSampler.TransposeConjugates | src/cpu_sampler.hpp:20-27 | with a positive trace, the transposed basis gives the conjugate quaternion |
| CpuSampler.SymmetricBasisHasNoAxis | src/cpu_sampler.hpp:20-27 | a symmetric basis with positive trace gives a zero vector part |
| CpuSampler.QuarterTurnComesOutReversed | src/cpu_sampler.hpp:20-27 | a quarter turn about z gives a negative z component |
| CpuSampler.TurnAboutZAsWritten | src/cpu_sampler.hpp:20-27 | any turn about z off the half turn comes out without x and y parts and with a z part of the opposite sign to the sine |
| CpuSampler.CorrectedBasisToQuat | src/cpu_sampler.hpp:15-32 | the conversion with the usual trace-branch formula: the identity for a trace <= 0, and w > 0 for a positive trace |
| CpuSampler.CorrectedConjugatesAsWritten | src/cpu_sampler.hpp:15-32 | the corrected quaternion is the conjugate of the one as written, for every basis |
| CpuSampler.CorrectedTurnAboutZ | src/cpu_sampler.hpp:20-27 | any turn about z off the half turn gives no x and y parts and a z part of the sign of the sine, as the rotation about +z does |
| CpuSampler.CpuSetupOf | src/cpu_sampler.hpp:43-56 | the per-triangle constants keep the corners and the resolution; the quaternion is the corrected one of `CorrectedBasisToQuat` |
| CpuSampler.CpuSplat | src/cpu_sampler.hpp:62-72 | a record has position w 1, the triangle's scale and normal padded with 0, and the quaternion as (x, y, z, w) |
| CpuSampler.CpuPositionMatchesRenderer | src/cpu_sampler.hpp:62-69 | the record sits where the renderer's sampler puts the same lattice point |
| CpuSampler.CpuEmit | src/cpu_sampler.hpp:58-75 | one record per visited point, record i for point i |
| CpuSampler.SampleTriangleCpu | src/cpu_sampler.hpp:34-77 | the nested loops return exactly `CpuSplats`, with the m <= 0 guard and the quaternion of the two findings corrected |
| CpuSampler.CpuSplats | src/cpu_sampler.hpp:34-77 | nothing for m <= 0, else one record per lattice point; `CpuSplatCount`, `CpuSplatOrder` and `CpuSplatsShareFrame` state its promises |
| CpuSampler.CpuSplatCount | src/cpu_sampler.hpp:41-60 | no records for m <= 0 and (m+1)(m+2)/2 for m >= 1 |
| CpuSampler.CpuSplatOrder | src/cpu_sampler.hpp:58-73 | record Offset(u) + v is the record of lattice point (u, v) |
| CpuSampler.CpuSplatsShareFrame | src/cpu_sampler.hpp:45-72 | every record has scale (su, sv, 1e-7, 0), not averaged or floored, the face normal with w 0, and the corrected quaternion of (X, Y, n) as (x, y, z, w) |
| CpuSampler.IdentityBelowPositiveTrace | src/cpu_sampler.hpp:19-31 | without a positive trace both conversions give the identity, which is its own conjugate |
| CpuSampler.CpuSetupConjugatesAsWritten | src/cpu_sampler.hpp:43-56 | the quaternion of a triangle's set-up is the conjugate of `basisToQuat(X, Y, n)` as written |
| CpuSampler.SplatsCarryConjugate | src/cpu_sampler.hpp:58-72 | records of a set-up whose quaternion is the conjugate of a carry (−a.x, −a.y, −a.z, a.w) |
| CpuSampler.CpuSplatsCarryConjugateOfAsWritten | src/cpu_sampler.hpp:43-72 | against the source's own `basisToQuat(X, Y, n)` = a, every record carries (−a.x, −a.y, −a.z, a.w): the source's records carry a as (a.x, a.y, a.z, a.w), the model its conjugate |
| CpuSampler.RendererScaleAveragesCpuScale | src/cpu_sampler.hpp:52-56 | where both samplers use the first edge as X, the renderer's in-plane scale at factor 1 is the mean of su and sv, floored at 1e-7 |
| CpuSampler.ZeroResolutionDividesByZero | src/cpu_sampler.hpp:58-64 | for m = 0 the loops visit one point, whose weight is 0 / 0 |
| Context.RenderContext.constructor | src/renderer/renderer.cpp:232 | the value-initialised context has no meshes, no splats and area 0 |
| MeshConversion.TriangleSampler | src/renderer/renderer.cpp:713-722 | the per-face sampler applies to any face under any material that can be sampled |
| MeshConversion.SamplerApplies | src/renderer/renderer.cpp:719-722 | the per-face sampler gives the triangle sampler's records for the face's three positions |
| MeshConversion.SampleFace | src/renderer/renderer.cpp:716-722 | sampling a face gives that face's records |
| MeshConversion.SampleablePrefix | src/renderer/renderer.cpp:696-703 | a prefix of meshes whose materials can be sampled, where they have faces, has the same property |
| MeshConversion.FacesSplats | src/renderer/renderer.cpp:713-727 | the records of a run of faces, face after face; `FacesSplatsStep`, `FacesSplatsConcat` and `FacesSplatsLength` state it |
| MeshConversion.MeshSplats | src/renderer/renderer.cpp:700-727 | nothing for a mesh without faces, else the records of its faces under its material |
| MeshConversion.ConvertMeshes | src/renderer/renderer.cpp:696-728 | the records of every mesh, mesh after mesh; `ConvertMeshesConcat`, `EmptyMeshAddsNothing`, `ConvertMeshesCount` and `NoDensityNoSplats` state it |
| MeshConversion.FacesSplatsConcat | src/renderer/renderer.cpp:713-727 | the records of a concatenation of faces are the concatenated records |
| MeshConversion.ConvertMeshesConcat | src/renderer/renderer.cpp:696-728 | the records of a concatenation of meshes are the concatenated records |
| MeshConversion.EmptyMeshAddsNothing | src/renderer/renderer.cpp:700-703 | dropping a mesh without faces leaves the result unchanged |
| MeshConversion.FacesSplatsLength | src/renderer/renderer.cpp:713-727 | the record count is the sum of the per-face counts |
| MeshConversion.UniformFacesCount | src/renderer/renderer.cpp:713-727 | k records per face give k times the face count |
| MeshConversion.UniformMeshesCount | src/renderer/renderer.cpp:696-728 | k records per face of every mesh give k times the total face count |
| MeshConversion.ConvertMeshesCount | src/renderer/renderer.cpp:696-728 | without degenerate faces and with m >= 1 the converter makes (m+1)(m+2)/2 records per face of every mesh |
| MeshConversion.NoDensityNoSplats | src/renderer/renderer.cpp:94 | a density of m <= 0 gives no records at all |
| MeshConversion.Renderer.constructor | src/renderer/renderer.cpp:232 | the renderer owns a fresh, empty context |
| MeshConversion.Renderer.ConvertMeshToGaussiansCPU | src/renderer/renderer.cpp:691-729 | the previous records are replaced by `ConvertMeshes`: the records of every face of every mesh with faces, in mesh-then-face order |
| MeshConversion.Renderer.AppendFaceSplats | src/renderer/renderer.cpp:713-727 | the records of the mesh's faces, in face order, are appended after the existing ones |
| MeshConversion.Renderer.AppendTriangle | src/renderer/renderer.cpp:716-726 | one face's records are appended after the context's existing records |
| MeshConversion.FacesSplatsStep | src/renderer/renderer.cpp:713-727 | one more face appends exactly that face's records |
| GltfLoading.CopyImage | src/utils/SceneManager.cpp:72-81 | the slot gets the pixels, width and height of the image, the channel count when it fits an `unsigned int`, and the slot name as path; the coordinate set is kept |
| GltfLoading.ParseGltfTextureInfo | src/utils/SceneManager.cpp:60-94 | the slot after reading one texture parameter; `UnknownTextureLeavesSlot`, `KnownTextureCopiesImage`, `MissingImageKeepsPixels` and `ParsedTextureWellFormed` state it |
| GltfLoading.UnknownTextureLeavesSlot | src/utils/SceneManager.cpp:62-66 | without an "index" member, or with one outside the texture list, the slot is unchanged |
| GltfLoading.KnownTextureCopiesImage | src/utils/SceneManager.cpp:66-91 | with both indices in range the slot is the image copy named after the slot, with coordinate set the `texCoord` member truncated toward zero, or 0 when absent |
| GltfLoading.MissingImageKeepsPixels | src/utils/SceneManager.cpp:68-91 | a known texture with an out-of-range image changes only the coordinate set, which is the `texCoord` member truncated, or 0 when absent |
| GltfLoading.ParsedTextureWellFormed | src/utils/SceneManager.cpp:60-94 | reading a slot from a document of sized images keeps the slot samplable |
| GltfLoading.Cleared | src/utils/SceneManager.cpp:125 | a slot marked absent has path EMPTY_TEXTURE and can be sampled |
| GltfLoading.OutOfRangeMaterialIsUntouched | src/utils/SceneManager.cpp:98-100 | an index outside the material list leaves the material unchanged |
| GltfLoading.ParseGltfMaterial | src/utils/SceneManager.cpp:96-190 | the material after reading one document material; its promises are `OutOfRangeMaterialIsUntouched` through `ParsedMaterialSampleable` |
| GltfLoading.ColorFactor | src/utils/SceneManager.cpp:107-115 | the base colour factor is the first three numbers and the fourth, or alpha 1 when only three are given |
| GltfLoading.NameAndFactorsFromDocument | src/utils/SceneManager.cpp:104-189 | name, metallic factor and roughness factor come from the document |
| GltfLoading.ColorFactorsRead | src/utils/SceneManager.cpp:107-185 | base colour and emissive factors are read from their number arrays when present and kept otherwise |
| GltfLoading.AbsentTexturesAreEmpty | src/utils/SceneManager.cpp:119-174 | an unlisted base colour, normal, occlusion or emissive slot gets path EMPTY_TEXTURE; an unlisted metallic-roughness slot is kept |
| GltfLoading.ScaleAndStrengthDefaults | src/utils/SceneManager.cpp:128-165 | normal scale and occlusion strength are the member's value, 1 when the texture is listed without it, and unchanged without the texture |
| GltfLoading.ListedTextureIsNamedAfterSlot | src/utils/SceneManager.cpp:119-122 | a listed base colour texture is read under the key "baseColorTexture" |
| GltfLoading.ParsedMaterialSampleable | src/utils/SceneManager.cpp:96-190 | a material read from sized images into a samplable material can be sampled |
| GltfLoading.SlotWellFormed | src/utils/SceneManager.cpp:119-174 | reading or clearing a slot keeps it samplable |
| GltfLoading.SelectStreams | src/utils/SceneManager.cpp:239-263 | an error exactly when POSITION is missing or TEXCOORD_0 is present without NORMAL; normals are copied exactly when TEXCOORD_0 is present; UVs and tangents exactly when listed |
| GltfLoading.NormalsNeedTexcoords | src/utils/SceneManager.cpp:243-247 | normals without TEXCOORD_0 are dropped |
| GltfLoading.SafeDet | src/utils/SceneManager.cpp:295-297 | the divisor is never 0: the determinant itself when \|det\| >= 1e-8, else 1 |
| GltfLoading.ComputedTangent | src/utils/SceneManager.cpp:286-311 | the handedness is exactly -1 or +1 |
| GltfLoading.NoUvsGiveZeroTangentDirection | src/utils/SceneManager.cpp:286-311 | zero UVs give `Normalize3` of the zero vector as direction (NaN in C++, not modelled) and handedness +1 |
| GltfLoading.UnitUvFrameTangentFollowsFirstEdge | src/utils/SceneManager.cpp:286-303 | the unit UV frame gives the normalised first edge as tangent |
| GltfLoading.Corners | src/utils/SceneManager.cpp:272-279 | corner e reads the stream at the e-th index |
| GltfLoading.FaceAt | src/utils/SceneManager.cpp:270-311 | face f reads its corners at indices 3f..3f+2, zero UVs and normals for absent streams, and per-corner or one computed tangent; `CornerTakesIndexedVertex`, `TangentsPerCornerOrShared` and `AssemblyLeavesPerFaceFieldsZero` state it |
| GltfLoading.AssembledFaces | src/utils/SceneManager.cpp:267 | there are \|indices\| / 3 faces |
| GltfLoading.AssembleFaces | src/utils/SceneManager.cpp:267-320 | the `dst` loop writes exactly `AssembledFaces`, face f from indices 3f, 3f+1, 3f+2 |
| GltfLoading.CornerTakesIndexedVertex | src/utils/SceneManager.cpp:270-280 | corner e of face f holds vertex indices[3f+e]'s position, and its UV and normal when those streams exist, zero otherwise |
| GltfLoading.TangentsPerCornerOrShared | src/utils/SceneManager.cpp:282-317 | with TANGENT each corner reads its own tangent; without it the three corners share one tangent of handedness -1 or +1 |
| GltfLoading.AssemblyLeavesPerFaceFieldsZero | src/utils/SceneManager.cpp:267-320 | assembly leaves scale, rotation and normalised UVs zero |
| MeshBuffers.PackCorner | src/utils/SceneManager.cpp:350-377 | a corner packs to 17 floats |
| MeshBuffers.PackCorners | src/utils/SceneManager.cpp:350-377 | e corners pack to 17e floats |
| MeshBuffers.PackFaces | src/utils/SceneManager.cpp:349-388 | a run of faces packs to 3 x 17 floats per face |
| MeshBuffers.PackedCornerReadsBack | src/utils/SceneManager.cpp:350-430 | the packing order and the attribute offsets 0, 3, 6, 10, 12, 14 agree: a packed corner reads back as that corner |
| MeshBuffers.ReadVertexOfConcat | src/utils/SceneManager.cpp:402-430 | a vertex is read from its own 17 floats only |
| MeshBuffers.PackedCornersReadBack | src/utils/SceneManager.cpp:350-430 | vertex e of a packed face prefix is corner e |
| MeshBuffers.PackedFacesReadBack | src/utils/SceneManager.cpp:349-430 | vertex 3f + e of the vertex array is corner e of face f |
| MeshBuffers.ReadVertexShift | src/utils/SceneManager.cpp:402-430 | after k whole vertices, vertex k + e is vertex e of the rest |
| MeshBuffers.VertexCountIsThreePerFace | src/utils/SceneManager.cpp:398-399 | the vertex count is three per face |
| MeshBuffers.GrowCovers | src/utils/SceneManager.cpp:380-386 | growing a box by a point covers the point and the old box |
| MeshBuffers.GrowFaces | src/utils/SceneManager.cpp:349-388 | the running box after every corner of a run of faces; `GrowFacesCovers` and `PackFacesStep` state it |
| MeshBuffers.EnclosesTransitive | src/utils/SceneManager.cpp:380-386 | enclosure is transitive |
| MeshBuffers.ContainsWithin | src/utils/SceneManager.cpp:380-386 | a point of an enclosed box lies in the enclosing box |
| MeshBuffers.GrowCornersCovers | src/utils/SceneManager.cpp:350-386 | the box after some corners of a face covers them and the old box |
| MeshBuffers.GrowFacesCovers | src/utils/SceneManager.cpp:349-388 | the box after a run of faces covers every corner of the run and the old box |
| MeshBuffers.FacesAreaNonNegative | src/utils/SceneManager.cpp:390 | with non-negative triangle areas the summed area is non-negative |
| MeshBuffers.FacesArea | src/utils/SceneManager.cpp:349-390 | the sum of the face areas, face after face; `PackFacesStep` and `FacesAreaNonNegative` state it |
| MeshBuffers.Entries | src/utils/SceneManager.cpp:345-437 | one context entry per mesh |
| MeshBuffers.SetUpMesh | src/utils/SceneManager.cpp:345-393 | the mesh after setup: its face areas added to the area it had, and the running box after its corners as its box; `EntryAt`, `EntryBox` and `SecondSetupCountsAreaTwice` state it |
| MeshBuffers.EntriesStep | src/utils/SceneManager.cpp:345-437 | one more mesh appends one entry: the mesh set up under the box after the meshes before it |
| MeshBuffers.SetupStep | src/utils/SceneManager.cpp:345-437 | one iteration of the mesh loop keeps the loop's progress: the entries, updated meshes, box and total so far match the meshes visited |
| MeshBuffers.SetupDone | src/utils/SceneManager.cpp:334-440 | after the last mesh the entries are `Entries` of all the meshes, every mesh is its entry and the total grew by their areas |
| MeshBuffers.EntryBox | src/utils/SceneManager.cpp:342-393 | the box recorded for mesh k is the running box after meshes 0..k |
| MeshBuffers.EntriesAreaStep | src/utils/SceneManager.cpp:395 | one more entry adds its mesh's area to the total |
| MeshBuffers.EntryAt | src/utils/SceneManager.cpp:345-437 | entry k is mesh k set up under the box after meshes 0..k-1, with its vertex count |
| MeshBuffers.GrowMeshesStep | src/utils/SceneManager.cpp:342-393 | the running box after mesh k is the box before it grown by mesh k's corners |
| MeshBuffers.GrowMeshesMonotone | src/utils/SceneManager.cpp:342-393 | the running box never shrinks |
| MeshBuffers.BoxCoversEveryCornerSoFar | src/utils/SceneManager.cpp:342-393 | mesh k's recorded box contains every corner of every mesh 0..k |
| MeshBuffers.LaterBoxesEncloseEarlier | src/utils/SceneManager.cpp:342-393 | a later mesh's box encloses an earlier mesh's |
| MeshBuffers.LeadingEmptyMeshesKeepInitialBox | src/utils/SceneManager.cpp:342-393 | when no mesh up to k has faces, mesh k's box is (FLT_MAX, -FLT_MAX) |
| MeshBuffers.EmptyMeshesKeepBox | src/utils/SceneManager.cpp:342-343 | meshes without faces leave the running box at (FLT_MAX, -FLT_MAX) |
| MeshBuffers.SecondSetupCountsAreaTwice | src/utils/SceneManager.cpp:390 | the area is added to what the mesh holds, so setting a mesh up twice counts its faces twice |
| MeshBuffers.SceneManager.constructor | src/utils/SceneManager.cpp:10-12 | the scene manager refers to the context it was given |
| MeshBuffers.SceneManager.SetupMeshBuffers | src/utils/SceneManager.cpp:334-440 | the context's mesh list becomes `Entries` of the meshes, each mesh is updated in place to its entry, and their areas are added to the context's running total |
| MeshBuffers.SetUpOneMesh | src/utils/SceneManager.cpp:345-399 | one mesh iteration gives the set-up mesh, the vertex count and the grown box |
| MeshBuffers.PackMesh | src/utils/SceneManager.cpp:347-391 | the loops build exactly `PackFaces`, grow the box to `GrowFaces` and add `FacesArea` to the mesh's area |
| MeshBuffers.PackFace | src/utils/SceneManager.cpp:350-386 | the corner loop of one face appends its three 17-float corners and grows the box by its three positions |
| MeshBuffers.PackFacesStep | src/utils/SceneManager.cpp:349-390 | one more face appends its corners, grows the box by its positions and adds its area |

## Left out

- OpenGL: the VAO and VBO setup of `setupMeshBuffers`, `updateGaussianBuffer`, texture
  upload (`loadTextures`, `generateTextures`) and the render loop are foreign calls. Of a
  `GLMesh` only the vertex count is kept.
- The static debug counter and the console output of the sampler and the converter do not
  change any result.
- tinygltf: reading the file and `getBufferData` belong to the glTF library. The document is
  reduced to the fields the loader reads, with the streams already decoded.
- Index decoding: the loader's own loop at SceneManager.cpp:222-236, which reads
  UNSIGNED_SHORT or UNSIGNED_INT indices from the buffer, is left out with the library reads.
  The model takes the decoded indices as input. It therefore does not capture that any other
  component type (UNSIGNED_BYTE, say) leaves every index at 0.
- Mesh naming in `parseGltfFile` and the folder and MIME-type path built before line 80 are
  left out. That path is overwritten by the slot name, which the model keeps.
- Floating point: numbers are exact reals. Rounding, infinities and NaN are not modelled,
  except for the two findings below, which model NaN explicitly. `sqrt`, `inversesqrt` and
  `quat_cast` are parameters, and nothing numerical is proved about them.
- `RenderContext.hpp` is not part of this model. Only the three fields the conversion path
  uses are kept, and value-initialisation is taken to empty them.
- The body of `utils::triangleArea` for `glm::vec3` is not part of this model. The scene
  manager's area function is therefore a parameter. The `std::vector<float>` overload is
  modelled as `UtilsSimplified.TriangleArea`.
- `src/utils/utils_simplified.hpp` defines a second, different data model that the sampler
  does not use. `exportPly`, the ImGui interface, the headless converter and the Python
  bindings are UI, threads and I/O.
- The all-fields constructors of `MaterialGltf` (utils.hpp:127-133) and `TextureDataGl`
  (utils.hpp:202) copy their arguments, and the datatype constructors are those copies. The
  `Material` record of the OBJ path is not used here.
- In setupMeshBuffers, the 17 `push_back` calls per corner are one append of a 17-float
  sequence. In parseGltfFile, the per-corner loop of the face assembly is folded into the
  face built for one index triple.
- CpuSampler.TransposeConjugates: stated for a positive trace only. For a trace <= 0 both
  quaternions are the identity, which `BasisToQuat`'s own contract already states.
- GltfLoading.AssembleFaces: requires the index count to be a multiple of 3 and every index
  to address a vertex of every present stream. Otherwise the source reads past its buffers,
  which is undefined behaviour.
- GltfLoading.ParseGltfMaterial: requires the base colour and emissive factor arrays of the
  material it reads, when the index names one, to hold at least 3 numbers
  (`GltfLoading.MaterialComplete`). tinygltf's `ColorFactor()` reads three numbers and
  supplies alpha 1 when a fourth is missing (`GltfLoading.ColorFactor`), and the emissive
  factor is indexed at 0..2 without a check. Other materials are not constrained.
- TextureSampling.SampleTextureAtUV: requires a named texture with pixels to have positive
  width and height (`TextureInfo.WellFormed`). The source takes `% width` and `% height`,
  which is undefined behaviour for 0. Negative sizes are excluded as well: for them the
  source clamps the coordinate to 0, but the byte index is then formed in unsigned
  arithmetic (`channels` is unsigned), which the model does not follow.
- TextureSampling.SampleTextureAtUV: 32-bit overflow is not modelled. The byte index
  `(y * width + x) * channels` is computed in 32-bit unsigned arithmetic, and
  `static_cast<int>(uv.x * width)` is undefined past INT_MAX; the model uses unbounded
  integers, which agree with the source for textures below 2^31 bytes and |uv · size| below 2^31.

## Findings

| source | as written | input that shows it | evidently intended | confidence | as-written member | corrected member |
|---|---|---|---|---|---|---|
| src/renderer/renderer.cpp:100-105 | the degenerate test measures the length of the normalised cross product, which is 1 for any non-zero cross product and NaN for a zero one, so the test never fires (short of a squared cross product that overflows to infinity, which normalises to 0) | collinear corners (0,0,0), (1,0,0), (2,0,0) | skip the triangle when the un-normalised cross product is shorter than 1e-6 | not executed | TriangleSampling.GuardAsWrittenNeverFires, TriangleSampling.CollinearTrianglePassesGuardAsWritten | TriangleSampling.CollinearTriangleIsDegenerate, TriangleSampling.CoincidentCornersGiveNoSplats |
| src/cpu_sampler.hpp:58-64 | no guard for m = 0: the loops run once and compute the weight 0 / 0 | m = 0 | no records for m <= 0, as the renderer's sampler does at renderer.cpp:94 | not executed | CpuSampler.ZeroResolutionDividesByZero | CpuSampler.CpuSplatCount |
| src/cpu_sampler.hpp:20-27 | basisToQuat indexes the column-major glm matrix as if it were row-major, so its vector part is the negation of the usual formula: the quaternion of the inverse rotation | X = (0,1,0), Y = (-1,0,0), Z = (0,0,1), a quarter turn about +z, gives z < 0 | the usual formula, as glm::quat_cast gives: the same turn with z > 0 | not executed | CpuSampler.BasisToQuatConjugatesStandard, CpuSampler.TurnAboutZAsWritten, CpuSampler.CpuSplatsCarryConjugateOfAsWritten | CpuSampler.CorrectedBasisToQuat, CpuSampler.CorrectedTurnAboutZ |
