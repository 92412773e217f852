# oceanman, modelled in Dafny

oceanman is a deferred renderer written in Rust on top of wgpu. This project models the
logic under its GPU plumbing:

- **Resource building.** The resource manager's bytes-per-pixel table and upload layout.
  It also numbers bind-group layout and bind-group entries.
- **Texture constructors.** The `Texture` and `Sampler` constructors, including format
  defaulting.
- **Cubemap loading.** DDS cubemap loading: the f32 to f16 conversion and the six-face mip
  upload loop with its running offset.
- **Uniforms.** The uniform wrappers, whose buffers are overwritten wholesale on update.
- **Fixed bind groups.** The G-buffer, IBL and skybox bind groups, checked against their
  layouts.
- **Scene loading.** The glTF scene loader: a pre-order node walk with composed transforms,
  the right- to left-handed z flip, missing-attribute errors, RGB to RGBA expansion and the
  1x1 fallback texels.
- **Tangent generation.** The mikktspace adapter.
- **Frame encoding.** The per-frame render passes, as command logs.
- **Hot swapping.** The hot-swap lifecycle of the IBL and skybox cubemaps.
- **Camera.** The fly camera's event state machine.
- **Renderer.** The forward renderer's frame: encode, submit, present.

### How the model works

**The GPU.** The GPU is abstract state, in module `Gpu`. A `Device` holds three things:

- a texture table, in which a record is marked destroyed but never removed, and which keeps
  every queue write made to the texture;
- the samplers created so far;
- a handle counter for buffers, bind groups, shader modules and pipelines.

A `CommandEncoder` holds the render passes begun on it. Each pass has an append-only
command log.

**Bind groups.** A bind group records the layout it was created against. A group fits a
pipeline slot when its layout equals the pipeline's layout for that slot.

**Numbers.** Floats are `real`. Matrices, vectors and the f32 to f16 conversion are
symbolic terms, in module `Math`.

**Outcomes.**

- A Rust panic is the `Panic` case of `Fallible`.
- A returned error is `Err` or `Failed`.
- The loader's three outcomes are `Loaded`, `Failed` (a `SceneLoadError` returned with `?`)
  and `Panicked`.

**Outside inputs.** Everything that comes from outside is a parameter:

- file contents, as maps from path to parsed DDS;
- the glTF import result;
- the calls the tangent generator makes;
- the surface texture acquisition result;
- window events.

**Source revisions.** The source files come from different revisions and do not type-check
together. Each file's own logic is modelled as written. For example, `src/gbuffers.rs` and
`src/passes/write_gbuffers.rs` define different `GBuffers` structs, and each is modelled
separately.

### Behaviour of the code worth knowing

- **Texture byte length.** `create_from_bytes` never checks that the byte string matches
  the size (`src/texture.rs:14-80`), and `Textures.CreateFromBytes` accepts any length.
  wgpu would refuse a write that is too short; that check is not modelled (see Left out).
- **Material index.** Nothing enforces `material_index < materials.len()`. The loader
  defaults a missing material to 0 and checks nothing (`src/loader.rs:66`), and the
  geometry pass panics on an out-of-range index (`src/passes/write_gbuffers.rs:213`).
  `WriteGBuffers.MeshCommands` panics in that case.
- **Skybox update order.** `update_cubemap` loads the new cubemap and builds its bind group
  before it destroys the old texture (`src/passes/skybox.rs:62-89`).
  `Skybox.SkyboxPass.UpdateCubemap` follows that order, so a failed load changes nothing.
  `IBL::update` destroys first (`src/passes/compose.rs:113-152`), and `Compose.Ibl.Update`
  proves that the old texture is destroyed even when the load then panics.

## Model

| member | source | states |
|---|---|---|
| ResourceManager.CreateBuffer | src/resource_manager.rs:90-101 | The buffer has `byte_size` bytes and its usage defaults to every flag. The data is written at offset 0 and the rest stays zero. It panics when the data is longer than the buffer; the other wgpu checks on this call are listed under Left out. |
| ResourceManager.BytesPerPixel | src/resource_manager.rs:124-131 | Known exactly for Rgba8UnormSrgb, Rgba8Unorm, Rgba16Float, Rgba32Float and Rg16Float, and then 4, 8 or 16 bytes. |
| ResourceManager.BytesPerPixelIsTexelSize | src/resource_manager.rs:124-131 | The table knows exactly Rgba8UnormSrgb, Rgba8Unorm, Rgba16Float, Rgba32Float and Rg16Float. Each value is channels times bytes per channel: 4, 4, 8, 16 and 4. |
| ResourceManager.DeviceTextureDesc | src/resource_manager.rs:103-123 | The device texture has the given size, one mip, one sample, and usage defaulting to all flags. |
| ResourceManager.Upload | src/resource_manager.rs:124-153 | An unknown format panics whether or not there is data. With data there is exactly one write: layer 0, `bpp * width` bytes per row, `height` rows, and extent depth 1 whatever the layer count. |
| ResourceManager.CreateTexture | src/resource_manager.rs:103-156 | The texture is created before the table is consulted, so a panic leaves one unwritten texture. On success it has the default view and the upload of `Upload`. |
| ResourceManager.CreateSampler | src/resource_manager.rs:158-175 | The sampler repeats, filters linearly, picks the nearest mip, clamps the LOD to `[0, lod]` and keeps the given compare function. |
| ResourceManager.SamplerTypeIgnored | src/resource_manager.rs:158-175 | The descriptor's sampler type never changes the sampler that is made. |
| ResourceManager.CreateBindGroupLayoutAsWritten | src/resource_manager.rs:177-241 | The loop computes the as-written layout, in which the sampler loop never advances `i`. |
| ResourceManager.CreateBindGroupLayout | src/resource_manager.rs:177-241 | The loop computes the corrected layout, in which sampler `k` gets binding `nt + nb + k`. |
| ResourceManager.LayoutNumbering | src/resource_manager.rs:177-231 | Both layouts have `nt + nb + ns` entries with the descriptor's visibility. Textures are at `0..nt-1` and buffers at `nt..nt+nb-1`, whose minimum size is absent for size 0. As written every sampler is at `nt + nb`; corrected, sampler `k` is at `nt + nb + k`. |
| ResourceManager.CreateBindGroup | src/resource_manager.rs:243-278 | The loop builds the group entries: texture views, then whole buffers, then samplers. |
| ResourceManager.GroupNumbering | src/resource_manager.rs:243-278 | A group has one entry per resource, and entry `k` has binding `k`. |
| ResourceManager.AsWrittenBindingsAgreeIff | src/resource_manager.rs:219-269 | For same-shaped descriptors, the as-written layout and the group agree on binding numbers if and only if there is at most one sampler. |
| ResourceManager.AsWrittenLayoutRejectsTwoSamplers | src/resource_manager.rs:219-231 | With two or more samplers the as-written layout repeats a binding number, and no bind group matches it. |
| ResourceManager.LayoutMatchesGroup | src/resource_manager.rs:177-278 | With the corrected numbering, a group whose views suit their slots matches the same-shaped layout binding for binding. |
| Textures.ResolveFormat | src/texture.rs:23 | The format defaults to Rgba8UnormSrgb, and a given format is kept. |
| Textures.CreateFromBytes | src/texture.rs:14-80 | It succeeds if and only if the resolved format is Rgba8UnormSrgb or Rgba8Unorm, and panics otherwise. The texture is width x height x 1 with one mip and one sample. The single write uses `4 * width` bytes per row and `height` rows. |
| Textures.Create1x1Texture | src/texture.rs:123-131 | It succeeds if and only if the resolved format is Rgba8UnormSrgb or Rgba8Unorm. On success the texture is 1x1x1 in that format and its one upload writes `data` at mip 0, layer 0, with 4 bytes per row and 1 row. |
| Textures.Create | src/texture.rs:82-121 | No upload; the resolved format, the given size with one layer and one mip; usage includes COPY_SRC and COPY_DST. |
| Textures.CreateDepthTexture | src/texture.rs:133-159 | A depth format, the surface's size with one layer, and no upload. |
| Textures.DiffuseTextureSampler | src/texture.rs:167-184 | No contract; see `Textures.OnlyShadowSamplerCompares`. |
| Textures.ShadowMapSampler | src/texture.rs:191-208 | No contract; see `Textures.OnlyShadowSamplerCompares`. |
| Textures.CreateExtendsFromBytes | src/texture.rs:82-121 | `create` never uploads and never panics, keeps the resolved format, and has the usage of `create_from_bytes` plus COPY_SRC. |
| Textures.DepthTextureShape | src/texture.rs:133-159 | The depth texture is Depth32Float, surface-sized, with usage RENDER_ATTACHMENT and TEXTURE_BINDING, and no upload. |
| Textures.FromBytesPitchAgreesWithTable | src/texture.rs:55-73 | The 4-byte row pitch equals the resource manager's table entry for the format, and the write covers the whole texture. |
| Textures.Build | src/texture.rs:14-131 | The described texture is appended to the device together with its optional upload. |
| Textures.NormalTextureSampler | src/texture.rs:186-190 | The normal sampler repeats, filters linearly with nearest mip selection, and never compares; it is the diffuse sampler. |
| Textures.OnlyShadowSamplerCompares | src/texture.rs:167-208 | Only the shadow sampler compares (with Less) and clamps to the edge. The other two repeat and never compare. |
| Cubemaps.PathOr | src/passes/skybox.rs:26-31 | An absent path falls back to `resources/OCEANMAN_UNSPECIFIED.dds`. |
| Cubemaps.HalvesOf | src/cubemap.rs:53-68 | The result has `data.len() / 4` elements. |
| Cubemaps.ConvertToHalves | src/cubemap.rs:53-68 | The conversion loop yields `HalvesOf(data)`, so element `i` is decoded little-endian from bytes `4i..4i+3`. |
| Cubemaps.MipExtent | src/cubemap.rs:73-74 | A mip side is never larger than the base side. |
| Cubemaps.MipExtentIsQuotient | src/cubemap.rs:73-74 | Halving `m` times, rounding down, equals dividing once by `2^m`. |
| Cubemaps.AreaIsProduct | src/cubemap.rs:75 | The slice area is `w_m * h_m`. |
| Cubemaps.BeforeIsProduct | src/cubemap.rs:70-103 | The offset at the start of face `f` is `f` full chains. |
| Cubemaps.WrittenHalvesAppend | src/cubemap.rs:70-103 | The data read by concatenated uploads is the concatenation of the data each reads. |
| Cubemaps.MipWriteReads | src/cubemap.rs:75-77 | Level `m` of a face reads exactly the slice between the ends of the first `m` and the first `m + 1` levels of that face. |
| Cubemaps.FaceWritesTile | src/cubemap.rs:72-101 | One face's uploads read its chain's slice without gap or overlap. |
| Cubemaps.FacesWritesTile | src/cubemap.rs:70-103 | The first `f` faces read the converted data from its start, each element exactly once. |
| Cubemaps.FaceWritesShape | src/cubemap.rs:72-101 | A face has one upload per mip, in mip order, each at the face's array layer. |
| Cubemaps.MipWriteLayout | src/cubemap.rs:73-100 | The upload for face `f` at mip `m` has extent `w/2^m x h/2^m x 1`, `8 * w_m` bytes per row, `h_m` rows and `4 * w_m * h_m` halves. |
| Cubemaps.UploadsTileTheData | src/cubemap.rs:70-103 | All uploads together read the first `6 * ChainLen` converted halves in order, so the final offset is six full chains. |
| Cubemaps.UploadFace | src/cubemap.rs:72-102 | The inner loop succeeds if and only if every slice fits and `2^mip` fits a u32. On success the offset has advanced by one chain and exactly the face's uploads were appended. Other textures are unchanged. |
| Cubemaps.FromDds | src/cubemap.rs:18-110 | It succeeds if and only if the file loads: present, A32B32G32R32F, cubemap flag set, six full chains. A rejected file creates no texture. Otherwise one Rgba16Float texture with 6 layers and the file's mip count is created, and on success it holds exactly `Uploads(dds)`. |
| Uniforms.BindGroupLayoutEntry | src/uniform.rs:59-70 | The entry is a uniform slot at binding `i`, visible to all stages. Its minimum size is `size_of::<T>()`, absent when that is 0. |
| Uniforms.BindGroupLayout | src/uniform.rs:43-57 | The layout has exactly one entry, for binding 0. |
| Uniforms.Uniform.constructor | src/uniform.rs:16-37 | The buffer holds `data` and the `data` field equals it. The group binds the whole buffer at 0 against the one-entry layout. |
| Uniforms.Uniform.Update | src/uniform.rs:39-41 | The buffer holds the new value and the `data` field keeps the old one. |
| Uniforms.Uniform.BindGroupEntry | src/uniform.rs:72-77 | The entry binds the whole buffer at binding `i` and fits the layout entry for `i`. |
| Uniforms.CreatedGroupMatchesLayout | src/uniform.rs:23-30 | The group built by `new` matches its layout. |
| Uniforms.UpdateLeavesDataStale | src/uniform.rs:39-41 | After an update with a different value, `data` no longer equals the buffer's contents. |
| Resources.NewSceneUniformData | src/resources.rs:20-25 | The identity matrix, and a camera at (0, 0, 0, 1). |
| Resources.SceneUniformFromCamera | src/resources.rs:27-33 | The matrix is `perspective_lh` of the camera's fovy, aspect, znear and zfar times the look-to view from eye, front and up; the position is the eye with w = 1. |
| Resources.UnsizedUniformLayout | src/resources.rs:69-83 | One uniform slot at binding 0, visible to all stages, with no minimum size. |
| Resources.SceneUniform.constructor | src/resources.rs:43-63 | The buffer holds `data`. The group binds the whole buffer at 0 against the unsized layout. |
| Resources.SceneUniform.Update | src/resources.rs:65-67 | The buffer contents are replaced wholesale and no field changes. |
| Resources.NewMeshUniformData | src/resources.rs:96-101 | The world matrix, and the inverse of its transpose for normals. |
| Resources.Mesh.constructor | src/resources.rs:113-139 | The vertex buffer and count are kept. The uniform holds `data` and is bound whole at binding 0. |
| Resources.Mesh.Update | src/resources.rs:141-143 | The buffer contents are replaced wholesale and no field changes. |
| Resources.UniformGroupMatches | src/resources.rs:43-63 | Each uniform group matches its one-entry layout. |
| Resources.DepthTextureDesc | src/resources.rs:171-190 | Depth32Float, surface-sized, one layer, one mip, one sample, attachment and sampling usage. |
| Resources.DepthSamplerDesc | src/resources.rs:191-206 | The sampler clamps to the edge, clamps the LOD to `[0, 100]` and does not compare. |
| Resources.CreateDepthTexture | src/resources.rs:171-210 | One texture and one sampler are appended, and the view is 2D in the depth format. |
| Resources.VertexLayout | src/resources.rs:213-235 | Stride 32, locations 0 to 2. The attributes are contiguous from offset 0 and end exactly at the stride. |
| Resources.VertexAttributesDisjoint | src/resources.rs:213-235 | No two attributes overlap, and each lies inside the stride. |
| Resources.MeshPipelineDesc | src/resources.rs:237-291 | Scene in group 0 and mesh in group 1. Depth Less with writes, back faces culled, and one target in the surface format. |
| Gbuffers.BindGroupLayout | src/gbuffers.rs:80-126 | Four fragment slots, bindings 0 to 3, all D2 and single-sampled. Only binding 0 samples depth; the rest are filterable float. |
| Gbuffers.GroupEntries | src/gbuffers.rs:48-69 | Binding `i` holds the view of target `i`. |
| Gbuffers.New | src/gbuffers.rs:20-78 | Depth from `create_depth_texture`, then albedo, normal and material as surface-sized Rgba8Unorm, then the group over the four. |
| Gbuffers.NewIsBuilt | src/gbuffers.rs:20-78 | What `new` builds has four distinct textures, a depth target in the depth format and non-depth colour targets. |
| Gbuffers.GroupMatchesLayout | src/gbuffers.rs:48-126 | The group matches its layout. |
| Gbuffers.DepthSlotHoldsDepth | src/gbuffers.rs:48-126 | A slot samples depth if and only if it holds the depth texture. The group references exactly the struct's four textures. |
| TangentGeneration.Corner | src/tangent_generation.rs:21-39 | Corner `(face, vert)` is `indices[3 * face + vert]`. It panics if and only if either index is out of range. |
| TangentGeneration.WithTangent | src/tangent_generation.rs:36-39 | The write succeeds exactly when the corner exists, and keeps the vertex count. |
| TangentGeneration.WithTangentChangesOneTangent | src/tangent_generation.rs:36-39 | Only the addressed vertex's tangent changes, and it becomes the tangent's first three components. |
| TangentGeneration.TangentGenerator.constructor | src/tangent_generation.rs:36-39 | The generator holds the given vertices and indices. |
| TangentGeneration.TangentGenerator.NumFaces | src/tangent_generation.rs:13-15 | `3n <= |indices| < 3n + 3`, which is `indices.len() / 3`. |
| TangentGeneration.TangentGenerator.NumVerticesOfFace | src/tangent_generation.rs:17-19 | Every face has 3 vertices. |
| TangentGeneration.TangentGenerator.Position | src/tangent_generation.rs:21-24 | Reads the position of `vertices[indices[3 * face + vert]]`, or panics out of range. |
| TangentGeneration.TangentGenerator.Normal | src/tangent_generation.rs:26-29 | Reads the normal through the same corner. |
| TangentGeneration.TangentGenerator.TexCoord | src/tangent_generation.rs:31-34 | Reads the texture coordinate through the same corner. |
| TangentGeneration.TangentGenerator.SetTangentEncoded | src/tangent_generation.rs:36-39 | The vertices become `WithTangent` of the old vertices and the indices are untouched. A panic writes nothing. |
| TangentGeneration.FaceCornersInIndexBuffer | src/tangent_generation.rs:13-19 | Every corner of every face within `num_faces` lies inside the index buffer. |
| TangentGeneration.WithTangentKeepsReadAttributes | src/tangent_generation.rs:21-39 | A tangent write leaves every position, normal and texture coordinate the generator reads unchanged. |
| Math.LeWord | src/cubemap.rs:58-65 | Four little-endian bytes make a 32-bit word: the low byte first, the high byte last. |
| Math.FlipZ | src/loader.rs:76-88 | Negates z and keeps x and y. |
| Math.FlipZInvolution | src/loader.rs:76-88 | Flipping twice is the identity. |
| Loader.FixRotation | src/loader.rs:41-47 | The rotation's z and w are negated and x and y kept. |
| Loader.LocalTransform | src/loader.rs:41-47 | No contract; its rotation is `Loader.FixRotation`, see `Loader.FixRotationInvolution`. |
| Loader.FixRotationInvolution | src/loader.rs:41-47 | Fixing twice is the identity. |
| Loader.FlipTangent | src/loader.rs:101 | A source tangent is z-flipped and its w dropped. |
| Loader.ZipVertices | src/loader.rs:94-114 | There are as many vertices as the shortest stream. Positions and normals are z-flipped and texture coordinates are kept. The tangent is the flipped source tangent, or zero for the generator. |
| Loader.ApplyTangentsKeepsGeometry | src/loader.rs:116-125 | The generator's writes keep the vertex count and all geometry. |
| Loader.PrimitiveMesh | src/loader.rs:57-150 | Indices, positions, normals and texture coordinates are checked in that order, and the first one missing fails with its own message. A loaded mesh has the shortest-stream vertex count, the zipped geometry, the indices and their count, the transform's uniform, the material defaulting to 0, and the name. |
| Loader.LoadPrimitive | src/loader.rs:57-150 | Computes `PrimitiveMesh` with the generator writing in place. |
| Loader.LoadMesh | src/loader.rs:33-159 | The recursive walk yields `MeshesOf`. |
| Loader.LoadPrimitives | src/loader.rs:57-151 | The primitive loop yields `PrimitiveMeshes`. |
| Loader.LoadChildren | src/loader.rs:154-156 | The children loop yields `ChildMeshes`. |
| Loader.PrimitiveFailurePersists | src/loader.rs:68-90 | A failing prefix of the primitives fails the whole node the same way. |
| Loader.ChildFailurePersists | src/loader.rs:154-156 | A failing prefix of the children fails the whole walk the same way. |
| Loader.Placed | src/loader.rs:48-66 | Each primitive is paired with the node's transform and name. |
| Loader.LoadAllAppend | src/loader.rs:141-158 | Loading a concatenation is loading the two halves in sequence. |
| Loader.PrimitiveMeshesArePlaced | src/loader.rs:57-151 | A node's own meshes are the load of its placed primitives. |
| Loader.WalkIsPreOrder | src/loader.rs:33-159 | `load_mesh` loads exactly the subtree's pre-order list of placements, with composed transforms. |
| Loader.ChildrenArePlaced | src/loader.rs:154-156 | The children's meshes are the load of their placements in child order. |
| Loader.LoadAllShape | src/loader.rs:141-158 | The list loads if and only if every placement loads. It then yields one mesh per placement, in order. |
| Loader.LoadAllFirstFailure | src/loader.rs:68-158 | A failed load has the outcome of the first placement that does not load; all those before it load. |
| Loader.WalkMeshesFollowPlacements | src/loader.rs:48-156 | Each mesh of a successful walk carries its node's composed transform, name, indices and material index (0 when absent). |
| Loader.ExpandRgb | src/loader.rs:203-215 | No contract; see `Loader.ExpandRgbTexels`. |
| Loader.ExpandRgbTexels | src/loader.rs:203-215 | The expansion succeeds if and only if the length is a multiple of 3, and then gives `4n/3` bytes. Texel `k` is RGB texel `k` followed by 255. |
| Loader.ExpandRgbPixels | src/loader.rs:203-215 | The chunk loop yields `ExpandRgb`. |
| Loader.ImageBytes | src/loader.rs:203-218 | RGBA passes through, RGB is expanded, and any other format panics with `todo!`. |
| Loader.SlotTexture | src/loader.rs:183-336 | An absent texture gives the 1x1 fallback. An image index past the images panics. Otherwise the image bytes are used at the image's size, in the slot's format. |
| Loader.MaterialOf | src/loader.rs:183-337 | It succeeds if and only if all three textures do. The uniform comes from the PBR factors, then come the albedo (sRGB), normal and metallic-roughness textures. |
| Loader.UntexturedMaterialFallsBack | src/loader.rs:228-328 | An untextured material never panics. It gets [255,255,255,255] sRGB, [128,128,255,255] and [255,128,128,255]. |
| Loader.MaterialsOnePerDocumentMaterial | src/loader.rs:183-337 | The materials load if and only if each does, giving one per document material, in order. |
| Loader.MaterialFailurePersists | src/loader.rs:183-337 | A panicking prefix of the materials panics the whole list the same way. |
| Loader.DefaultLights | src/loader.rs:339-357 | Four distinct white lights at (±4, ±4, -1). |
| Loader.NewScene | src/loader.rs:360-380 | No meshes, no materials, the default scene uniform and four lights. |
| Loader.SceneOf | src/loader.rs:161-358 | An import error or a missing default scene panics. A walk failure is returned before any material is built. A loaded scene holds the walked meshes and the loaded materials. |
| Loader.FromGltf | src/loader.rs:161-358 | Computes `SceneOf`. |
| Loader.LoadedSceneShape | src/loader.rs:161-358 | A loaded scene holds the pre-order meshes of the roots, starting from the identity, and one material per document material. |
| Loader.EmptyDocumentIsNewScene | src/loader.rs:161-380 | An empty default scene with no materials loads to `Scene::new`. |
| Cameras.Clamp | src/camera.rs:139 | The result lies within the bounds and equals the input when the input does. |
| Cameras.Default | src/camera.rs:29-53 | No flag is set and the right button is not held. `first_mouse` is true, the pitch is 0 and the yaw is 90. |
| Cameras.AfterKey | src/camera.rs:77-98 | No contract; see `Cameras.KeyChangesOnlyFlags` and `Cameras.KeySetsOneFlag`. |
| Cameras.AfterCursor | src/camera.rs:112-147 | No contract; see `Cameras.CursorIgnoredWithoutRightClick`, `Cameras.FirstMoveKeepsAngles` and `Cameras.CursorMoveTracksPosition`. |
| Cameras.AfterUpdate | src/camera.rs:152-178 | No contract; see `Cameras.UpdateMovesOnlyEye`. |
| Cameras.KeyChangesOnlyFlags | src/camera.rs:77-98 | A key event changes nothing but the movement flags. |
| Cameras.KeySetsOneFlag | src/camera.rs:77-98 | The key's flag becomes whether it is pressed and every other flag is kept. Other keys change nothing. |
| Cameras.KeyFlag | src/camera.rs:77-98 | W and Up drive forward, A and Left drive left, S and Down backward, D and Right right, E up and Q down. |
| Cameras.RightButtonTracksHold | src/camera.rs:100-111 | `right_click` records whether the button is pressed. Other buttons change nothing. |
| Cameras.CursorIgnoredWithoutRightClick | src/camera.rs:117-120 | Without the right button held, a move only sets `first_mouse`. |
| Cameras.FirstMoveKeepsAngles | src/camera.rs:122-137 | The first move after arming keeps the yaw and pitch. |
| Cameras.CursorMoveTracksPosition | src/camera.rs:112-147 | A processed move records the position and clears `first_mouse`. The pitch stays within ±89, `front` follows the angles, and the flags and eye are kept. |
| Cameras.InputKeepsEyeAndPitch | src/camera.rs:66-150 | No event moves the eye or takes the pitch out of range. |
| Cameras.UpdateMovesOnlyEye | src/camera.rs:152-178 | An update changes only the eye, and with no flag set not even that. |
| Cameras.Camera.constructor | src/camera.rs:29-53 | The state is `Default()`. |
| Cameras.Camera.Input | src/camera.rs:66-150 | The new state is `AfterInput` of the old state. |
| Cameras.Camera.KeyInput | src/camera.rs:77-98 | The new state is `AfterKey` of the old state. |
| Cameras.Camera.SetMovement | src/camera.rs:77-98 | Exactly the movement flag named by the key is set to whether the key is pressed; every other field is unchanged. |
| Cameras.Camera.CursorInput | src/camera.rs:112-147 | The new state is `AfterCursor` of the old state. |
| Cameras.Camera.Update | src/camera.rs:152-178 | The new state is `AfterUpdate` of the old state. |
| Cameras.BuildUniforms | src/camera.rs:57-64 | The matrix is `perspective_lh` of fovy, aspect, znear and zfar times the look-to view from eye, front and up; the position is the eye with w = 1. |
| Rendering.FrameFitsPipeline | src/renderer.rs:141-165 | The frame binds the scene at group 0 and the mesh at group 1, as the mesh pipeline expects. The pipeline is set first and the single draw is last. |
| Rendering.Renderer.constructor | src/renderer.rs:29-110 | The default camera, a scene uniform from it, the mesh scaled by 0.5, the mesh pipeline, and nothing submitted. |
| Rendering.Renderer.Input | src/renderer.rs:112-114 | The event goes to the camera only. |
| Rendering.Renderer.Update | src/renderer.rs:116-120 | The camera moves first, then the scene uniform is rewritten from the moved camera. |
| Rendering.Renderer.Render | src/renderer.rs:122-171 | An acquisition error is returned with nothing submitted or presented. Otherwise exactly one submission holds the frame's pass, which clears to (0.1, 0.2, 0.3, 1) and depth 1, and presentation follows. Its groups fit the pipeline. |
| WriteGBuffers.NewGBuffers | src/passes/write_gbuffers.rs:28-68 | Four surface-sized targets: position Rgba32Float, then albedo, normal and material Rgba8Unorm. |
| WriteGBuffers.WritePipelineDesc | src/passes/write_gbuffers.rs:79-158 | Groups are scene, material, mesh. The four target formats are in attachment order, with depth Less and writes. |
| WriteGBuffers.AttachmentsMatchTargets | src/passes/write_gbuffers.rs:104-207 | Attachment `i` is target `i`, cleared to black, in the pipeline's format `i`. Depth is cleared to 1. |
| WriteGBuffers.MeshCommands | src/passes/write_gbuffers.rs:212-218 | A mesh's commands succeed if and only if its material index is in range. |
| WriteGBuffers.MeshesCommandsShape | src/passes/write_gbuffers.rs:212-218 | The commands succeed if and only if every material index is in range, and then form one block of five per mesh, in order. |
| WriteGBuffers.MeshesFailurePersists | src/passes/write_gbuffers.rs:213 | Once a prefix panics, the whole loop panics. |
| WriteGBuffers.MeshesCommandsStep | src/passes/write_gbuffers.rs:212-218 | One more mesh appends that mesh's five commands, or the loop panics if either part panics. |
| WriteGBuffers.PassBlocks | src/passes/write_gbuffers.rs:209-218 | The pass is the pipeline, scene group 0, then one block of five commands per mesh, in mesh order. |
| WriteGBuffers.PassCommandKind | src/passes/write_gbuffers.rs:211-218 | Past the first two commands, none binds group 0, none is a plain draw, and exactly every fifth is the indexed draw. |
| WriteGBuffers.PassDrawsEachMeshOnce | src/passes/write_gbuffers.rs:209-218 | Scene group 0 is bound once, before any mesh. Each mesh binds material group 1 and mesh group 2, sets its buffers and has exactly one indexed draw. |
| WriteGBuffers.PassFitsPipeline | src/passes/write_gbuffers.rs:209-218 | Every group bound fits the pipeline's layout for its slot. |
| WriteGBuffers.GroupFitsPipeline | src/passes/write_gbuffers.rs:209-218 | Any one group bound fits the pipeline's layout for its slot. |
| WriteGBuffers.WriteGBuffersPass.constructor | src/passes/write_gbuffers.rs:79-158 | The targets, the pipeline with `WritePipelineDesc`, and a depth buffer. |
| WriteGBuffers.WriteGBuffersPass.Pass | src/passes/write_gbuffers.rs:161-220 | One pass is appended. On success its commands are `PassCommands`; a material panic is reported. |
| WriteGBuffers.WriteGBuffersPass.Begin | src/passes/write_gbuffers.rs:163-210 | Appends one pass on the four targets and the depth buffer, holding exactly the pipeline and scene group 0 commands. |
| WriteGBuffers.WriteGBuffersPass.RecordMesh | src/passes/write_gbuffers.rs:213-217 | Appends the five commands of one mesh. |
| WriteShadowmaps.ShadowLayout | src/passes/write_shadowmaps.rs:81-97 | One vertex-visible uniform slot at binding 0, with a minimum size of 64 bytes. |
| WriteShadowmaps.ShadowUniform.constructor | src/passes/write_shadowmaps.rs:58-75 | The buffer holds `data`, and the group binds it whole at 0 against the shadow layout. |
| WriteShadowmaps.ShadowUniform.Update | src/passes/write_shadowmaps.rs:77-79 | The buffer contents are replaced. |
| WriteShadowmaps.ShadowGroupMatches | src/passes/write_shadowmaps.rs:58-97 | The group matches its layout. |
| WriteShadowmaps.ShadowPipelineDesc | src/passes/write_shadowmaps.rs:123-165 | The shadow layout, then the mesh layout. No fragment stage, no targets, depth Less with writes. |
| WriteShadowmaps.ShadowMeshesShape | src/passes/write_shadowmaps.rs:184-192 | One block of four commands per mesh, in mesh order. |
| WriteShadowmaps.ShadowBlocks | src/passes/write_shadowmaps.rs:184-192 | The pass is the pipeline, the shadow group 0, then one block of four commands per mesh, in mesh order. |
| WriteShadowmaps.ShadowCommandAt | src/passes/write_shadowmaps.rs:184-192 | Command `i` past the first two is command `(i-2) % 4` of mesh `(i-2) / 4`. |
| WriteShadowmaps.ShadowPassBindsNoMaterial | src/passes/write_shadowmaps.rs:184-192 | The shadow uniform is bound once at group 0. Each mesh binds only its group at 1 and has exactly one indexed draw of all its indices. |
| WriteShadowmaps.ShadowDrawsMatchGeometryDraws | src/passes/write_shadowmaps.rs:187-192 | The shadow pass draws the same index ranges in the same order as the geometry pass. |
| WriteShadowmaps.ShadowPassFitsPipeline | src/passes/write_shadowmaps.rs:184-192 | Every group bound fits the pipeline's layout for its slot. |
| WriteShadowmaps.WriteShadowmapsPass.constructor | src/passes/write_shadowmaps.rs:106-117 | The pipeline has `ShadowPipelineDesc`, and the uniform holds `data`. |
| WriteShadowmaps.WriteShadowmapsPass.UpdateShadowUniform | src/passes/write_shadowmaps.rs:119-121 | Only the uniform's contents change. |
| WriteShadowmaps.WriteShadowmapsPass.Pass | src/passes/write_shadowmaps.rs:167-194 | One pass is appended, with no colour attachment, the shadow map cleared to 1, and `ShadowCommands`. |
| WriteShadowmaps.WriteShadowmapsPass.RecordShadowMesh | src/passes/write_shadowmaps.rs:185-191 | Appends the four commands of one mesh. |
| Compose.IblLayout | src/passes/compose.rs:154-196 | Four fragment slots: the BRDF as a filterable D2 float texture, two filterable Cube textures, and a filtering sampler. |
| Compose.IblEntries | src/passes/compose.rs:81-102 | Four entries with bindings 0 to 3: the BRDF view, the irradiance view, the specular view, then the sampler. |
| Compose.IblGroupMatches | src/passes/compose.rs:81-102 | The IBL group matches its layout if and only if none of its three textures has a depth format. |
| Compose.BrdfHalves | src/passes/compose.rs:38-50 | It succeeds if and only if the format is A32B32G32R32F and the file holds `16wh` bytes. It then gives `4wh` halves, element `i` decoded from bytes `4i..4i+3`. |
| Compose.BrdfUploadCoversTexture | src/passes/compose.rs:51-63 | The BRDF upload's extent is the texture's size, and its byte count equals the row pitch times the rows. |
| Compose.LoadBrdf | src/passes/compose.rs:34-63 | It succeeds if and only if the BRDF file is present and convertible, and then appends the texture with its upload. A panic creates nothing. |
| Compose.Ibl.constructor | src/passes/compose.rs:104-110 | Holds the given textures, sampler and group. |
| Compose.Ibl.New | src/passes/compose.rs:29-111 | It succeeds if and only if the BRDF and both cubemaps, with their default paths, load. Textures are appended in the order BRDF, diffuse, specular; then the sampler, then a group matching the layout. |
| Compose.Ibl.Update | src/passes/compose.rs:113-152 | A given irradiance path destroys the old diffuse texture even if loading then panics. On success exactly the replaced textures are destroyed, a `None` argument keeps its cubemap, the BRDF and sampler stay, and the group is always rebuilt. |
| Compose.DestroyAndLoad | src/passes/compose.rs:120-128 | The previous texture is destroyed even if the load then panics. On success the new cubemap's record is appended and its id returned; nothing else changes. |
| Compose.ComposePipelineDesc | src/passes/compose.rs:216-262 | Groups scene, G-buffers, lighting, IBL; one Rgba16Float target; no depth. |
| Compose.ComposePassFitsPipeline | src/passes/compose.rs:272-293 | The groups fit if and only if each was made against its slot's layout. Groups 0 to 3 are bound in order and one draw comes last. |
| Compose.ComposePass.constructor | src/passes/compose.rs:204-214 | Holds the IBL and the pipeline. |
| Compose.ComposePass.New | src/passes/compose.rs:204-214 | It succeeds if and only if the IBL loads, and then builds the pipeline with `ComposePipelineDesc`. |
| Compose.ComposePass.Pass | src/passes/compose.rs:264-295 | Appends one pass that clears to black, binds the four groups and draws 6 vertices, 1 instance. |
| Compose.ComposePass.Reload | src/passes/compose.rs:303-311 | Only the pipeline is replaced, with the same description. The IBL and the textures are unchanged. |
| Skybox.SkyboxLayout | src/passes/skybox.rs:91-113 | A filterable Cube texture at 0 and a filtering sampler at 1, both fragment-visible. |
| Skybox.SkyboxEntries | src/passes/skybox.rs:39-52 | Two entries: the cubemap view at binding 0 and the sampler at binding 1. |
| Skybox.SkyboxGroupMatches | src/passes/skybox.rs:39-52 | The group matches the layout if and only if the cubemap is not a depth format. |
| Skybox.SkyboxPipelineDesc | src/passes/skybox.rs:115-165 | Scene, then cubemap group. One Rgba16Float target, depth LessEqual with writes. |
| Skybox.SkyboxPassFitsPipeline | src/passes/skybox.rs:175-200 | The groups fit if and only if each was made against its slot's layout. The draw of 36 vertices comes last. |
| Skybox.SkyboxPass.constructor | src/passes/skybox.rs:53-59 | Holds the given fields. |
| Skybox.SkyboxPass.New | src/passes/skybox.rs:25-60 | It succeeds if and only if the configured or default cubemap loads. It then creates the sampler, pipeline and a matching group. |
| Skybox.SkyboxPass.UpdateCubemap | src/passes/skybox.rs:62-89 | A failed load changes neither the cubemap nor the group, and destroys nothing. On success exactly the old cubemap is destroyed, and the new one and its group replace the old. The sampler and pipeline stay. |
| Skybox.SkyboxPass.Pass | src/passes/skybox.rs:167-202 | Appends one pass that loads and stores colour and depth, binds scene and cubemap, and draws 36 vertices. |
| Skybox.SkyboxPass.Reload | src/passes/skybox.rs:210-217 | Only the pipeline is replaced; the cubemap and group are unchanged. |

## Left out

- Labels: debug labels of every wgpu object play no part in the model.
- `create_buffer` in the loader (vertex and index buffer allocation): the model keeps the buffer contents as the mesh's sequences.
- u32 arithmetic: widths, heights, byte counts and offsets are unbounded naturals. `2^mip` overflowing u32 is modelled as a panic in `Cubemaps.UploadFace`; other products that could overflow, such as the BRDF's `4 * 4 * w * h`, are not.
- Compose.BrdfHalves: does not model the u32 overflow of `4 * 4 * w * h`, because sizes are unbounded naturals.
- f32 rounding: floats are reals, and glam and half-float operations are symbolic terms. The f64 to f32 cast of cursor positions is not modelled.
- Cameras.BuildUniforms: names the projection and view matrices and their product, not their entries, because trigonometry and matrix algebra are symbolic.
- The mikktspace algorithm: the tangent generator is given as the list of `set_tangent_encoded` calls it makes. Mikktspace reads position, normal and texture coordinate of every corner before it writes (`src/tangent_generation.rs:21-34`), so the model's outcome agrees with the source's only for a generator that writes every corner.
- File I/O, DDS parsing and glTF import: files are maps from path to parsed DDS, and the import result is a parameter.
- BRDF texture creation: `Texture::new_from_bytes` is not part of this model. The BRDF texture is taken to be a single-level `Rgba16Float` texture written with `8 * w` bytes per row.
- `Material::new`, `LightingUniform` and `SceneUniformData::shadow` are not part of this model. The lighting layout is a parameter of the compose pass.
- `Sampler::cubemap_sampler` is not part of this model; its descriptor is a parameter.
- ResourceManager.CreateBuffer: models only the overrun check of `write_buffer`. wgpu also refuses a data length that is not a multiple of 4, a buffer without COPY_DST, and the all-flags default usage, whose MAP_READ and MAP_WRITE need `MAPPABLE_PRIMARY_BUFFERS` while the renderer requests no features (`src/renderer.rs:52`).
- Textures.CreateFromBytes: does not model wgpu's refusal of a `write_texture` whose data is shorter than the extent at the given row pitch; any length is accepted.
- wgpu validation beyond bind-group layout matching and depth-format slot checks is not modelled.
- Surface, adapter and device acquisition: the surface texture is a parameter of `Render`.
- `ShadowUniformData::new` and `ShadowData::new`: float geometry, left out; the uniform holds a matrix the model takes as given.
- SSAO, FXAA and tone mapping passes, the pipeline builders module, the spring, the shadow-map wrapper, `main.rs` and the texture debugging view: outside the modelled core.
- Presentation: a frame's submission and presentation are entries in the renderer's log.
- Resource lifetime: dropping Rust values (and the wgpu objects they own) is not modelled; only explicit `destroy` calls mark textures destroyed.

## Findings

| source | as written | input that shows it | evidently intended | confidence | as-written member | corrected member |
|---|---|---|---|---|---|---|
| src/resource_manager.rs:219-231 | The sampler loop of `create_bind_group_layout` pushes each sampler entry at binding `i` but never increments `i`. Every sampler gets binding `nt + nb`. | A layout descriptor with two samplers (and no textures or buffers) gives two entries at binding 0. `create_bind_group` numbers the matching group's samplers 0 and 1, so the two disagree, and wgpu refuses a layout with a repeated binding. | Sampler `k` at binding `nt + nb + k`, as `create_bind_group` numbers it. | not executed | ResourceManager.CreateBindGroupLayoutAsWritten, ResourceManager.AsWrittenLayoutRejectsTwoSamplers | ResourceManager.CreateBindGroupLayout, ResourceManager.LayoutMatchesGroup |

No other module of the model builds a layout through the resource manager. The renderer's
own layouts have at most one sampler each, so they are unaffected.
