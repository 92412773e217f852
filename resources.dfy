/** The forward-renderer resources: the scene and mesh uniforms with their bind groups, the
    depth texture, the interleaved vertex layout and the mesh pipeline's layout order. */
module Resources {
  import opened Wrappers
  import opened Math
  import opened Gpu
  import opened Uniforms
  import Cameras

  /** What the scene uniform buffer holds. */
  datatype SceneUniformData = SceneUniformData(perspectiveView: Mat4, cameraPosition: Vec4Expr)

  /** `SceneUniformData::new`: the identity transform and a camera at the origin. */
  function NewSceneUniformData(): (d: SceneUniformData)
    ensures d.perspectiveView == Identity
    ensures d.cameraPosition == Vec4Lit(Vec4(0.0, 0.0, 0.0, 1.0))
  {
    SceneUniformData(Identity, Vec4Lit(Vec4(0.0, 0.0, 0.0, 1.0)))
  }

  /** `SceneUniformData::new_from_camera`: the camera's projection-view matrix and its eye as a
      point. */
  function SceneUniformFromCamera(c: Cameras.CameraState): (d: SceneUniformData)
    ensures d.cameraPosition == Extend(c.eye, 1.0)
    ensures d.perspectiveView.Mul? && d.perspectiveView.rhs == LookToLh(c.eye, c.front, Lit(c.up))
    ensures d.perspectiveView.lhs == PerspectiveLh(c.fovyDegrees, c.aspect, c.znear, c.zfar)
  {
    var (pv, position) := Cameras.BuildUniforms(c);
    SceneUniformData(pv, position)
  }

  /** A uniform-buffer slot at binding 0, visible to every stage, with no minimum size: the
      layout of both the scene and the mesh uniform. */
  function UnsizedUniformLayout(): (l: seq<LayoutEntry>)
    ensures |l| == 1 && l[0].binding == 0 && l[0].visibility == AllStages
    ensures l[0].ty == UniformSlot(None)
  {
    [LayoutEntry(0, AllStages, UniformSlot(None))]
  }

  /** `SceneUniform`: the buffer is never reassigned; `update` overwrites what it holds. */
  class SceneUniform {
    const uniformBuffer: BufferId
    const uniformBindGroup: BindGroup
    var contents: SceneUniformData

    constructor(device: Device, data: SceneUniformData)
      modifies device
      ensures contents == data
      ensures uniformBuffer == old(device.handles) && uniformBindGroup.id == uniformBuffer + 1
      ensures uniformBindGroup == BindGroup(uniformBindGroup.id, UnsizedUniformLayout(), [GroupEntry(0, WholeBuffer(uniformBuffer))])
      ensures device.handles == old(device.handles) + 2
      ensures device.textures == old(device.textures) && device.samplers == old(device.samplers)
    {
      var b := device.NewHandle();
      var g := device.NewHandle();
      uniformBuffer := b;
      uniformBindGroup := BindGroup(g, UnsizedUniformLayout(), [GroupEntry(0, WholeBuffer(b))]);
      contents := data;
    }

    method Update(data: SceneUniformData)
      modifies this`contents
      ensures contents == data
    {
      contents := data;
    }
  }

  /** What a mesh uniform buffer holds: the world matrix and the matrix for normals. */
  datatype MeshUniformData = MeshUniformData(world: Mat4, normal: Mat4)

  /** `MeshUniformData::new`: normals are transformed by the inverse of the transposed world
      matrix. */
  function NewMeshUniformData(world: Mat4): (d: MeshUniformData)
    ensures d.world == world && d.normal == Inverse(Transpose(world))
  {
    MeshUniformData(world, Inverse(Transpose(world)))
  }

  /** `Mesh`: a vertex buffer with its vertex count, and a uniform buffer with its bind group. */
  class Mesh {
    const vertexBuffer: BufferId
    const vertexCount: nat
    const uniformBuffer: BufferId
    const uniformBindGroup: BindGroup
    var contents: MeshUniformData

    constructor(device: Device, vertexBuffer: BufferId, vertexCount: nat, data: MeshUniformData)
      modifies device
      ensures this.vertexBuffer == vertexBuffer && this.vertexCount == vertexCount
      ensures contents == data
      ensures uniformBuffer == old(device.handles) && uniformBindGroup.id == uniformBuffer + 1
      ensures uniformBindGroup == BindGroup(uniformBindGroup.id, UnsizedUniformLayout(), [GroupEntry(0, WholeBuffer(uniformBuffer))])
      ensures device.handles == old(device.handles) + 2
      ensures device.textures == old(device.textures) && device.samplers == old(device.samplers)
    {
      var b := device.NewHandle();
      var g := device.NewHandle();
      this.vertexBuffer := vertexBuffer;
      this.vertexCount := vertexCount;
      uniformBuffer := b;
      uniformBindGroup := BindGroup(g, UnsizedUniformLayout(), [GroupEntry(0, WholeBuffer(b))]);
      contents := data;
    }

    method Update(data: MeshUniformData)
      modifies this`contents
      ensures contents == data
    {
      contents := data;
    }
  }

  /** A uniform group built as the constructors above build it fills its one-slot layout. */
  lemma UniformGroupMatches(g: BindGroup, buffer: BufferId)
    requires g == BindGroup(g.id, UnsizedUniformLayout(), [GroupEntry(0, WholeBuffer(buffer))])
    ensures Matches(g.entries, g.layout)
  {
  }

  const DepthFormat := Depth32Float

  /** The depth texture of the forward renderer, with a clamping sampler of its own. */
  datatype DepthTexture = DepthTexture(texture: TextureId, view: Resource, sampler: SamplerId)

  /** The depth texture's descriptor: surface-sized, one layer, one mip, one sample, in the
      depth format, usable as attachment and for sampling. */
  function DepthTextureDesc(config: SurfaceConfig): (d: TextureDesc)
    ensures d.size == Extent(config.width, config.height, 1)
    ensures d.mipLevels == 1 && d.sampleCount == 1
    ensures d.format == DepthFormat && IsDepthFormat(d.format)
    ensures d.usage == {RenderAttachment, TextureBinding}
  {
    TextureDesc(Extent(config.width, config.height, 1), 1, 1, DepthFormat, {RenderAttachment, TextureBinding})
  }

  /** The depth texture's sampler: clamped to edge, linear magnification and minification,
      nearest mip, level of detail between 0 and 100, no comparison. */
  function DepthSamplerDesc(): (d: SamplerDesc)
    ensures d.addressMode == ClampToEdge && d.compare.None?
    ensures d.lodMinClamp == 0.0 && d.lodMaxClamp == 100.0
  {
    SamplerDesc(ClampToEdge, Linear, Linear, Nearest, 0.0, 100.0, None, 1)
  }

  /** `Texture::create_depth_texture`. */
  method CreateDepthTexture(device: Device, config: SurfaceConfig) returns (t: DepthTexture)
    modifies device
    ensures t.texture == |old(device.textures)| && t.sampler == |old(device.samplers)|
    ensures device.textures == old(device.textures) + [TextureRecord(DepthTextureDesc(config), false, [])]
    ensures device.samplers == old(device.samplers) + [DepthSamplerDesc()]
    ensures t.view == TextureView(t.texture, DepthFormat, D2)
    ensures device.handles == old(device.handles)
  {
    var id := device.CreateTexture(DepthTextureDesc(config));
    var sampler := device.CreateSampler(DepthSamplerDesc());
    t := DepthTexture(id, TextureView(id, DepthFormat, D2), sampler);
  }

  datatype VertexFormat = Float32x2 | Float32x3

  function FormatSize(f: VertexFormat): nat
  {
    match f
    case Float32x2 => 8
    case Float32x3 => 12
  }

  datatype VertexAttribute = VertexAttribute(format: VertexFormat, offset: nat, location: nat)
  datatype VertexBufferLayout = VertexBufferLayout(stride: nat, attributes: seq<VertexAttribute>)

  /** `vertex_buffer_layout`: position, normal and texture coordinate of a vertex, packed
      back to back into 32 bytes. */
  function VertexLayout(): (l: VertexBufferLayout)
    ensures l.stride == 32 && |l.attributes| == 3
    ensures forall i | 0 <= i < 3 :: l.attributes[i].location == i
    ensures l.attributes[0].offset == 0
    ensures forall i | 0 <= i < 2 ::
      l.attributes[i].offset + FormatSize(l.attributes[i].format) == l.attributes[i + 1].offset
    ensures l.attributes[2].offset + FormatSize(l.attributes[2].format) == l.stride
  {
    VertexBufferLayout(8 * 4, [
      VertexAttribute(Float32x3, 0, 0),
      VertexAttribute(Float32x3, 3 * 4, 1),
      VertexAttribute(Float32x2, 6 * 4, 2)])
  }

  /** No two attributes of the vertex layout overlap, and each lies inside the stride. */
  lemma {:induction false} VertexAttributesDisjoint()
    ensures var l := VertexLayout();
      forall i, j | 0 <= i < j < |l.attributes| ::
        l.attributes[i].offset + FormatSize(l.attributes[i].format) <= l.attributes[j].offset
        && l.attributes[j].offset + FormatSize(l.attributes[j].format) <= l.stride
  {
    var l := VertexLayout();
    forall i, j | 0 <= i < j < |l.attributes|
      ensures l.attributes[i].offset + FormatSize(l.attributes[i].format) <= l.attributes[j].offset
      ensures l.attributes[j].offset + FormatSize(l.attributes[j].format) <= l.stride
    {
      assert l.attributes[1].offset == 12 && l.attributes[2].offset == 24;
    }
  }

  /** `mesh_pipeline`: the scene uniform's layout in group 0, the mesh's in group 1, one
      colour target in the surface format, back faces culled, depth tested with `Less` and
      written. */
  function MeshPipelineDesc(config: SurfaceConfig): (p: PipelineDesc)
    ensures p.layouts == [UnsizedUniformLayout(), UnsizedUniformLayout()]
    ensures p.hasFragment && p.targets == [config.format] && p.cullBack
    ensures p.depth == Some(DepthState(DepthFormat, true, Less))
  {
    PipelineDesc([UnsizedUniformLayout(), UnsizedUniformLayout()], true, [config.format],
                 Some(DepthState(DepthFormat, true, Less)), true)
  }
}
