/** The GPU as the renderer sees it through wgpu: texture and sampler descriptors, bind-group
    layouts and bind groups, a device owning a table of textures (live or destroyed, each with
    the writes the queue made to it), and a command encoder whose render passes are
    append-only command logs. */
module Gpu {
  import opened Wrappers
  import opened Math

  datatype TextureFormat =
    | Rgba8UnormSrgb | Rgba8Unorm | Rgba16Float | Rgba32Float | Rg16Float
    | Bgra8UnormSrgb | Depth32Float | Depth24Plus
      /** any other colour format of wgpu's enumeration */
    | OtherFormat(code: nat)

  predicate IsDepthFormat(f: TextureFormat)
  {
    f == Depth32Float || f == Depth24Plus
  }

  datatype TextureUsage = CopySrc | CopyDst | TextureBinding | StorageBinding | RenderAttachment

  /** `wgpu::TextureUsages::all()` */
  const AllTextureUsages: set<TextureUsage> :=
    {CopySrc, CopyDst, TextureBinding, StorageBinding, RenderAttachment}

  datatype BufferUsage =
    | MapRead | MapWrite | CopySrcBuffer | CopyDstBuffer | IndexBuffer | VertexBuffer
    | UniformBuffer | StorageBuffer | IndirectBuffer | QueryResolve

  /** `wgpu::BufferUsages::all()` */
  const AllBufferUsages: set<BufferUsage> :=
    {MapRead, MapWrite, CopySrcBuffer, CopyDstBuffer, IndexBuffer, VertexBuffer,
     UniformBuffer, StorageBuffer, IndirectBuffer, QueryResolve}

  datatype ShaderStage = Vertex | Fragment | Compute

  /** `wgpu::ShaderStages::all()` */
  const AllStages: set<ShaderStage> := {Vertex, Fragment, Compute}

  datatype ViewDimension = D2 | D2Array | Cube
  datatype SampleType = FloatSample(filterable: bool) | DepthSample
  datatype SamplerBindingType = Filtering | NonFiltering | Comparison

  datatype BindingType =
    | TextureSlot(sampleType: SampleType, viewDimension: ViewDimension, multisampled: bool)
    | UniformSlot(minBindingSize: Option<nat>)
    | SamplerSlot(samplerType: SamplerBindingType)

  /** `NonZeroU64::new`: no value for zero. */
  function NonZero(n: nat): (r: Option<nat>)
    ensures r.None? <==> n == 0
    ensures r.Some? ==> r.value == n
  {
    if n == 0 then None else Some(n)
  }

  datatype LayoutEntry = LayoutEntry(binding: nat, visibility: set<ShaderStage>, ty: BindingType)

  type TextureId = nat
  type BufferId = nat
  type SamplerId = nat

  /** What a bind-group entry binds: a texture view (with the format and dimension of the
      view), a whole buffer, or a sampler. */
  datatype Resource =
    | TextureView(texture: TextureId, format: TextureFormat, dimension: ViewDimension)
    | WholeBuffer(buffer: BufferId)
    | SamplerResource(sampler: SamplerId)

  datatype GroupEntry = GroupEntry(binding: nat, resource: Resource)

  /** A bind group: its handle, the entries of the layout it was created against, and its own
      entries. wgpu identifies equal layout descriptors, so a group fits a pipeline slot when
      the two layouts are equal. */
  datatype BindGroup = BindGroup(id: nat, layout: seq<LayoutEntry>, entries: seq<GroupEntry>)

  /** A resource may fill a slot of the given type. */
  predicate Fits(r: Resource, ty: BindingType)
  {
    match ty
    case TextureSlot(st, dim, _) =>
      r.TextureView? && r.dimension == dim && (st == DepthSample <==> IsDepthFormat(r.format))
    case UniformSlot(_) => r.WholeBuffer?
    case SamplerSlot(_) => r.SamplerResource?
  }

  predicate DistinctBindings(layout: seq<LayoutEntry>)
  {
    forall i, j | 0 <= i < j < |layout| :: layout[i].binding != layout[j].binding
  }

  /** The entries of a bind group fill the slots of a layout one by one: same count, same
      binding numbers in the same order, each resource of the kind its slot asks for, and no
      binding number used twice in the layout. (wgpu matches by binding number in any order;
      every group of the renderer lists its entries in the layout's order.) */
  predicate Matches(entries: seq<GroupEntry>, layout: seq<LayoutEntry>)
  {
    && |entries| == |layout|
    && DistinctBindings(layout)
    && (forall i | 0 <= i < |entries| ::
          entries[i].binding == layout[i].binding && Fits(entries[i].resource, layout[i].ty))
  }

  datatype Extent = Extent(width: nat, height: nat, depthOrLayers: nat)

  datatype TextureDesc = TextureDesc(
    size: Extent, mipLevels: nat, sampleCount: nat, format: TextureFormat, usage: set<TextureUsage>)

  datatype TexelData = Bytes(bytes: seq<byte>) | Halves(halves: seq<Half>)

  /** One `queue.write_texture`: destination mip level and array layer (the x and y origin is
      always zero), the data layout, the copied extent and the data. */
  datatype TextureWrite = TextureWrite(
    mipLevel: nat, originLayer: nat, bytesPerRow: nat, rowsPerImage: nat, extent: Extent,
    data: TexelData)

  datatype TextureRecord = TextureRecord(desc: TextureDesc, destroyed: bool, writes: seq<TextureWrite>)

  datatype AddressMode = Repeat | ClampToEdge | MirrorRepeat | ClampToBorder
  datatype FilterMode = Nearest | Linear
  datatype CompareFunction = Never | Less | Equal | LessEqual | Greater | NotEqual | GreaterEqual | Always

  /** A sampler descriptor; the renderer always uses the same address mode on all three axes. */
  datatype SamplerDesc = SamplerDesc(
    addressMode: AddressMode, magFilter: FilterMode, minFilter: FilterMode, mipmapFilter: FilterMode,
    lodMinClamp: real, lodMaxClamp: real, compare: Option<CompareFunction>, anisotropyClamp: nat)

  /** `after` is the texture table `before` with exactly the textures in `gone` marked
      destroyed, possibly followed by new textures; no other record changes. */
  predicate DestroysExactly(before: seq<TextureRecord>, after: seq<TextureRecord>, gone: set<TextureId>)
  {
    && |before| <= |after|
    && forall id | 0 <= id < |before| ::
         after[id] == before[id].(destroyed := before[id].destroyed || id in gone)
  }

  /** Two steps that each destroy a set of textures destroy their union. */
  lemma DestroysExactlyThen(a: seq<TextureRecord>, b: seq<TextureRecord>, c: seq<TextureRecord>,
                            first: set<TextureId>, second: set<TextureId>)
    requires DestroysExactly(a, b, first) && DestroysExactly(b, c, second)
    ensures DestroysExactly(a, c, first + second)
  {
    forall id | 0 <= id < |a|
      ensures c[id] == a[id].(destroyed := a[id].destroyed || id in first + second)
    {
      assert b[id] == a[id].(destroyed := a[id].destroyed || id in first);
    }
  }

  /** The device (and its queue): a texture table indexed by id, the samplers created so far,
      and a counter from which buffers, bind groups, shader modules and pipelines take their
      handles. Nothing is ever removed from the table: destroying a texture marks it. */
  class Device {
    var textures: seq<TextureRecord>
    var samplers: seq<SamplerDesc>
    var handles: nat

    constructor()
      ensures textures == [] && samplers == [] && handles == 0
    {
      textures := [];
      samplers := [];
      handles := 0;
    }

    /** The ids of the textures not destroyed. */
    function Live(): (live: set<TextureId>)
      reads this
      ensures forall id: nat :: id in live <==> id < |textures| && !textures[id].destroyed
    {
      set id | 0 <= id < |textures| && !textures[id].destroyed
    }

    method CreateTexture(desc: TextureDesc) returns (id: TextureId)
      modifies this
      ensures id == |old(textures)|
      ensures textures == old(textures) + [TextureRecord(desc, false, [])]
      ensures samplers == old(samplers) && handles == old(handles)
    {
      id := |textures|;
      textures := textures + [TextureRecord(desc, false, [])];
    }

    method WriteTexture(id: TextureId, w: TextureWrite)
      requires id < |textures|
      modifies this
      ensures textures == old(textures)[id := old(textures)[id].(writes := old(textures)[id].writes + [w])]
      ensures samplers == old(samplers) && handles == old(handles)
    {
      textures := textures[id := textures[id].(writes := textures[id].writes + [w])];
    }

    method DestroyTexture(id: TextureId)
      requires id < |textures|
      modifies this
      ensures textures == old(textures)[id := old(textures)[id].(destroyed := true)]
      ensures samplers == old(samplers) && handles == old(handles)
    {
      textures := textures[id := textures[id].(destroyed := true)];
    }

    method CreateSampler(desc: SamplerDesc) returns (id: SamplerId)
      modifies this
      ensures id == |old(samplers)|
      ensures samplers == old(samplers) + [desc]
      ensures textures == old(textures) && handles == old(handles)
    {
      id := |samplers|;
      samplers := samplers + [desc];
    }

    /** A fresh handle for a buffer, bind group, shader module or pipeline. */
    method NewHandle() returns (h: nat)
      modifies this
      ensures h == old(handles) && handles == h + 1
      ensures textures == old(textures) && samplers == old(samplers)
    {
      h := handles;
      handles := handles + 1;
    }
  }

  /** The parts of the surface configuration the renderer reads. */
  datatype SurfaceConfig = SurfaceConfig(width: nat, height: nat, format: TextureFormat)

  datatype DepthState = DepthState(format: TextureFormat, writeEnabled: bool, compare: CompareFunction)

  /** The parts of a render-pipeline descriptor the renderer varies: the bind-group layouts in
      slot order, whether there is a fragment stage, the colour target formats, the depth state
      and whether back faces are culled. */
  datatype PipelineDesc = PipelineDesc(
    layouts: seq<seq<LayoutEntry>>, hasFragment: bool, targets: seq<TextureFormat>,
    depth: Option<DepthState>, cullBack: bool)

  datatype Pipeline = Pipeline(id: nat, shader: nat, desc: PipelineDesc)

  datatype Color = Color(r: real, g: real, b: real, a: real)

  /** `wgpu::Color::BLACK` */
  const Black := Color(0.0, 0.0, 0.0, 1.0)

  datatype LoadOp<T> = Clear(value: T) | Load

  /** Attachments name the texture whose view they use; the surface texture has its own id. */
  datatype ColorAttachment = ColorAttachment(view: nat, load: LoadOp<Color>, store: bool)
  datatype DepthAttachment = DepthAttachment(view: nat, load: LoadOp<real>, store: bool)

  datatype IndexFormat = Uint16 | Uint32
  datatype Range = Range(start: nat, end: nat)

  datatype Command =
    | SetPipeline(pipeline: nat)
    | SetBindGroup(index: nat, group: BindGroup)
    | SetIndexBuffer(buffer: BufferId, format: IndexFormat)
    | SetVertexBuffer(slot: nat, buffer: BufferId)
    | DrawIndexed(indices: Range, baseVertex: int, instances: Range)
    | Draw(vertices: Range, instances: Range)

  datatype RenderPass = RenderPass(
    name: Option<string>, colors: seq<ColorAttachment>, depth: Option<DepthAttachment>,
    commands: seq<Command>)

  /** Every `SetBindGroup` of a command log binds, at its slot, a group created against the
      layout the pipeline expects there. */
  predicate GroupsFitPipeline(commands: seq<Command>, pipeline: PipelineDesc)
  {
    forall i | 0 <= i < |commands| && commands[i].SetBindGroup? ::
      commands[i].index < |pipeline.layouts| && commands[i].group.layout == pipeline.layouts[commands[i].index]
  }

  /** A command encoder: the render passes begun on it, in order. Commands go to the pass
      begun last. */
  class CommandEncoder {
    var passes: seq<RenderPass>

    constructor()
      ensures passes == []
    {
      passes := [];
    }

    method BeginRenderPass(name: Option<string>, colors: seq<ColorAttachment>, depth: Option<DepthAttachment>)
      modifies this
      ensures passes == old(passes) + [RenderPass(name, colors, depth, [])]
    {
      passes := passes + [RenderPass(name, colors, depth, [])];
    }

    method Record(c: Command)
      requires passes != []
      modifies this
      ensures var last := |old(passes)| - 1;
        passes == old(passes)[last := old(passes)[last].(commands := old(passes)[last].commands + [c])]
    {
      var last := |passes| - 1;
      passes := passes[last := passes[last].(commands := passes[last].commands + [c])];
    }
  }
}
