/** The geometry pass of the deferred renderer: four colour targets (world position, albedo,
    normal, material) and a depth buffer, cleared, and then one indexed draw per mesh of the
    scene with the scene uniform, the mesh's material and the mesh's own uniform bound. */
module WriteGBuffers {
  import opened Wrappers
  import opened Gpu
  import opened Textures
  import Resources

  /** The geometry pass's own targets (this revision has no depth texture among them). */
  datatype GBuffers = GBuffers(position: Texture, albedo: Texture, normal: Texture, material: Texture)
  {
    /** The targets in attachment order. */
    function Targets(): seq<Texture>
    {
      [position, albedo, normal, material]
    }
  }

  /** The formats of the targets in attachment order: 32-bit float position, 8-bit rest. */
  const TargetFormats: seq<TextureFormat> := [Rgba32Float, Rgba8Unorm, Rgba8Unorm, Rgba8Unorm]

  /** `GBuffers::new`: four textures of the surface's size made by `create`, position first. */
  method NewGBuffers(device: Device, config: SurfaceConfig) returns (g: GBuffers)
    modifies device
    ensures var n := |old(device.textures)|;
      forall i | 0 <= i < 4 :: g.Targets()[i] == Texture(TargetFormats[i], n + i)
    ensures device.textures == old(device.textures) + [
      TextureRecord(Create(config.width, config.height, Some(Rgba32Float)).desc, false, []),
      TextureRecord(Create(config.width, config.height, Some(Rgba8Unorm)).desc, false, []),
      TextureRecord(Create(config.width, config.height, Some(Rgba8Unorm)).desc, false, []),
      TextureRecord(Create(config.width, config.height, Some(Rgba8Unorm)).desc, false, [])]
    ensures device.samplers == old(device.samplers) && device.handles == old(device.handles)
  {
    var position := Build(device, Create(config.width, config.height, Some(Rgba32Float)));
    var albedo := Build(device, Create(config.width, config.height, Some(Rgba8Unorm)));
    var normal := Build(device, Create(config.width, config.height, Some(Rgba8Unorm)));
    var material := Build(device, Create(config.width, config.height, Some(Rgba8Unorm)));
    g := GBuffers(position, albedo, normal, material);
  }

  /** The geometry pipeline: scene, material and mesh layouts in groups 0, 1 and 2, the four
      target formats in attachment order, no culling, depth tested with `Less` and written. */
  function WritePipelineDesc(materialLayout: seq<LayoutEntry>): (p: PipelineDesc)
    ensures p.layouts == [Resources.UnsizedUniformLayout(), materialLayout, Resources.UnsizedUniformLayout()]
    ensures p.hasFragment && p.targets == TargetFormats && !p.cullBack
    ensures p.depth == Some(DepthState(DepthFormat, true, Less))
  {
    PipelineDesc([Resources.UnsizedUniformLayout(), materialLayout, Resources.UnsizedUniformLayout()],
                 true, TargetFormats, Some(DepthState(DepthFormat, true, Less)), false)
  }

  /** The render pass `pass` begins: the four targets cleared to black and the depth buffer
      cleared to 1, all stored. */
  function GBufferPass(g: GBuffers, depth: TextureId, commands: seq<Command>): RenderPass
  {
    RenderPass(Some("Write GBuffers"),
      [ColorAttachment(g.position.texture, Clear(Black), true), ColorAttachment(g.albedo.texture, Clear(Black), true),
       ColorAttachment(g.normal.texture, Clear(Black), true), ColorAttachment(g.material.texture, Clear(Black), true)],
      Some(DepthAttachment(depth, Clear(1.0), true)), commands)
  }

  /** Attachment i of the pass is target i, cleared to black, in the format the pipeline
      declares for its target i. */
  lemma AttachmentsMatchTargets(g: GBuffers, depth: TextureId, commands: seq<Command>, materialLayout: seq<LayoutEntry>)
    requires forall i | 0 <= i < 4 :: g.Targets()[i].format == TargetFormats[i]
    ensures var pass, p := GBufferPass(g, depth, commands), WritePipelineDesc(materialLayout);
      && |pass.colors| == |p.targets| == 4
      && forall i | 0 <= i < 4 ::
           && pass.colors[i].view == g.Targets()[i].texture
           && g.Targets()[i].format == p.targets[i]
           && pass.colors[i].load == Clear(Black) && pass.colors[i].store
    ensures GBufferPass(g, depth, commands).depth == Some(DepthAttachment(depth, Clear(1.0), true))
  {
  }

  /** What the pass needs of a mesh: its material index, its uniform's bind group, and its
      buffers with the index count. */
  datatype DrawMesh = DrawMesh(materialIndex: nat, bindGroup: BindGroup, indexBuffer: BufferId,
                               vertexBuffer: BufferId, indexCount: nat)

  /** What the pass needs of a scene: the scene uniform's bind group, the materials' bind
      groups, and the meshes in scene order. */
  datatype DrawScene = DrawScene(sceneGroup: BindGroup, materialGroups: seq<BindGroup>, meshes: seq<DrawMesh>)

  /** The five commands for one mesh: its material in group 1, its uniform in group 2, its
      32-bit index buffer and its vertex buffer, and one draw of all its indices; an index
      past the materials panics. */
  function MeshCommands(materials: seq<BindGroup>, m: DrawMesh): (r: Fallible<seq<Command>>)
    ensures r.Done? <==> m.materialIndex < |materials|
  {
    if m.materialIndex >= |materials| then Panic("index out of bounds")
    else Done([SetBindGroup(1, materials[m.materialIndex]), SetBindGroup(2, m.bindGroup),
               SetIndexBuffer(m.indexBuffer, Uint32), SetVertexBuffer(0, m.vertexBuffer),
               DrawIndexed(Range(0, m.indexCount), 0, Range(0, 1))])
  }

  /** The commands for the meshes, in order; the first mesh whose material is missing ends
      the pass. */
  function MeshesCommands(materials: seq<BindGroup>, ms: seq<DrawMesh>): Fallible<seq<Command>>
  {
    if ms == [] then Done([])
    else match MeshesCommands(materials, ms[..|ms| - 1])
      case Panic(e) => Panic(e)
      case Done(init) =>
        match MeshCommands(materials, ms[|ms| - 1])
        case Panic(e) => Panic(e)
        case Done(last) => Done(init + last)
  }

  /** The commands of `pass`: the pipeline, the scene uniform in group 0, then the meshes. */
  function PassCommands(pipeline: Pipeline, scene: DrawScene): Fallible<seq<Command>>
  {
    match MeshesCommands(scene.materialGroups, scene.meshes)
    case Panic(e) => Panic(e)
    case Done(cs) => Done([SetPipeline(pipeline.id), SetBindGroup(0, scene.sceneGroup)] + cs)
  }

  /** The k-th block of five commands. */
  function Block(cs: seq<Command>, k: nat): seq<Command>
    requires 5 * k + 5 <= |cs|
  {
    cs[5 * k..5 * k + 5]
  }

  /** The mesh commands succeed exactly when every material index is in range, and are then
      one block of five per mesh, in mesh order. */
  lemma {:induction false} MeshesCommandsShape(materials: seq<BindGroup>, ms: seq<DrawMesh>)
    ensures MeshesCommands(materials, ms).Done? <==> forall k | 0 <= k < |ms| :: ms[k].materialIndex < |materials|
    ensures MeshesCommands(materials, ms).Done? ==>
      var cs := MeshesCommands(materials, ms).value;
      && |cs| == 5 * |ms|
      && forall k | 0 <= k < |ms| :: Block(cs, k) == MeshCommands(materials, ms[k]).value
    decreases |ms|
  {
    if ms != [] {
      var init := ms[..|ms| - 1];
      MeshesCommandsShape(materials, init);
      assert forall k | 0 <= k < |init| :: init[k] == ms[k];
      if MeshesCommands(materials, ms).Done? {
        var before := MeshesCommands(materials, init).value;
        var cs := MeshesCommands(materials, ms).value;
        assert cs == before + MeshCommands(materials, ms[|ms| - 1]).value;
        forall k | 0 <= k < |ms|
          ensures Block(cs, k) == MeshCommands(materials, ms[k]).value
        {
          if k < |init| {
            assert Block(cs, k) == Block(before, k);
          } else {
            assert Block(cs, k) == cs[|before|..];
          }
        }
      }
    }
  }

  /** The commands of the first `next = i + 1` meshes extend those of the first `i` by
      the commands of mesh `i`, or panic with them. */
  lemma MeshesCommandsStep(materials: seq<BindGroup>, ms: seq<DrawMesh>, i: nat, next: nat)
    requires next == i + 1 <= |ms|
    ensures var prev, cur, mine := MeshesCommands(materials, ms[..i]), MeshesCommands(materials, ms[..next]), MeshCommands(materials, ms[i]);
      if prev.Done? && mine.Done? then cur == Done(prev.value + mine.value) else cur.Panic?
  {
    assert ms[..next][..i] == ms[..i];
    assert ms[..next][i] == ms[i];
  }

  /** Once the commands of a prefix of the meshes panic, those of all meshes do. */
  lemma {:induction false} MeshesFailurePersists(materials: seq<BindGroup>, ms: seq<DrawMesh>, k: nat)
    requires k <= |ms| && MeshesCommands(materials, ms[..k]).Panic?
    ensures MeshesCommands(materials, ms).Panic?
    decreases |ms| - k
  {
    if k < |ms| {
      assert ms[..k + 1][..k] == ms[..k];
      MeshesFailurePersists(materials, ms, k + 1);
    } else {
      assert ms[..k] == ms;
    }
  }

  /** Past the first two commands, the pass is one block of five per mesh, in mesh order. */
  lemma PassBlocks(pipeline: Pipeline, scene: DrawScene)
    requires PassCommands(pipeline, scene).Done?
    ensures var cs, n := PassCommands(pipeline, scene).value, |scene.meshes|;
      && |cs| == 2 + 5 * n
      && cs[0] == SetPipeline(pipeline.id) && cs[1] == SetBindGroup(0, scene.sceneGroup)
      && (forall k | 0 <= k < n :: MeshCommands(scene.materialGroups, scene.meshes[k]).Done? &&
            cs[2 + 5 * k..7 + 5 * k] == MeshCommands(scene.materialGroups, scene.meshes[k]).value)
  {
    MeshesCommandsShape(scene.materialGroups, scene.meshes);
    var ms := MeshesCommands(scene.materialGroups, scene.meshes).value;
    var cs := PassCommands(pipeline, scene).value;
    assert cs == [SetPipeline(pipeline.id), SetBindGroup(0, scene.sceneGroup)] + ms;
    forall k | 0 <= k < |scene.meshes|
      ensures cs[2 + 5 * k..7 + 5 * k] == MeshCommands(scene.materialGroups, scene.meshes[k]).value
    {
      assert cs[2 + 5 * k..7 + 5 * k] == Block(ms, k);
    }
  }

  /** Position `i` past the first two is entry `j` of block `k`. */
  lemma SplitIndex(i: int, k: int, j: int)
    requires i >= 2 && k == (i - 2) / 5 && j == (i - 2) % 5
    ensures k >= 0 && 0 <= j < 5 && i == 2 + 5 * k + j
  {
  }

  /** The pass binds the pipeline first and the scene uniform in group 0 once, right after;
      then for each mesh, in order, its material, its uniform, its buffers and one indexed
      draw of its whole index range. Nothing else is drawn. */
  lemma {:induction false} PassDrawsEachMeshOnce(pipeline: Pipeline, scene: DrawScene)
    ensures PassCommands(pipeline, scene).Done? <==>
      forall k | 0 <= k < |scene.meshes| :: scene.meshes[k].materialIndex < |scene.materialGroups|
    ensures PassCommands(pipeline, scene).Done? ==>
      var cs := PassCommands(pipeline, scene).value;
      && |cs| == 2 + 5 * |scene.meshes|
      && cs[0] == SetPipeline(pipeline.id) && cs[1] == SetBindGroup(0, scene.sceneGroup)
      && (forall k | 0 <= k < |scene.meshes| ::
            var m := scene.meshes[k];
            cs[2 + 5 * k..7 + 5 * k] == [
              SetBindGroup(1, scene.materialGroups[m.materialIndex]), SetBindGroup(2, m.bindGroup),
              SetIndexBuffer(m.indexBuffer, Uint32), SetVertexBuffer(0, m.vertexBuffer),
              DrawIndexed(Range(0, m.indexCount), 0, Range(0, 1))])
      && (forall i | 0 <= i < |cs| :: cs[i].SetBindGroup? && cs[i].index == 0 <==> i == 1)
      && (forall i | 0 <= i < |cs| :: cs[i].DrawIndexed? <==> 2 <= i && (i - 2) % 5 == 4)
      && (forall i | 0 <= i < |cs| :: !cs[i].Draw?)
  {
    MeshesCommandsShape(scene.materialGroups, scene.meshes);
    if PassCommands(pipeline, scene).Done? {
      PassBlocks(pipeline, scene);
      var cs := PassCommands(pipeline, scene).value;
      forall i | 2 <= i < |cs|
        ensures !(cs[i].SetBindGroup? && cs[i].index == 0)
        ensures cs[i].DrawIndexed? <==> (i - 2) % 5 == 4
        ensures !cs[i].Draw?
      {
        PassCommandKind(pipeline, scene, i);
      }
    }
  }

  /** What kind of command stands at position `i` past the first two. */
  lemma PassCommandKind(pipeline: Pipeline, scene: DrawScene, i: int)
    requires PassCommands(pipeline, scene).Done?
    requires 2 <= i < |PassCommands(pipeline, scene).value|
    ensures var c := PassCommands(pipeline, scene).value[i];
      && !(c.SetBindGroup? && c.index == 0)
      && (c.DrawIndexed? <==> (i - 2) % 5 == 4)
      && !c.Draw?
  {
    PassBlocks(pipeline, scene);
    var cs := PassCommands(pipeline, scene).value;
    var k, j := (i - 2) / 5, (i - 2) % 5;
    SplitIndex(i, k, j);
    var block := MeshCommands(scene.materialGroups, scene.meshes[k]).value;
    assert cs[i] == cs[2 + 5 * k..7 + 5 * k][j];
    assert cs[i] == block[j];
  }

  /** Every group the pass binds was created against the layout the pipeline expects in its
      slot, given that the scene's, the materials' and the meshes' groups were made against
      their own layouts. */
  lemma PassFitsPipeline(pipeline: Pipeline, scene: DrawScene, materialLayout: seq<LayoutEntry>)
    requires pipeline.desc == WritePipelineDesc(materialLayout)
    requires scene.sceneGroup.layout == Resources.UnsizedUniformLayout()
    requires forall g | g in scene.materialGroups :: g.layout == materialLayout
    requires forall m | m in scene.meshes :: m.bindGroup.layout == Resources.UnsizedUniformLayout()
    requires PassCommands(pipeline, scene).Done?
    ensures GroupsFitPipeline(PassCommands(pipeline, scene).value, pipeline.desc)
  {
    var cs := PassCommands(pipeline, scene).value;
    forall i | 0 <= i < |cs| && cs[i].SetBindGroup?
      ensures cs[i].index < |pipeline.desc.layouts| && cs[i].group.layout == pipeline.desc.layouts[cs[i].index]
    {
      GroupFitsPipeline(pipeline, scene, materialLayout, i);
    }
  }

  lemma GroupFitsPipeline(pipeline: Pipeline, scene: DrawScene, materialLayout: seq<LayoutEntry>, i: int)
    requires pipeline.desc == WritePipelineDesc(materialLayout)
    requires scene.sceneGroup.layout == Resources.UnsizedUniformLayout()
    requires forall g | g in scene.materialGroups :: g.layout == materialLayout
    requires forall m | m in scene.meshes :: m.bindGroup.layout == Resources.UnsizedUniformLayout()
    requires PassCommands(pipeline, scene).Done?
    requires 0 <= i < |PassCommands(pipeline, scene).value|
    ensures var c := PassCommands(pipeline, scene).value[i];
      c.SetBindGroup? ==> c.index < |pipeline.desc.layouts| && c.group.layout == pipeline.desc.layouts[c.index]
  {
    PassBlocks(pipeline, scene);
    var cs := PassCommands(pipeline, scene).value;
    if i >= 2 {
      var k, j := (i - 2) / 5, (i - 2) % 5;
      SplitIndex(i, k, j);
      var m := scene.meshes[k];
      assert m in scene.meshes;
      assert cs[i] == cs[2 + 5 * k..7 + 5 * k][j];
      assert cs[i] == MeshCommands(scene.materialGroups, m).value[j];
      assert scene.materialGroups[m.materialIndex] in scene.materialGroups;
    }
  }

  class WriteGBuffersPass {
    const gbuffers: GBuffers
    const pipeline: Pipeline
    const depthBuffer: Texture

    /** `WriteGBuffers::new`: the shader, the targets, the pipeline, then a depth buffer of
        the surface's size. */
    constructor(device: Device, config: SurfaceConfig, materialLayout: seq<LayoutEntry>)
      modifies device
      ensures pipeline.desc == WritePipelineDesc(materialLayout)
      ensures var n := |old(device.textures)|;
        && (forall i | 0 <= i < 4 :: gbuffers.Targets()[i] == Texture(TargetFormats[i], n + i))
        && depthBuffer == Texture(DepthFormat, n + 4)
        && |device.textures| == n + 5
        && device.textures[n + 4] == TextureRecord(CreateDepthTexture(config).desc, false, [])
    {
      var shader := device.NewHandle();
      var g := NewGBuffers(device, config);
      var id := device.NewHandle();
      var depth := Build(device, CreateDepthTexture(config));
      gbuffers := g;
      pipeline := Pipeline(id, shader, WritePipelineDesc(materialLayout));
      depthBuffer := depth;
    }

    /** `WriteGBuffers::pass`: one render pass on the frame's encoder. When a mesh's material
        index is past the materials the indexing panics, with the pass begun and the meshes
        before it recorded. */
    method Pass(scene: DrawScene, encoder: CommandEncoder) returns (r: Fallible<()>)
      modifies encoder
      ensures r.Done? <==> PassCommands(pipeline, scene).Done?
      ensures r.Done? ==>
        encoder.passes == old(encoder.passes) + [GBufferPass(gbuffers, depthBuffer.texture, PassCommands(pipeline, scene).value)]
      ensures |encoder.passes| == |old(encoder.passes)| + 1
      ensures encoder.passes[..|old(encoder.passes)|] == old(encoder.passes)
    {
      ghost var before := old(encoder.passes);
      var prefix := Begin(scene, encoder);
      var ms := scene.meshes;
      var done: seq<Command> := [];
      assert prefix + done == prefix;
      var i := 0;
      while i < |ms|
        invariant 0 <= i <= |ms|
        invariant MeshesCommands(scene.materialGroups, ms[..i]) == Done(done)
        invariant encoder.passes == before + [GBufferPass(gbuffers, depthBuffer.texture, prefix + done)]
      {
        var next := i + 1;
        var m := ms[i];
        if m.materialIndex >= |scene.materialGroups| {
          MeshesCommandsStep(scene.materialGroups, ms, i, next);
          MeshesFailurePersists(scene.materialGroups, ms, next);
          return Panic("index out of bounds");
        }
        var block := MeshCommands(scene.materialGroups, m).value;
        MeshesCommandsStep(scene.materialGroups, ms, i, next);
        RecordMesh(encoder, scene.materialGroups[m.materialIndex], m);
        assert prefix + done + block == prefix + (done + block);
        assert encoder.passes == before + [GBufferPass(gbuffers, depthBuffer.texture, prefix + done + block)];
        done := done + block;
        i := next;
      }
      assert ms[..|ms|] == ms;
      r := Done(());
    }

    /** The render pass begun on the four targets and the depth buffer, all cleared, with
        the pipeline and the scene uniform in group 0 set. */
    method Begin(scene: DrawScene, encoder: CommandEncoder) returns (prefix: seq<Command>)
      modifies encoder
      ensures prefix == [SetPipeline(pipeline.id), SetBindGroup(0, scene.sceneGroup)]
      ensures encoder.passes == old(encoder.passes) + [GBufferPass(gbuffers, depthBuffer.texture, prefix)]
    {
      encoder.BeginRenderPass(Some("Write GBuffers"),
        [ColorAttachment(gbuffers.position.texture, Clear(Black), true), ColorAttachment(gbuffers.albedo.texture, Clear(Black), true),
         ColorAttachment(gbuffers.normal.texture, Clear(Black), true), ColorAttachment(gbuffers.material.texture, Clear(Black), true)],
        Some(DepthAttachment(depthBuffer.texture, Clear(1.0), true)));
      ghost var before := old(encoder.passes);
      assert encoder.passes == before + [GBufferPass(gbuffers, depthBuffer.texture, [])];
      var c0, c1 := SetPipeline(pipeline.id), SetBindGroup(0, scene.sceneGroup);
      encoder.Record(c0);
      assert [] + [c0] == [c0];
      assert encoder.passes == before + [GBufferPass(gbuffers, depthBuffer.texture, [c0])];
      encoder.Record(c1);
      prefix := [c0, c1];
      assert [c0] + [c1] == prefix;
    }

    /** The five calls of the loop body for one mesh. */
    static method RecordMesh(encoder: CommandEncoder, material: BindGroup, m: DrawMesh)
      requires encoder.passes != []
      modifies encoder
      ensures var last := |old(encoder.passes)| - 1;
        encoder.passes == old(encoder.passes)[last := old(encoder.passes)[last].(commands :=
          old(encoder.passes)[last].commands + [
            SetBindGroup(1, material), SetBindGroup(2, m.bindGroup),
            SetIndexBuffer(m.indexBuffer, Uint32), SetVertexBuffer(0, m.vertexBuffer),
            DrawIndexed(Range(0, m.indexCount), 0, Range(0, 1))])]
    {
      ghost var p := encoder.passes;
      ghost var last := |p| - 1;
      ghost var cs := p[last].commands;
      var c0, c1, c2 := SetBindGroup(1, material), SetBindGroup(2, m.bindGroup), SetIndexBuffer(m.indexBuffer, Uint32);
      var c3, c4 := SetVertexBuffer(0, m.vertexBuffer), DrawIndexed(Range(0, m.indexCount), 0, Range(0, 1));
      encoder.Record(c0);
      assert encoder.passes == p[last := p[last].(commands := cs + [c0])];
      encoder.Record(c1);
      assert cs + [c0] + [c1] == cs + [c0, c1];
      assert encoder.passes == p[last := p[last].(commands := cs + [c0, c1])];
      encoder.Record(c2);
      assert cs + [c0, c1] + [c2] == cs + [c0, c1, c2];
      assert encoder.passes == p[last := p[last].(commands := cs + [c0, c1, c2])];
      encoder.Record(c3);
      assert cs + [c0, c1, c2] + [c3] == cs + [c0, c1, c2, c3];
      assert encoder.passes == p[last := p[last].(commands := cs + [c0, c1, c2, c3])];
      encoder.Record(c4);
      assert cs + [c0, c1, c2, c3] + [c4] == cs + [c0, c1, c2, c3, c4];
      assert encoder.passes == p[last := p[last].(commands := cs + [c0, c1, c2, c3, c4])];
    }
  }
}
