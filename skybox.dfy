/** The skybox pass: a cubemap drawn behind the scene, read through a two-entry bind group,
    with the cubemap hot-swappable at run time. */
module Skybox {
  import opened Wrappers
  import opened Gpu
  import opened Cubemaps
  import Textures
  import Resources

  /** `Skybox::cubemap_bind_group_layout`: a filterable cube texture at binding 0 and a
      filtering sampler at binding 1, both read by fragment shaders. */
  function SkyboxLayout(): (l: seq<LayoutEntry>)
    ensures |l| == 2
    ensures forall i | 0 <= i < 2 :: l[i].binding == i && l[i].visibility == {Fragment}
    ensures l[0].ty == TextureSlot(FloatSample(true), Cube, false)
    ensures l[1].ty == SamplerSlot(Filtering)
  {
    [LayoutEntry(0, {Fragment}, TextureSlot(FloatSample(true), Cube, false)),
     LayoutEntry(1, {Fragment}, SamplerSlot(Filtering))]
  }

  /** The skybox bind group's entries: the cube view at 0, the sampler at 1. */
  function SkyboxEntries(cubemap: Cubemap, sampler: SamplerId): (e: seq<GroupEntry>)
    ensures |e| == 2 && e[0].binding == 0 && e[1].binding == 1
    ensures e[0].resource.TextureView? && e[0].resource.texture == cubemap.texture
    ensures e[1].resource == SamplerResource(sampler)
  {
    [GroupEntry(0, cubemap.View()), GroupEntry(1, SamplerResource(sampler))]
  }

  /** The group fits its layout exactly when the cubemap's format is not a depth format. */
  lemma SkyboxGroupMatches(cubemap: Cubemap, sampler: SamplerId)
    ensures Matches(SkyboxEntries(cubemap, sampler), SkyboxLayout()) <==> !IsDepthFormat(cubemap.format)
  {
    var es, l := SkyboxEntries(cubemap, sampler), SkyboxLayout();
    if Matches(es, l) {
      assert Fits(es[0].resource, l[0].ty);
    }
  }

  /** `Skybox::pipeline`: scene uniform at group 0, the cubemap group at 1, one `Rgba16Float`
      target, depth test `LessEqual` with writes, no culling. */
  function SkyboxPipelineDesc(): (p: PipelineDesc)
    ensures p.layouts == [Resources.UnsizedUniformLayout(), SkyboxLayout()]
    ensures p.hasFragment && p.targets == [Rgba16Float] && !p.cullBack
    ensures p.depth == Some(DepthState(Textures.DepthFormat, true, LessEqual))
  {
    PipelineDesc([Resources.UnsizedUniformLayout(), SkyboxLayout()], true, [Rgba16Float],
      Some(DepthState(Textures.DepthFormat, true, LessEqual)), false)
  }

  /** The skybox pass draws over what earlier passes left: colour and depth are loaded, not
      cleared, and both are stored. */
  function SkyboxRenderPass(output: nat, depth: nat, commands: seq<Command>): RenderPass
  {
    RenderPass(Some("Skybox"), [ColorAttachment(output, Load, true)], Some(DepthAttachment(depth, Load, true)), commands)
  }

  /** The commands of `Skybox::pass`: the pipeline, the scene and cubemap groups, and one
      draw of the 36 vertices of a cube. */
  function SkyboxCommands(pipeline: nat, scene: BindGroup, cubemap: BindGroup): seq<Command>
  {
    [SetPipeline(pipeline), SetBindGroup(0, scene), SetBindGroup(1, cubemap), Draw(Range(0, 36), Range(0, 1))]
  }

  /** The groups the skybox pass binds fit its pipeline exactly when each was created against
      the layout of its slot; the draw comes last. */
  lemma SkyboxPassFitsPipeline(pipeline: nat, scene: BindGroup, cubemap: BindGroup)
    ensures var cs := SkyboxCommands(pipeline, scene, cubemap);
      && (GroupsFitPipeline(cs, SkyboxPipelineDesc()) <==>
            scene.layout == Resources.UnsizedUniformLayout() && cubemap.layout == SkyboxLayout())
      && (forall i | 0 <= i < |cs| && cs[i].SetBindGroup? :: cs[i].index == i - 1)
      && (forall i | 0 <= i < |cs| :: cs[i].Draw? <==> i == |cs| - 1)
  {
    var cs := SkyboxCommands(pipeline, scene, cubemap);
    if GroupsFitPipeline(cs, SkyboxPipelineDesc()) {
      assert cs[1].SetBindGroup? && cs[2].SetBindGroup?;
    }
  }

  /** `Skybox`: the pipeline, the cubemap, its sampler and the bind group over the two. */
  class SkyboxPass {
    var pipeline: Pipeline
    var cubemap: Cubemap
    const cubemapSampler: SamplerId
    var cubemapBindGroup: BindGroup

    constructor(pipeline: Pipeline, cubemap: Cubemap, sampler: SamplerId, group: BindGroup)
      ensures this.pipeline == pipeline && this.cubemap == cubemap
      ensures cubemapSampler == sampler && cubemapBindGroup == group
    {
      this.pipeline, this.cubemap := pipeline, cubemap;
      cubemapSampler, cubemapBindGroup := sampler, group;
    }

    /** The bind group is the one over the current cubemap and the sampler. */
    predicate Valid()
      reads this
    {
      cubemapBindGroup.layout == SkyboxLayout() && cubemapBindGroup.entries == SkyboxEntries(cubemap, cubemapSampler)
    }

    /** `Skybox::new`: the cubemap from the configured path or the default file, the sampler,
        the shader, the pipeline, then the bind group. */
    static method New(device: Device, files: map<string, Dds>, skybox: Option<string>, samplerDesc: SamplerDesc)
        returns (r: Fallible<SkyboxPass>)
      modifies device
      ensures r.Done? <==> Loadable(files, PathOr(skybox))
      ensures r.Done? ==> var n := |old(device.textures)|;
        && fresh(r.value) && r.value.Valid()
        && r.value.cubemap == Cubemap(Rgba16Float, n)
        && device.textures == old(device.textures) + [
             TextureRecord(CubemapDesc(files[PathOr(skybox)]), false, Uploads(files[PathOr(skybox)]))]
        && r.value.cubemapSampler == |old(device.samplers)| && device.samplers == old(device.samplers) + [samplerDesc]
        && r.value.pipeline == Pipeline(old(device.handles) + 1, old(device.handles), SkyboxPipelineDesc())
        && r.value.cubemapBindGroup.id == old(device.handles) + 2
    {
      var cubemap := FromDds(device, files, PathOr(skybox));
      if cubemap.Panic? {
        return Panic(cubemap.message);
      }
      var sampler := device.CreateSampler(samplerDesc);
      var shader := device.NewHandle();
      var pid := device.NewHandle();
      var gid := device.NewHandle();
      var s := new SkyboxPass(Pipeline(pid, shader, SkyboxPipelineDesc()), cubemap.value, sampler,
        BindGroup(gid, SkyboxLayout(), SkyboxEntries(cubemap.value, sampler)));
      r := Done(s);
    }

    /** `Skybox::update_cubemap`: the new cubemap is loaded and its bind group built BEFORE
        the old texture is destroyed, so a file that fails to load leaves the old cubemap, its
        group and every texture untouched. On success exactly the old cubemap is destroyed;
        the sampler and the pipeline stay. */
    method UpdateCubemap(device: Device, files: map<string, Dds>, path: string) returns (r: Fallible<()>)
      requires cubemap.texture < |device.textures|
      modifies this, device
      ensures r.Done? <==> Loadable(files, path)
      ensures pipeline == old(pipeline)
      ensures r.Panic? ==>
        && cubemap == old(cubemap) && cubemapBindGroup == old(cubemapBindGroup)
        && DestroysExactly(old(device.textures), device.textures, {})
      ensures r.Done? ==> var n := |old(device.textures)|;
        && Valid()
        && DestroysExactly(old(device.textures), device.textures, {old(cubemap.texture)})
        && device.textures == old(device.textures)[old(cubemap.texture) := old(device.textures[cubemap.texture]).(destroyed := true)]
             + [TextureRecord(CubemapDesc(files[path]), false, Uploads(files[path]))]
        && cubemap == Cubemap(Rgba16Float, n)
        && cubemapBindGroup.id == old(device.handles) && device.handles == old(device.handles) + 1
      ensures device.samplers == old(device.samplers)
    {
      var loaded := FromDds(device, files, path);
      if loaded.Panic? {
        return Panic(loaded.message);
      }
      var id := device.NewHandle();
      var group := BindGroup(id, SkyboxLayout(), SkyboxEntries(loaded.value, cubemapSampler));
      device.DestroyTexture(cubemap.texture);
      cubemap := loaded.value;
      cubemapBindGroup := group;
      r := Done(());
    }

    /** `Skybox::pass`: one render pass appended to the frame's encoder. */
    method Pass(scene: BindGroup, output: nat, depth: nat, encoder: CommandEncoder)
      modifies encoder
      ensures encoder.passes ==
        old(encoder.passes) + [SkyboxRenderPass(output, depth, SkyboxCommands(pipeline.id, scene, cubemapBindGroup))]
    {
      encoder.BeginRenderPass(Some("Skybox"), [ColorAttachment(output, Load, true)], Some(DepthAttachment(depth, Load, true)));
      ghost var before := old(encoder.passes);
      assert encoder.passes == before + [SkyboxRenderPass(output, depth, [])];
      var c0, c1 := SetPipeline(pipeline.id), SetBindGroup(0, scene);
      var c2, c3 := SetBindGroup(1, cubemapBindGroup), Draw(Range(0, 36), Range(0, 1));
      encoder.Record(c0);
      assert [] + [c0] == [c0];
      assert encoder.passes == before + [SkyboxRenderPass(output, depth, [c0])];
      encoder.Record(c1);
      assert [c0] + [c1] == [c0, c1];
      assert encoder.passes == before + [SkyboxRenderPass(output, depth, [c0, c1])];
      encoder.Record(c2);
      assert [c0, c1] + [c2] == [c0, c1, c2];
      assert encoder.passes == before + [SkyboxRenderPass(output, depth, [c0, c1, c2])];
      encoder.Record(c3);
      assert [c0, c1, c2] + [c3] == [c0, c1, c2, c3];
      assert encoder.passes == before + [SkyboxRenderPass(output, depth, [c0, c1, c2, c3])];
    }

    /** `reload`: a new pipeline from the new shader with the same description; the cubemap,
        the sampler and the bind group stay. */
    method Reload(device: Device, shader: nat)
      modifies this`pipeline, device
      ensures pipeline == Pipeline(old(device.handles), shader, SkyboxPipelineDesc())
      ensures cubemap == old(cubemap) && cubemapBindGroup == old(cubemapBindGroup)
      ensures device.textures == old(device.textures) && device.samplers == old(device.samplers)
    {
      var id := device.NewHandle();
      pipeline := Pipeline(id, shader, SkyboxPipelineDesc());
    }
  }
}
