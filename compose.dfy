/** The compose pass: image-based lighting from a BRDF lookup texture and two cubemaps
    (diffuse irradiance and prefiltered specular radiance), and one full-screen draw that reads
    the scene uniform, the geometry buffers, the lights and the IBL group. */
module Compose {
  import opened Wrappers
  import opened Math
  import opened Gpu
  import opened Textures
  import opened Cubemaps
  import Resources
  import Gbuffers

  /** The BRDF lookup table the IBL reads at start-up. */
  const BrdfPath := "resources/OCEANMAN_BRDF.dds"

  /** `IBL::bind_group_layout`: four fragment-visible slots, the BRDF table as a filterable 2D
      texture, the two radiance maps as filterable cube textures, and a filtering sampler. */
  function IblLayout(): (l: seq<LayoutEntry>)
    ensures |l| == 4
    ensures forall i | 0 <= i < 4 :: l[i].binding == i && l[i].visibility == {Fragment}
    ensures forall i | 0 <= i < 3 :: l[i].ty == TextureSlot(FloatSample(true), if i == 0 then D2 else Cube, false)
    ensures l[3].ty == SamplerSlot(Filtering)
  {
    [LayoutEntry(0, {Fragment}, TextureSlot(FloatSample(true), D2, false)),
     LayoutEntry(1, {Fragment}, TextureSlot(FloatSample(true), Cube, false)),
     LayoutEntry(2, {Fragment}, TextureSlot(FloatSample(true), Cube, false)),
     LayoutEntry(3, {Fragment}, SamplerSlot(Filtering))]
  }

  /** The IBL bind group's entries: 0 the BRDF table, 1 the diffuse map, 2 the specular map,
      3 the sampler. */
  function IblEntries(brdf: Texture, diffuse: Cubemap, specular: Cubemap, sampler: SamplerId): (e: seq<GroupEntry>)
    ensures |e| == 4 && forall k | 0 <= k < 4 :: e[k].binding == k
    ensures e[0].resource.TextureView? && e[0].resource.texture == brdf.texture
    ensures e[1].resource.TextureView? && e[1].resource.texture == diffuse.texture
    ensures e[2].resource.TextureView? && e[2].resource.texture == specular.texture
    ensures e[3].resource == SamplerResource(sampler)
  {
    [GroupEntry(0, brdf.View()), GroupEntry(1, diffuse.View()), GroupEntry(2, specular.View()),
     GroupEntry(3, SamplerResource(sampler))]
  }

  /** The IBL group fits its layout exactly when none of the three textures has a depth
      format (the BRDF view is 2D and the radiance views are cubes by construction). */
  lemma IblGroupMatches(brdf: Texture, diffuse: Cubemap, specular: Cubemap, sampler: SamplerId)
    ensures Matches(IblEntries(brdf, diffuse, specular, sampler), IblLayout())
        <==> !IsDepthFormat(brdf.format) && !IsDepthFormat(diffuse.format) && !IsDepthFormat(specular.format)
  {
    var es, l := IblEntries(brdf, diffuse, specular, sampler), IblLayout();
    if Matches(es, l) {
      assert Fits(es[0].resource, l[0].ty) && Fits(es[1].resource, l[1].ty) && Fits(es[2].resource, l[2].ty);
    }
  }

  /** The BRDF file's texels as half floats: the format must be A32B32G32R32F (an absent
      format fails the `unwrap`, another one panics), and the first `16 * w * h` bytes, which
      must exist, are read as `4 * w * h` little-endian floats, each narrowed. */
  function BrdfHalves(dds: Dds): (r: Fallible<seq<Half>>)
    ensures r.Done? <==> dds.d3dFormat == Some(A32B32G32R32F) && 16 * (dds.width * dds.height) <= |dds.data|
    ensures r.Done? ==> |r.value| == 4 * (dds.width * dds.height)
    ensures r.Done? ==> forall i | 0 <= i < |r.value| ::
      r.value[i] == FromF32Bits(LeWord(dds.data[4 * i], dds.data[4 * i + 1], dds.data[4 * i + 2], dds.data[4 * i + 3]))
  {
    if dds.d3dFormat.None? then Panic("called `Option::unwrap()` on a `None` value")
    else if dds.d3dFormat.value != A32B32G32R32F then Panic("Format is {:?}")
    else if |dds.data| < 16 * (dds.width * dds.height) then Panic("range end index out of range for slice")
    else Done(HalvesOf(dds.data[..16 * (dds.width * dds.height)]))
  }

  /** The BRDF texture: one level of the file's size, `Rgba16Float`, sampled and written to. */
  function BrdfDesc(dds: Dds): TextureDesc
  {
    TextureDesc(Extent(dds.width, dds.height, 1), 1, 1, Rgba16Float, {TextureBinding, CopyDst})
  }

  /** The single upload of the converted table: eight bytes (four half floats) per texel. */
  function BrdfUpload(dds: Dds): TextureWrite
    requires BrdfHalves(dds).Done?
  {
    TextureWrite(0, 0, 8 * dds.width, dds.height, Extent(dds.width, dds.height, 1), Halves(BrdfHalves(dds).value))
  }

  /** The upload covers the texture exactly: its extent is the texture's, and its data is as
      many bytes as its rows hold. */
  lemma BrdfUploadCoversTexture(dds: Dds)
    requires BrdfHalves(dds).Done?
    ensures BrdfUpload(dds).extent == BrdfDesc(dds).size
    ensures 2 * |BrdfUpload(dds).data.halves| == BrdfUpload(dds).bytesPerRow * BrdfUpload(dds).rowsPerImage
  {
    var w, h := dds.width, dds.height;
    assert (8 * w) * h == 2 * (4 * (w * h));
  }

  /** All files `IBL::new` reads can be read without a panic. */
  predicate IblLoadable(files: map<string, Dds>, irradiance: Option<string>, prefilter: Option<string>)
  {
    && BrdfPath in files && BrdfHalves(files[BrdfPath]).Done?
    && Loadable(files, PathOr(irradiance))
    && Loadable(files, PathOr(prefilter))
  }

  /** The BRDF block of `IBL::new`: read, check, convert, create and upload. */
  method LoadBrdf(device: Device, files: map<string, Dds>) returns (r: Fallible<Texture>)
    modifies device
    ensures r.Done? <==> BrdfPath in files && BrdfHalves(files[BrdfPath]).Done?
    ensures r.Done? ==>
      && r.value == Texture(Rgba16Float, |old(device.textures)|)
      && device.textures == old(device.textures) + [TextureRecord(BrdfDesc(files[BrdfPath]), false, [BrdfUpload(files[BrdfPath])])]
    ensures r.Panic? ==> device.textures == old(device.textures)
    ensures device.samplers == old(device.samplers) && device.handles == old(device.handles)
  {
    if BrdfPath !in files {
      return Panic("called `Result::unwrap()` on an `Err` value");
    }
    var dds := files[BrdfPath];
    if dds.d3dFormat.None? {
      return Panic("called `Option::unwrap()` on a `None` value");
    }
    if dds.d3dFormat.value != A32B32G32R32F {
      return Panic("Format is {:?}");
    }
    var len := 16 * (dds.width * dds.height);
    if |dds.data| < len {
      return Panic("range end index out of range for slice");
    }
    var halves := ConvertToHalves(dds.data[..len]);
    var id := device.CreateTexture(BrdfDesc(dds));
    var upload := TextureWrite(0, 0, 8 * dds.width, dds.height, Extent(dds.width, dds.height, 1), Halves(halves));
    assert upload == BrdfUpload(dds);
    device.WriteTexture(id, upload);
    assert [] + [upload] == [upload];
    r := Done(Texture(Rgba16Float, id));
  }

  /** `IBL`: the BRDF table and the sampler are fixed; the two radiance maps and the bind
      group over all four are replaced by `Update`. */
  class Ibl {
    const brdfLookup: Texture
    var diffuseRadiance: Cubemap
    var specularRadiance: Cubemap
    const cubemapSampler: SamplerId
    var bindGroup: BindGroup

    constructor(brdf: Texture, diffuse: Cubemap, specular: Cubemap, sampler: SamplerId, group: BindGroup)
      ensures brdfLookup == brdf && diffuseRadiance == diffuse && specularRadiance == specular
      ensures cubemapSampler == sampler && bindGroup == group
    {
      brdfLookup, diffuseRadiance, specularRadiance := brdf, diffuse, specular;
      cubemapSampler, bindGroup := sampler, group;
    }

    /** The bind group is the one over the current textures and sampler. */
    predicate Valid()
      reads this
    {
      && bindGroup.layout == IblLayout()
      && bindGroup.entries == IblEntries(brdfLookup, diffuseRadiance, specularRadiance, cubemapSampler)
    }

    /** Both radiance maps are textures of `device`. */
    predicate Tracked(device: Device)
      reads this, device
    {
      diffuseRadiance.texture < |device.textures| && specularRadiance.texture < |device.textures|
    }

    /** `IBL::new`: the BRDF table, then the diffuse and specular maps (each from its
        configured path or the default file), then the sampler, then the bind group. */
    static method New(device: Device, files: map<string, Dds>, irradiance: Option<string>, prefilter: Option<string>,
                      samplerDesc: SamplerDesc) returns (r: Fallible<Ibl>)
      modifies device
      ensures r.Done? <==> IblLoadable(files, irradiance, prefilter)
      ensures r.Done? ==> var n := |old(device.textures)|;
        && fresh(r.value) && r.value.Valid() && r.value.Tracked(device)
        && r.value.brdfLookup == Texture(Rgba16Float, n)
        && r.value.diffuseRadiance == Cubemap(Rgba16Float, n + 1)
        && r.value.specularRadiance == Cubemap(Rgba16Float, n + 2)
        && device.textures == old(device.textures) + [
             TextureRecord(BrdfDesc(files[BrdfPath]), false, [BrdfUpload(files[BrdfPath])]),
             TextureRecord(CubemapDesc(files[PathOr(irradiance)]), false, Uploads(files[PathOr(irradiance)])),
             TextureRecord(CubemapDesc(files[PathOr(prefilter)]), false, Uploads(files[PathOr(prefilter)]))]
        && r.value.cubemapSampler == |old(device.samplers)|
        && device.samplers == old(device.samplers) + [samplerDesc]
        && r.value.bindGroup.id == old(device.handles) && device.handles == old(device.handles) + 1
    {
      var brdf := LoadBrdf(device, files);
      if brdf.Panic? {
        return Panic(brdf.message);
      }
      ghost var t0, r0 := old(device.textures), device.textures[|old(device.textures)|];
      var diffuse := FromDds(device, files, PathOr(irradiance));
      if diffuse.Panic? {
        return Panic(diffuse.message);
      }
      ghost var r1 := device.textures[|t0| + 1];
      var specular := FromDds(device, files, PathOr(prefilter));
      if specular.Panic? {
        return Panic(specular.message);
      }
      ghost var r2 := device.textures[|t0| + 2];
      assert device.textures == t0 + [r0] + [r1] + [r2];
      assert t0 + [r0] + [r1] + [r2] == t0 + [r0, r1, r2];
      var sampler := device.CreateSampler(samplerDesc);
      var id := device.NewHandle();
      var group := BindGroup(id, IblLayout(), IblEntries(brdf.value, diffuse.value, specular.value, sampler));
      var ibl := new Ibl(brdf.value, diffuse.value, specular.value, sampler, group);
      r := Done(ibl);
    }

    /** The textures `Update` replaces. */
    function Replaced(irradiance: Option<string>, prefilter: Option<string>): set<TextureId>
      reads this
    {
      (if irradiance.Some? then {diffuseRadiance.texture} else {})
        + (if prefilter.Some? then {specularRadiance.texture} else {})
    }

    /** `IBL::update`: for each given path, the old map is destroyed FIRST and the new one
        loaded after, so a file that fails to load leaves the old map destroyed. The bind
        group is rebuilt even when neither path is given; the BRDF table and the sampler are
        never replaced. */
    method Update(device: Device, files: map<string, Dds>, irradiance: Option<string>, prefilter: Option<string>)
        returns (r: Fallible<()>)
      requires Tracked(device)
      modifies this, device
      ensures r.Done? <==>
        (irradiance.Some? ==> Loadable(files, irradiance.value)) && (prefilter.Some? ==> Loadable(files, prefilter.value))
      ensures |device.textures| >= |old(device.textures)|
      ensures irradiance.Some? ==> device.textures[old(diffuseRadiance.texture)].destroyed
      ensures r.Done? ==> var n := |old(device.textures)|; var k := if irradiance.Some? then 1 else 0;
        && Valid() && Tracked(device)
        && DestroysExactly(old(device.textures), device.textures, old(Replaced(irradiance, prefilter)))
        && |device.textures| == n + k + (if prefilter.Some? then 1 else 0)
        && diffuseRadiance == (if irradiance.Some? then Cubemap(Rgba16Float, n) else old(diffuseRadiance))
        && specularRadiance == (if prefilter.Some? then Cubemap(Rgba16Float, n + k) else old(specularRadiance))
        && (irradiance.Some? ==>
              device.textures[n] == TextureRecord(CubemapDesc(files[irradiance.value]), false, Uploads(files[irradiance.value])))
        && (prefilter.Some? ==>
              device.textures[n + k] == TextureRecord(CubemapDesc(files[prefilter.value]), false, Uploads(files[prefilter.value])))
        && bindGroup.id == old(device.handles) && device.handles == old(device.handles) + 1
      ensures device.samplers == old(device.samplers)
    {
      ghost var t0 := device.textures;
      ghost var oldDiffuse, oldSpecular := diffuseRadiance.texture, specularRadiance.texture;
      ghost var first: set<TextureId> := if irradiance.Some? then {oldDiffuse} else {};
      ghost var second: set<TextureId> := if prefilter.Some? then {oldSpecular} else {};
      if irradiance.Some? {
        var loaded := DestroyAndLoad(device, files, diffuseRadiance.texture, irradiance.value);
        if loaded.Panic? {
          return Panic(loaded.message);
        }
        diffuseRadiance := loaded.value;
      }
      ghost var t1 := device.textures;
      assert DestroysExactly(t0, t1, first);
      if prefilter.Some? {
        var loaded := DestroyAndLoad(device, files, specularRadiance.texture, prefilter.value);
        if loaded.Panic? {
          DestroysExactlyThen(t0, t1, device.textures, first, second);
          return Panic(loaded.message);
        }
        specularRadiance := loaded.value;
      }
      assert DestroysExactly(t1, device.textures, second);
      DestroysExactlyThen(t0, t1, device.textures, first, second);
      var id := device.NewHandle();
      bindGroup := BindGroup(id, IblLayout(), IblEntries(brdfLookup, diffuseRadiance, specularRadiance, cubemapSampler));
      r := Done(());
    }
  }

  /** One step of `IBL::update`: the old map is destroyed, then the new one loaded. The
      destruction stands whether or not the load succeeds. */
  method DestroyAndLoad(device: Device, files: map<string, Dds>, previous: TextureId, path: string)
      returns (r: Fallible<Cubemap>)
    requires previous < |device.textures|
    modifies device
    ensures r.Done? <==> Loadable(files, path)
    ensures DestroysExactly(old(device.textures), device.textures, {previous})
    ensures r.Done? ==>
      && r.value == Cubemap(Rgba16Float, |old(device.textures)|)
      && device.textures == old(device.textures)[previous := old(device.textures)[previous].(destroyed := true)]
           + [TextureRecord(CubemapDesc(files[path]), false, Uploads(files[path]))]
    ensures device.samplers == old(device.samplers) && device.handles == old(device.handles)
  {
    device.DestroyTexture(previous);
    r := FromDds(device, files, path);
  }

  /** `Compose::pipeline`: scene uniform, geometry buffers, lights and IBL at groups 0 to 3,
      one `Rgba16Float` target, no depth test and no culling. The lighting uniform's layout
      is a parameter. */
  function ComposePipelineDesc(lightingLayout: seq<LayoutEntry>): (p: PipelineDesc)
    ensures p.layouts == [Resources.UnsizedUniformLayout(), Gbuffers.BindGroupLayout(), lightingLayout, IblLayout()]
    ensures p.hasFragment && p.targets == [Rgba16Float] && p.depth.None? && !p.cullBack
  {
    PipelineDesc([Resources.UnsizedUniformLayout(), Gbuffers.BindGroupLayout(), lightingLayout, IblLayout()],
      true, [Rgba16Float], None, false)
  }

  /** The compose pass: the output cleared to black and stored, no depth attachment. */
  function ComposeRenderPass(output: nat, commands: seq<Command>): RenderPass
  {
    RenderPass(Some("Compose"), [ColorAttachment(output, Clear(Black), true)], None, commands)
  }

  /** The commands of `Compose::pass`: the pipeline, the four groups in slot order, one draw
      of six vertices and one instance. */
  function ComposeCommands(pipeline: nat, scene: BindGroup, gbuffers: BindGroup, lighting: BindGroup, ibl: BindGroup)
    : seq<Command>
  {
    [SetPipeline(pipeline), SetBindGroup(0, scene), SetBindGroup(1, gbuffers), SetBindGroup(2, lighting),
     SetBindGroup(3, ibl), Draw(Range(0, 6), Range(0, 1))]
  }

  /** The groups the compose pass binds fit its pipeline exactly when each was created
      against the layout of its slot; every slot is bound once, before the only draw. */
  lemma ComposePassFitsPipeline(pipeline: nat, scene: BindGroup, gbuffers: BindGroup, lighting: BindGroup, ibl: BindGroup,
                                lightingLayout: seq<LayoutEntry>)
    ensures var cs := ComposeCommands(pipeline, scene, gbuffers, lighting, ibl);
      && (GroupsFitPipeline(cs, ComposePipelineDesc(lightingLayout)) <==>
            && scene.layout == Resources.UnsizedUniformLayout()
            && gbuffers.layout == Gbuffers.BindGroupLayout()
            && lighting.layout == lightingLayout
            && ibl.layout == IblLayout())
      && (forall i | 0 <= i < |cs| :: cs[i].SetBindGroup? <==> 1 <= i <= 4)
      && (forall i | 0 <= i < |cs| && cs[i].SetBindGroup? :: cs[i].index == i - 1)
      && (forall i | 0 <= i < |cs| :: cs[i].Draw? <==> i == |cs| - 1)
  {
    var cs := ComposeCommands(pipeline, scene, gbuffers, lighting, ibl);
    var p := ComposePipelineDesc(lightingLayout);
    if GroupsFitPipeline(cs, p) {
      assert cs[1].SetBindGroup? && cs[2].SetBindGroup? && cs[3].SetBindGroup? && cs[4].SetBindGroup?;
    }
  }

  /** `Compose`: the IBL state and the pipeline, which shader reloads replace. */
  class ComposePass {
    const ibl: Ibl
    var pipeline: Pipeline

    constructor(ibl: Ibl, pipeline: Pipeline)
      ensures this.ibl == ibl && this.pipeline == pipeline
    {
      this.ibl := ibl;
      this.pipeline := pipeline;
    }

    /** `Compose::new`: the IBL, the shader, then the pipeline. */
    static method New(device: Device, files: map<string, Dds>, irradiance: Option<string>, prefilter: Option<string>,
                      samplerDesc: SamplerDesc, lightingLayout: seq<LayoutEntry>) returns (r: Fallible<ComposePass>)
      modifies device
      ensures r.Done? <==> IblLoadable(files, irradiance, prefilter)
      ensures r.Done? ==>
        && fresh(r.value) && fresh(r.value.ibl) && r.value.ibl.Valid() && r.value.ibl.Tracked(device)
        && r.value.pipeline.shader == old(device.handles) + 1
        && r.value.pipeline.id == old(device.handles) + 2
        && r.value.pipeline.desc == ComposePipelineDesc(lightingLayout)
    {
      var ibl := Ibl.New(device, files, irradiance, prefilter, samplerDesc);
      if ibl.Panic? {
        return Panic(ibl.message);
      }
      var shader := device.NewHandle();
      var id := device.NewHandle();
      var c := new ComposePass(ibl.value, Pipeline(id, shader, ComposePipelineDesc(lightingLayout)));
      r := Done(c);
    }

    /** `Compose::pass`: one render pass appended to the frame's encoder. */
    method Pass(scene: BindGroup, gbuffers: BindGroup, lighting: BindGroup, output: nat, encoder: CommandEncoder)
      modifies encoder
      ensures encoder.passes ==
        old(encoder.passes) + [ComposeRenderPass(output, ComposeCommands(pipeline.id, scene, gbuffers, lighting, ibl.bindGroup))]
    {
      encoder.BeginRenderPass(Some("Compose"), [ColorAttachment(output, Clear(Black), true)], None);
      ghost var before := old(encoder.passes);
      assert encoder.passes == before + [ComposeRenderPass(output, [])];
      var c0, c1, c2 := SetPipeline(pipeline.id), SetBindGroup(0, scene), SetBindGroup(1, gbuffers);
      var c3, c4, c5 := SetBindGroup(2, lighting), SetBindGroup(3, ibl.bindGroup), Draw(Range(0, 6), Range(0, 1));
      encoder.Record(c0);
      assert [] + [c0] == [c0];
      assert encoder.passes == before + [ComposeRenderPass(output, [c0])];
      encoder.Record(c1);
      assert [c0] + [c1] == [c0, c1];
      assert encoder.passes == before + [ComposeRenderPass(output, [c0, c1])];
      encoder.Record(c2);
      assert [c0, c1] + [c2] == [c0, c1, c2];
      assert encoder.passes == before + [ComposeRenderPass(output, [c0, c1, c2])];
      encoder.Record(c3);
      assert [c0, c1, c2] + [c3] == [c0, c1, c2, c3];
      assert encoder.passes == before + [ComposeRenderPass(output, [c0, c1, c2, c3])];
      encoder.Record(c4);
      assert [c0, c1, c2, c3] + [c4] == [c0, c1, c2, c3, c4];
      assert encoder.passes == before + [ComposeRenderPass(output, [c0, c1, c2, c3, c4])];
      encoder.Record(c5);
      assert [c0, c1, c2, c3, c4] + [c5] == [c0, c1, c2, c3, c4, c5];
      assert encoder.passes == before + [ComposeRenderPass(output, [c0, c1, c2, c3, c4, c5])];
    }

    /** `reload`: a new pipeline from the new shader. `Compose::pipeline` builds the same
        description every time, so only the shader and the handle change; the IBL state is
        untouched. */
    method Reload(device: Device, shader: nat)
      modifies this`pipeline, device
      ensures pipeline == Pipeline(old(device.handles), shader, old(pipeline.desc))
      ensures unchanged(ibl)
      ensures device.textures == old(device.textures) && device.samplers == old(device.samplers)
    {
      var id := device.NewHandle();
      pipeline := Pipeline(id, shader, pipeline.desc);
    }
  }
}
