/** The geometry buffers the compose pass reads: a depth texture and three colour targets of
    the surface's size, exposed to fragment shaders through one bind group. */
module Gbuffers {
  import opened Wrappers
  import opened Gpu
  import opened Textures

  datatype GBuffers = GBuffers(depth: Texture, albedo: Texture, normal: Texture, material: Texture, bindGroup: BindGroup)
  {
    /** The four textures in binding order. */
    function Targets(): seq<Texture>
    {
      [depth, albedo, normal, material]
    }
  }

  /** A fragment-visible, single-sampled 2D texture slot. */
  function FragmentTextureSlot(binding: nat, sampleType: SampleType): LayoutEntry
  {
    LayoutEntry(binding, {Fragment}, TextureSlot(sampleType, D2, false))
  }

  /** `GBuffers::bind_group_layout`: the depth texture at binding 0, then three filterable
      float textures at bindings 1 to 3, all 2D, single-sampled and read by fragment shaders. */
  function BindGroupLayout(): (l: seq<LayoutEntry>)
    ensures |l| == 4
    ensures forall i | 0 <= i < 4 ::
      && l[i].binding == i && l[i].visibility == {Fragment}
      && l[i].ty.TextureSlot? && l[i].ty.viewDimension == D2 && !l[i].ty.multisampled
      && (l[i].ty.sampleType == DepthSample <==> i == 0)
      && (i > 0 ==> l[i].ty.sampleType == FloatSample(true))
  {
    [FragmentTextureSlot(0, DepthSample), FragmentTextureSlot(1, FloatSample(true)),
     FragmentTextureSlot(2, FloatSample(true)), FragmentTextureSlot(3, FloatSample(true))]
  }

  /** The bind group's entries: binding i holds the default view of the i-th target. */
  function GroupEntries(targets: seq<Texture>): (es: seq<GroupEntry>)
    ensures |es| == |targets|
    ensures forall i | 0 <= i < |targets| :: es[i] == GroupEntry(i, targets[i].View())
  {
    seq(|targets|, i requires 0 <= i < |targets| => GroupEntry(i, targets[i].View()))
  }

  /** `GBuffers::new`: the depth texture, then albedo, normal and material as `Rgba8Unorm`
      targets of the surface's size, then the bind group over the four. */
  method New(device: Device, config: SurfaceConfig) returns (g: GBuffers)
    modifies device
    ensures var n := |old(device.textures)|;
      && g.Targets() == [Texture(DepthFormat, n), Texture(Rgba8Unorm, n + 1), Texture(Rgba8Unorm, n + 2), Texture(Rgba8Unorm, n + 3)]
      && device.textures == old(device.textures) + [
           TextureRecord(CreateDepthTexture(config).desc, false, []),
           TextureRecord(Create(config.width, config.height, Some(Rgba8Unorm)).desc, false, []),
           TextureRecord(Create(config.width, config.height, Some(Rgba8Unorm)).desc, false, []),
           TextureRecord(Create(config.width, config.height, Some(Rgba8Unorm)).desc, false, [])]
    ensures g.bindGroup == BindGroup(old(device.handles), BindGroupLayout(), GroupEntries(g.Targets()))
    ensures device.handles == old(device.handles) + 1 && device.samplers == old(device.samplers)
  {
    var depth := Build(device, CreateDepthTexture(config));
    var albedo := Build(device, Create(config.width, config.height, Some(Rgba8Unorm)));
    var normal := Build(device, Create(config.width, config.height, Some(Rgba8Unorm)));
    var material := Build(device, Create(config.width, config.height, Some(Rgba8Unorm)));
    var id := device.NewHandle();
    var entries := [GroupEntry(0, depth.View()), GroupEntry(1, albedo.View()),
                    GroupEntry(2, normal.View()), GroupEntry(3, material.View())];
    assert entries == GroupEntries([depth, albedo, normal, material]);
    g := GBuffers(depth, albedo, normal, material, BindGroup(id, BindGroupLayout(), entries));
  }

  /** The shape `New` leaves: four distinct textures, a depth-format depth target and
      non-depth colour targets, and the bind group over them. */
  predicate Built(g: GBuffers)
  {
    && IsDepthFormat(g.depth.format)
    && !IsDepthFormat(g.albedo.format) && !IsDepthFormat(g.normal.format) && !IsDepthFormat(g.material.format)
    && (forall i, j | 0 <= i < j < 4 :: g.Targets()[i].texture != g.Targets()[j].texture)
    && g.bindGroup.layout == BindGroupLayout() && g.bindGroup.entries == GroupEntries(g.Targets())
  }

  lemma {:induction false} NewIsBuilt(g: GBuffers, n: nat, id: nat)
    requires g.Targets() == [Texture(DepthFormat, n), Texture(Rgba8Unorm, n + 1), Texture(Rgba8Unorm, n + 2), Texture(Rgba8Unorm, n + 3)]
    requires g.bindGroup == BindGroup(id, BindGroupLayout(), GroupEntries(g.Targets()))
    ensures Built(g)
  {
    assert g.depth == g.Targets()[0] && g.albedo == g.Targets()[1];
    assert g.normal == g.Targets()[2] && g.material == g.Targets()[3];
  }

  /** The group fills its layout: bindings 0 to 3 in order, the depth view in the depth slot
      and a colour view in every float slot. */
  lemma {:induction false} GroupMatchesLayout(g: GBuffers)
    requires Built(g)
    ensures Matches(g.bindGroup.entries, g.bindGroup.layout)
  {
    var es, l := g.bindGroup.entries, g.bindGroup.layout;
    forall i | 0 <= i < 4
      ensures es[i].binding == l[i].binding && Fits(es[i].resource, l[i].ty)
    {
      assert es[i] == GroupEntry(i, g.Targets()[i].View());
    }
  }

  /** Exactly one slot samples depth, and it holds the depth texture; the group references
      exactly the four textures of the struct. */
  lemma {:induction false} DepthSlotHoldsDepth(g: GBuffers)
    requires Built(g)
    ensures var es, l := g.bindGroup.entries, g.bindGroup.layout;
      forall i | 0 <= i < 4 ::
        l[i].ty.sampleType == DepthSample <==> es[i].resource.texture == g.depth.texture
    ensures (set e | e in g.bindGroup.entries :: e.resource.texture)
         == {g.depth.texture, g.albedo.texture, g.normal.texture, g.material.texture}
  {
    var es := g.bindGroup.entries;
    assert forall i | 0 <= i < 4 :: es[i].resource.texture == g.Targets()[i].texture;
    var s := set e | e in es :: e.resource.texture;
    assert es == [es[0], es[1], es[2], es[3]];
    assert s == {es[0].resource.texture, es[1].resource.texture, es[2].resource.texture, es[3].resource.texture};
  }
}
