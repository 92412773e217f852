/** `ResourceManager`: thin builders over the device and queue. Buffers are created and filled
    from offset 0, textures get a bytes-per-pixel row pitch for their upload, and bind-group
    layouts and bind groups number their entries textures first, then buffers, then samplers. */
module ResourceManager {
  import opened Wrappers
  import opened Math
  import opened Gpu

  datatype BufferDescriptor = BufferDescriptor(byteSize: nat, usage: Option<set<BufferUsage>>, data: seq<byte>)

  /** A buffer as `create_buffer` leaves it: size, usage and contents. */
  datatype BufferState = BufferState(size: nat, usage: set<BufferUsage>, contents: seq<byte>)

  /** `create_buffer`: a zero-initialised buffer of `byteSize` bytes (usage defaults to every
      flag), then `write_buffer` of the data at offset 0. The queue refuses (and the default
      error handler panics on) a write that runs past the end of the buffer. */
  function CreateBuffer(desc: BufferDescriptor): (r: Fallible<BufferState>)
    ensures r.Done? <==> |desc.data| <= desc.byteSize
    ensures r.Done? ==> r.value.size == desc.byteSize && |r.value.contents| == desc.byteSize
    ensures r.Done? ==> r.value.usage == (if desc.usage.None? then AllBufferUsages else desc.usage.value)
    ensures r.Done? ==> r.value.contents[..|desc.data|] == desc.data
    ensures r.Done? ==> forall k | |desc.data| <= k < desc.byteSize :: r.value.contents[k] == 0
  {
    if |desc.data| <= desc.byteSize then
      Done(BufferState(desc.byteSize, desc.usage.GetOr(AllBufferUsages),
                       desc.data + seq(desc.byteSize - |desc.data|, _ => 0)))
    else
      Panic("Write to buffer would overrun its end")
  }

  /** The bytes-per-pixel table of `create_texture`; `None` is the "Unsupported format" panic. */
  function BytesPerPixel(f: TextureFormat): (bpp: Option<nat>)
    ensures bpp.Some? <==> f in {Rgba8UnormSrgb, Rgba8Unorm, Rgba16Float, Rgba32Float, Rg16Float}
    ensures bpp.Some? ==> bpp.value in {4, 8, 16}
  {
    match f
    case Rgba8UnormSrgb => Some(4)
    case Rgba8Unorm => Some(4)
    case Rgba16Float => Some(8)
    case Rgba32Float => Some(16)
    case Rg16Float => Some(4)
    case _ => None
  }

  /** Channel count and bytes per channel of the formats the table knows. */
  function Channels(f: TextureFormat): nat
  {
    match f
    case Rg16Float => 2
    case _ => 4
  }

  function BytesPerChannel(f: TextureFormat): nat
  {
    match f
    case Rgba16Float => 2
    case Rg16Float => 2
    case Rgba32Float => 4
    case _ => 1
  }

  /** The table agrees with the texel layout of each format it accepts, and knows exactly the
      five colour formats it lists. */
  lemma BytesPerPixelIsTexelSize(f: TextureFormat)
    ensures BytesPerPixel(f).Some? <==> f in {Rgba8UnormSrgb, Rgba8Unorm, Rgba16Float, Rgba32Float, Rg16Float}
    ensures BytesPerPixel(f).Some? ==> BytesPerPixel(f).value == Channels(f) * BytesPerChannel(f)
  {
  }

  datatype ViewDim = D2View | CubeView

  datatype TextureDescriptor = TextureDescriptor(
    dimensions: Extent, viewDimension: ViewDim, format: TextureFormat,
    usage: Option<set<TextureUsage>>, data: Option<seq<byte>>)

  /** A created texture and its default view. */
  datatype Texture = Texture(texture: TextureId, view: Resource)

  /** The texture `create_texture` asks the device for: the given size (layers included), one
      mip level, one sample, usage defaulting to every flag. */
  function DeviceTextureDesc(desc: TextureDescriptor): (d: TextureDesc)
    ensures d.size == desc.dimensions && d.mipLevels == 1 && d.sampleCount == 1 && d.format == desc.format
    ensures desc.usage.None? ==> d.usage == AllTextureUsages
  {
    TextureDesc(desc.dimensions, 1, 1, desc.format, desc.usage.GetOr(AllTextureUsages))
  }

  /** The upload `create_texture` issues, if any. The format table is consulted before the
      data is, so an unknown format panics with or without data. When there is data, one
      write covers layer 0 only: `bytesPerPixel * width` bytes per row, `height` rows. */
  function Upload(desc: TextureDescriptor): (r: Fallible<Option<TextureWrite>>)
    ensures r.Panic? <==> BytesPerPixel(desc.format).None?
    ensures r.Done? ==> (r.value.Some? <==> desc.data.Some?)
    ensures r.Done? && r.value.Some? ==>
      var w := r.value.value;
      && w.mipLevel == 0 && w.originLayer == 0 && w.data == Bytes(desc.data.value)
      && w.bytesPerRow == BytesPerPixel(desc.format).value * desc.dimensions.width
      && w.rowsPerImage == desc.dimensions.height
      && w.extent == Extent(desc.dimensions.width, desc.dimensions.height, 1)
  {
    match BytesPerPixel(desc.format)
    case None => Panic("Unsupported format")
    case Some(bpp) =>
      if desc.data.None? then Done(None)
      else
        Done(Some(TextureWrite(0, 0, bpp * desc.dimensions.width, desc.dimensions.height,
                               Extent(desc.dimensions.width, desc.dimensions.height, 1),
                               Bytes(desc.data.value))))
  }

  /** The view dimension wgpu gives a default view of a 2D texture: one layer or an array.
      The descriptor's own `viewDimension` is never read. */
  function DefaultViewDimension(layers: nat): ViewDimension
  {
    if layers == 1 then D2 else D2Array
  }

  /** `create_texture`: the texture is created first; then the format table either panics or
      yields the pitch for the optional upload. */
  method CreateTexture(device: Device, desc: TextureDescriptor) returns (r: Fallible<Texture>)
    modifies device
    ensures r.Panic? <==> BytesPerPixel(desc.format).None?
    ensures r.Done? ==> r.value.texture == |old(device.textures)|
    ensures r.Done? ==> r.value.view == TextureView(r.value.texture, desc.format, DefaultViewDimension(desc.dimensions.depthOrLayers))
    ensures r.Done? ==>
      device.textures == old(device.textures) +
        [TextureRecord(DeviceTextureDesc(desc), false, if Upload(desc).value.Some? then [Upload(desc).value.value] else [])]
    ensures r.Panic? ==> device.textures == old(device.textures) + [TextureRecord(DeviceTextureDesc(desc), false, [])]
    ensures device.samplers == old(device.samplers) && device.handles == old(device.handles)
  {
    var id := device.CreateTexture(DeviceTextureDesc(desc));
    var upload := Upload(desc);
    if upload.Panic? {
      return Panic(upload.message);
    }
    if upload.value.Some? {
      device.WriteTexture(id, upload.value.value);
      assert device.textures[id] == TextureRecord(DeviceTextureDesc(desc), false, [upload.value.value]);
      assert device.textures == old(device.textures) + [device.textures[id]];
    }
    r := Done(Texture(id, TextureView(id, desc.format, DefaultViewDimension(desc.dimensions.depthOrLayers))));
  }

  datatype SamplerType = FilteringSampler | ComparisonSampler

  datatype SamplerDescriptor = SamplerDescriptor(samplerType: SamplerType, compareFunction: Option<CompareFunction>, lod: real)

  /** `create_sampler`: repeat addressing, linear magnification and minification, nearest mip
      selection, LOD clamped to `[0, lod]`, and the descriptor's compare function. */
  function CreateSampler(desc: SamplerDescriptor): (s: SamplerDesc)
    ensures s.compare == desc.compareFunction && s.lodMinClamp == 0.0 && s.lodMaxClamp == desc.lod
    ensures s.addressMode == Repeat && s.magFilter == Linear && s.minFilter == Linear && s.mipmapFilter == Nearest
  {
    SamplerDesc(Repeat, Linear, Linear, Nearest, 0.0, desc.lod, desc.compareFunction, 1)
  }

  /** The sampler type of the descriptor plays no part: only the compare function decides
      whether a comparison sampler is made. */
  lemma SamplerTypeIgnored(desc: SamplerDescriptor, t: SamplerType)
    ensures CreateSampler(desc.(samplerType := t)) == CreateSampler(desc)
  {
  }

  datatype SampleKind = FloatKind | DepthKind

  datatype BindGroupLayoutDescriptor = BindGroupLayoutDescriptor(
    visibility: set<ShaderStage>, textures: seq<(SampleKind, ViewDim)>, buffers: seq<nat>,
    samplers: seq<SamplerType>)

  function TextureSlotType(t: (SampleKind, ViewDim)): BindingType
  {
    TextureSlot(if t.0 == FloatKind then FloatSample(true) else DepthSample,
                if t.1 == D2View then D2 else Cube, false)
  }

  function SamplerSlotType(s: SamplerType): BindingType
  {
    SamplerSlot(if s == FilteringSampler then Filtering else Comparison)
  }

  function TextureEntries(desc: BindGroupLayoutDescriptor): seq<LayoutEntry>
  {
    seq(|desc.textures|, k requires 0 <= k < |desc.textures| =>
      LayoutEntry(k, desc.visibility, TextureSlotType(desc.textures[k])))
  }

  function BufferEntries(desc: BindGroupLayoutDescriptor): seq<LayoutEntry>
  {
    seq(|desc.buffers|, k requires 0 <= k < |desc.buffers| =>
      LayoutEntry(|desc.textures| + k, desc.visibility, UniformSlot(NonZero(desc.buffers[k]))))
  }

  /** The sampler entries as written: every one of them at binding `nt + nb`. */
  function SamplerEntriesAsWritten(desc: BindGroupLayoutDescriptor): seq<LayoutEntry>
  {
    seq(|desc.samplers|, k requires 0 <= k < |desc.samplers| =>
      LayoutEntry(|desc.textures| + |desc.buffers|, desc.visibility, SamplerSlotType(desc.samplers[k])))
  }

  /** The sampler entries as the bind-group builder numbers them: `nt + nb + k`. */
  function SamplerEntries(desc: BindGroupLayoutDescriptor): seq<LayoutEntry>
  {
    seq(|desc.samplers|, k requires 0 <= k < |desc.samplers| =>
      LayoutEntry(|desc.textures| + |desc.buffers| + k, desc.visibility, SamplerSlotType(desc.samplers[k])))
  }

  function LayoutAsWritten(desc: BindGroupLayoutDescriptor): seq<LayoutEntry>
  {
    TextureEntries(desc) + BufferEntries(desc) + SamplerEntriesAsWritten(desc)
  }

  function Layout(desc: BindGroupLayoutDescriptor): seq<LayoutEntry>
  {
    TextureEntries(desc) + BufferEntries(desc) + SamplerEntries(desc)
  }

  /** `create_bind_group_layout` as written: the sampler loop pushes without advancing `i`. */
  method CreateBindGroupLayoutAsWritten(desc: BindGroupLayoutDescriptor) returns (entries: seq<LayoutEntry>)
    ensures entries == LayoutAsWritten(desc)
  {
    entries := [];
    var i := 0;
    for k := 0 to |desc.textures|
      invariant i == k
      invariant entries == TextureEntries(desc)[..k]
    {
      entries := entries + [LayoutEntry(i, desc.visibility, TextureSlotType(desc.textures[k]))];
      i := i + 1;
    }
    for k := 0 to |desc.buffers|
      invariant i == |desc.textures| + k
      invariant entries == TextureEntries(desc) + BufferEntries(desc)[..k]
    {
      entries := entries + [LayoutEntry(i, desc.visibility, UniformSlot(NonZero(desc.buffers[k])))];
      i := i + 1;
    }
    for k := 0 to |desc.samplers|
      invariant i == |desc.textures| + |desc.buffers|
      invariant entries == TextureEntries(desc) + BufferEntries(desc) + SamplerEntriesAsWritten(desc)[..k]
    {
      entries := entries + [LayoutEntry(i, desc.visibility, SamplerSlotType(desc.samplers[k]))];
    }
  }

  /** `create_bind_group_layout` with the sampler loop advancing `i` like the other two. */
  method CreateBindGroupLayout(desc: BindGroupLayoutDescriptor) returns (entries: seq<LayoutEntry>)
    ensures entries == Layout(desc)
  {
    entries := [];
    var i := 0;
    for k := 0 to |desc.textures|
      invariant i == k
      invariant entries == TextureEntries(desc)[..k]
    {
      entries := entries + [LayoutEntry(i, desc.visibility, TextureSlotType(desc.textures[k]))];
      i := i + 1;
    }
    for k := 0 to |desc.buffers|
      invariant i == |desc.textures| + k
      invariant entries == TextureEntries(desc) + BufferEntries(desc)[..k]
    {
      entries := entries + [LayoutEntry(i, desc.visibility, UniformSlot(NonZero(desc.buffers[k])))];
      i := i + 1;
    }
    for k := 0 to |desc.samplers|
      invariant i == |desc.textures| + |desc.buffers| + k
      invariant entries == TextureEntries(desc) + BufferEntries(desc) + SamplerEntries(desc)[..k]
    {
      entries := entries + [LayoutEntry(i, desc.visibility, SamplerSlotType(desc.samplers[k]))];
      i := i + 1;
    }
  }

  /** What both layout builders share: `nt + nb + ns` entries, all with the descriptor's
      visibility, textures at `0..nt-1` and buffers at `nt..nt+nb-1` with their slot types;
      as written every sampler sits at `nt + nb`, corrected sampler `k` sits at `nt + nb + k`. */
  lemma LayoutNumbering(desc: BindGroupLayoutDescriptor)
    ensures var nt, nb, ns := |desc.textures|, |desc.buffers|, |desc.samplers|;
      && |LayoutAsWritten(desc)| == nt + nb + ns == |Layout(desc)|
      && (forall k | 0 <= k < nt + nb + ns ::
            LayoutAsWritten(desc)[k].visibility == desc.visibility == Layout(desc)[k].visibility)
      && (forall k | 0 <= k < nt ::
            LayoutAsWritten(desc)[k] == Layout(desc)[k] == LayoutEntry(k, desc.visibility, TextureSlotType(desc.textures[k])))
      && (forall k | 0 <= k < nb ::
            LayoutAsWritten(desc)[nt + k] == Layout(desc)[nt + k]
            == LayoutEntry(nt + k, desc.visibility, UniformSlot(NonZero(desc.buffers[k]))))
      && (forall k | nt + nb <= k < nt + nb + ns :: LayoutAsWritten(desc)[k].binding == nt + nb)
      && (forall k | nt + nb <= k < nt + nb + ns :: Layout(desc)[k].binding == k)
  {
  }

  datatype BindGroupDescriptor = BindGroupDescriptor(
    layout: seq<LayoutEntry>, textures: seq<Texture>, buffers: seq<BufferId>, samplers: seq<SamplerId>)

  /** The entries `create_bind_group` builds: consecutive bindings `0..n-1`, textures (their
      views), then whole buffers, then samplers. */
  function GroupEntries(desc: BindGroupDescriptor): seq<GroupEntry>
  {
    var nt, nb := |desc.textures|, |desc.buffers|;
    seq(nt, k requires 0 <= k < nt => GroupEntry(k, desc.textures[k].view))
    + seq(nb, k requires 0 <= k < nb => GroupEntry(nt + k, WholeBuffer(desc.buffers[k])))
    + seq(|desc.samplers|, k requires 0 <= k < |desc.samplers| =>
        GroupEntry(nt + nb + k, SamplerResource(desc.samplers[k])))
  }

  method CreateBindGroup(desc: BindGroupDescriptor) returns (entries: seq<GroupEntry>)
    ensures entries == GroupEntries(desc)
  {
    entries := [];
    var i := 0;
    for k := 0 to |desc.textures|
      invariant i == k
      invariant entries == GroupEntries(desc)[..i]
    {
      entries := entries + [GroupEntry(i, desc.textures[k].view)];
      i := i + 1;
    }
    for k := 0 to |desc.buffers|
      invariant i == |desc.textures| + k
      invariant entries == GroupEntries(desc)[..i]
    {
      entries := entries + [GroupEntry(i, WholeBuffer(desc.buffers[k]))];
      i := i + 1;
    }
    for k := 0 to |desc.samplers|
      invariant i == |desc.textures| + |desc.buffers| + k
      invariant entries == GroupEntries(desc)[..i]
    {
      entries := entries + [GroupEntry(i, SamplerResource(desc.samplers[k]))];
      i := i + 1;
    }
  }

  /** Every entry of a built group carries its own position as binding number. */
  lemma GroupNumbering(desc: BindGroupDescriptor)
    ensures |GroupEntries(desc)| == |desc.textures| + |desc.buffers| + |desc.samplers|
    ensures forall k | 0 <= k < |GroupEntries(desc)| :: GroupEntries(desc)[k].binding == k
  {
  }

  function LayoutBindings(layout: seq<LayoutEntry>): seq<nat>
  {
    seq(|layout|, k requires 0 <= k < |layout| => layout[k].binding)
  }

  function GroupBindings(entries: seq<GroupEntry>): seq<nat>
  {
    seq(|entries|, k requires 0 <= k < |entries| => entries[k].binding)
  }

  /** A group descriptor supplies one resource per slot of a layout descriptor. */
  predicate SameShape(g: BindGroupDescriptor, l: BindGroupLayoutDescriptor)
  {
    |g.textures| == |l.textures| && |g.buffers| == |l.buffers| && |g.samplers| == |l.samplers|
  }

  /** As written, a layout and a group built from descriptors of the same shape agree on
      their binding numbers exactly when there is at most one sampler. */
  lemma {:induction false} AsWrittenBindingsAgreeIff(g: BindGroupDescriptor, l: BindGroupLayoutDescriptor)
    requires SameShape(g, l)
    ensures GroupBindings(GroupEntries(g)) == LayoutBindings(LayoutAsWritten(l)) <==> |l.samplers| <= 1
  {
    var nt, nb, ns := |l.textures|, |l.buffers|, |l.samplers|;
    LayoutNumbering(l);
    GroupNumbering(g);
    var gb, lb := GroupBindings(GroupEntries(g)), LayoutBindings(LayoutAsWritten(l));
    if ns <= 1 {
      forall k | 0 <= k < |gb|
        ensures gb[k] == lb[k]
      {
      }
    } else {
      assert gb[nt + nb + 1] == nt + nb + 1;
      assert lb[nt + nb + 1] == LayoutAsWritten(l)[nt + nb + 1].binding == nt + nb;
    }
  }

  /** As written, two or more samplers give a layout with a repeated binding number, which no
      bind group can match (wgpu refuses such a layout). */
  lemma {:induction false} AsWrittenLayoutRejectsTwoSamplers(l: BindGroupLayoutDescriptor, entries: seq<GroupEntry>)
    requires |l.samplers| >= 2
    ensures !DistinctBindings(LayoutAsWritten(l))
    ensures !Matches(entries, LayoutAsWritten(l))
  {
    var nt, nb := |l.textures|, |l.buffers|;
    LayoutNumbering(l);
    assert LayoutAsWritten(l)[nt + nb].binding == LayoutAsWritten(l)[nt + nb + 1].binding;
  }

  /** Corrected numbering: a group whose texture views suit their slots matches the layout
      built from a descriptor of the same shape, binding for binding. */
  lemma {:induction false} LayoutMatchesGroup(g: BindGroupDescriptor, l: BindGroupLayoutDescriptor)
    requires SameShape(g, l)
    requires forall k | 0 <= k < |l.textures| :: Fits(g.textures[k].view, TextureSlotType(l.textures[k]))
    ensures Matches(GroupEntries(g), Layout(l))
    ensures GroupBindings(GroupEntries(g)) == LayoutBindings(Layout(l))
  {
    var nt, nb, ns := |l.textures|, |l.buffers|, |l.samplers|;
    LayoutNumbering(l);
    GroupNumbering(g);
    var entries, layout := GroupEntries(g), Layout(l);
    forall k | 0 <= k < |layout|
      ensures layout[k].binding == k
      ensures Fits(entries[k].resource, layout[k].ty)
    {
      if k < nt {
      } else if k < nt + nb {
        assert layout[k] == LayoutEntry(nt + (k - nt), l.visibility, UniformSlot(NonZero(l.buffers[k - nt])));
      }
    }
  }
}
