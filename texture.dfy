/** `Texture` and `Sampler` constructors of the renderer: each builds one texture descriptor
    (and, for textures made from bytes, one upload), with the format defaulting to
    `Rgba8UnormSrgb`. */
module Textures {
  import opened Wrappers
  import opened Math
  import opened Gpu
  import ResourceManager

  /** `Texture::DEPTH_FORMAT` */
  const DepthFormat := Depth32Float

  /** The texture a constructor asks the device for and the upload it makes, if any. */
  datatype TextureCreation = TextureCreation(desc: TextureDesc, upload: Option<TextureWrite>)

  /** A created texture: its format and its id in the device's table. Its view is the default
      one, a 2D view of the single layer. */
  datatype Texture = Texture(format: TextureFormat, texture: TextureId)
  {
    function View(): Resource
    {
      TextureView(texture, format, D2)
    }
  }

  function ResolveFormat(format: Option<TextureFormat>): (f: TextureFormat)
    ensures format.None? ==> f == Rgba8UnormSrgb
    ensures format.Some? ==> f == format.value
  {
    format.GetOr(Rgba8UnormSrgb)
  }

  const FromBytesUsage: set<TextureUsage> := {TextureBinding, RenderAttachment, CopyDst}

  /** `create_from_bytes`: a single-layer texture of the given size, then one write of the
      bytes with a 4-byte-per-pixel row pitch. Only the two 8-bit RGBA formats are accepted;
      any other format panics before the write; the model then records no texture at all,
      though the source has already made one. The length of `bytes` is not checked here. */
  function CreateFromBytes(bytes: seq<byte>, width: nat, height: nat, format: Option<TextureFormat>)
    : (r: Fallible<TextureCreation>)
    ensures r.Done? <==> ResolveFormat(format) in {Rgba8UnormSrgb, Rgba8Unorm}
    ensures r.Done? ==>
      && r.value.desc == TextureDesc(Extent(width, height, 1), 1, 1, ResolveFormat(format), FromBytesUsage)
      && r.value.upload == Some(TextureWrite(0, 0, 4 * width, height, Extent(width, height, 1), Bytes(bytes)))
  {
    var f := ResolveFormat(format);
    var bytesPerPixel := match f
      case Rgba8UnormSrgb => Some(4)
      case Rgba8Unorm => Some(4)
      case _ => None;
    if bytesPerPixel.None? then Panic("Unsupported format")
    else
      Done(TextureCreation(
        TextureDesc(Extent(width, height, 1), 1, 1, f, FromBytesUsage),
        Some(TextureWrite(0, 0, bytesPerPixel.value * width, height, Extent(width, height, 1), Bytes(bytes)))))
  }

  /** `create`: the same texture as `create_from_bytes` would make, usable also as a copy
      source, and no upload. */
  function Create(width: nat, height: nat, format: Option<TextureFormat>): (c: TextureCreation)
    ensures c.upload.None? && c.desc.format == ResolveFormat(format)
    ensures c.desc.size == Extent(width, height, 1) && c.desc.mipLevels == 1
    ensures CopySrc in c.desc.usage && CopyDst in c.desc.usage
  {
    TextureCreation(
      TextureDesc(Extent(width, height, 1), 1, 1, ResolveFormat(format), FromBytesUsage + {CopySrc}),
      None)
  }

  /** `create_1x1_texture`: a single texel, uploaded with a 4-byte row pitch; the format rule
      is that of `create_from_bytes`. */
  function Create1x1Texture(data: seq<byte>, format: Option<TextureFormat>): (r: Fallible<TextureCreation>)
    ensures r.Done? <==> ResolveFormat(format) in {Rgba8UnormSrgb, Rgba8Unorm}
    ensures r.Done? ==>
      && r.value.desc.size == Extent(1, 1, 1)
      && r.value.desc.format == ResolveFormat(format)
      && r.value.upload == Some(TextureWrite(0, 0, 4, 1, Extent(1, 1, 1), Bytes(data)))
  {
    CreateFromBytes(data, 1, 1, format)
  }

  /** `create_depth_texture`: a surface-sized `Depth32Float` render attachment. */
  function CreateDepthTexture(config: SurfaceConfig): (c: TextureCreation)
    ensures IsDepthFormat(c.desc.format) && c.upload.None?
    ensures c.desc.size == Extent(config.width, config.height, 1)
  {
    TextureCreation(
      TextureDesc(Extent(config.width, config.height, 1), 1, 1, DepthFormat, {RenderAttachment, TextureBinding}),
      None)
  }

  /** `create` and `create_from_bytes` agree on everything but the extra copy-source usage
      and the upload; `create` never panics, whatever the format. */
  lemma CreateExtendsFromBytes(bytes: seq<byte>, width: nat, height: nat, format: Option<TextureFormat>)
    ensures Create(width, height, format).upload.None?
    ensures CreateFromBytes(bytes, width, height, format).Done? ==>
      var d := CreateFromBytes(bytes, width, height, format).value.desc;
      Create(width, height, format).desc == d.(usage := d.usage + {CopySrc})
    ensures Create(width, height, format).desc.format == ResolveFormat(format)
    ensures CopySrc !in FromBytesUsage
  {
  }

  /** The depth texture always has the depth format and the surface's size, and can be both
      rendered to and sampled, but not copied. */
  lemma DepthTextureShape(config: SurfaceConfig)
    ensures CreateDepthTexture(config).desc.format == Depth32Float && IsDepthFormat(CreateDepthTexture(config).desc.format)
    ensures CreateDepthTexture(config).desc.size == Extent(config.width, config.height, 1)
    ensures CreateDepthTexture(config).desc.usage == {RenderAttachment, TextureBinding}
    ensures CreateDepthTexture(config).upload.None?
  {
  }

  /** The row pitch `create_from_bytes` uses is the one the resource manager's table gives for
      the same format, and the upload covers the whole texture. */
  lemma FromBytesPitchAgreesWithTable(bytes: seq<byte>, width: nat, height: nat, format: Option<TextureFormat>)
    requires CreateFromBytes(bytes, width, height, format).Done?
    ensures var c := CreateFromBytes(bytes, width, height, format).value;
      && ResourceManager.BytesPerPixel(c.desc.format) == Some(4)
      && c.upload.value.bytesPerRow == ResourceManager.BytesPerPixel(c.desc.format).value * c.desc.size.width
      && c.upload.value.extent == c.desc.size
  {
  }

  /** Makes the texture a constructor describes and performs its upload. */
  method Build(device: Device, c: TextureCreation) returns (t: Texture)
    modifies device
    ensures t == Texture(c.desc.format, |old(device.textures)|)
    ensures device.textures == old(device.textures) +
      [TextureRecord(c.desc, false, if c.upload.Some? then [c.upload.value] else [])]
    ensures device.samplers == old(device.samplers) && device.handles == old(device.handles)
  {
    var id := device.CreateTexture(c.desc);
    if c.upload.Some? {
      device.WriteTexture(id, c.upload.value);
      assert device.textures[id] == TextureRecord(c.desc, false, [c.upload.value]);
      assert device.textures == old(device.textures) + [device.textures[id]];
    }
    t := Texture(c.desc.format, id);
  }

  /** `Sampler::diffuse_texture_sampler` */
  function DiffuseTextureSampler(): SamplerDesc
  {
    SamplerDesc(Repeat, Linear, Linear, Nearest, 0.0, 0.0, None, 1)
  }

  /** `Sampler::normal_texture_sampler`: normal maps are sampled like diffuse textures, with
      repeat addressing, linear filtering and no comparison. */
  function NormalTextureSampler(): (s: SamplerDesc)
    ensures s.addressMode == Repeat && s.compare.None?
    ensures s.magFilter == Linear && s.minFilter == Linear && s.mipmapFilter == Nearest
    ensures s == DiffuseTextureSampler()
  {
    DiffuseTextureSampler()
  }

  /** `Sampler::shadow_map_sampler` */
  function ShadowMapSampler(): SamplerDesc
  {
    SamplerDesc(ClampToEdge, Linear, Linear, Nearest, 0.0, 100.0, Some(Less), 1)
  }

  /** Of the three samplers only the shadow-map sampler compares (with `Less`) and clamps to
      the edge; the other two repeat and never compare. */
  lemma OnlyShadowSamplerCompares()
    ensures ShadowMapSampler().compare == Some(Less) && ShadowMapSampler().addressMode == ClampToEdge
    ensures DiffuseTextureSampler().compare.None? && NormalTextureSampler().compare.None?
    ensures DiffuseTextureSampler().addressMode == Repeat == NormalTextureSampler().addressMode
  {
  }
}
