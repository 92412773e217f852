/** `Cubemap::from_dds`: reads a DDS file of 32-bit float RGBA texels holding six faces, each a
    full mip chain, converts the texels to half floats and uploads every face and level of the
    chain into one `Rgba16Float` texture with six layers. */
module Cubemaps {
  import opened Wrappers
  import opened Math
  import opened Gpu

  datatype D3DFormat = A32B32G32R32F | OtherD3DFormat(code: nat)

  /** A parsed DDS file: its D3D format (absent when the pixel format has none), whether the
      cubemap capability flag is set, its size, its mip level count and its texel bytes. */
  datatype Dds = Dds(
    d3dFormat: Option<D3DFormat>, cubemapFlag: bool, width: nat, height: nat, mipLevels: nat,
    data: seq<byte>)

  /** A loaded cubemap: its format and texture; its view is the cube view. */
  datatype Cubemap = Cubemap(format: TextureFormat, texture: TextureId)
  {
    function View(): Resource
    {
      TextureView(texture, format, Cube)
    }
  }

  /** The file the image-based-lighting and skybox passes load when no path is configured. */
  const DefaultPath := "resources/OCEANMAN_UNSPECIFIED.dds"

  function PathOr(configured: Option<string>): (p: string)
    ensures configured.Some? ==> p == configured.value
    ensures configured.None? ==> p == DefaultPath
  {
    configured.GetOr(DefaultPath)
  }

  /** The checks `from_dds` makes before creating anything. */
  predicate Accepted(dds: Dds)
  {
    dds.d3dFormat == Some(A32B32G32R32F) && dds.cubemapFlag
  }

  function CubemapDesc(dds: Dds): TextureDesc
  {
    TextureDesc(Extent(dds.width, dds.height, 6), dds.mipLevels, 1, Rgba16Float, {CopyDst, TextureBinding})
  }

  /** The texel data read as little-endian `f32`s (a trailing partial word is ignored), each
      narrowed to `f16`. */
  function HalvesOf(data: seq<byte>): (v: seq<Half>)
    ensures |v| == |data| / 4
  {
    seq(|data| / 4, i requires 0 <= i < |data| / 4 =>
      FromF32Bits(LeWord(data[4 * i], data[4 * i + 1], data[4 * i + 2], data[4 * i + 3])))
  }

  /** The conversion loop building `vec_16f`. */
  method ConvertToHalves(data: seq<byte>) returns (v: seq<Half>)
    ensures v == HalvesOf(data)
  {
    v := [];
    for i := 0 to |data| / 4
      invariant v == HalvesOf(data)[..i]
    {
      var word := LeWord(data[i * 4], data[i * 4 + 1], data[i * 4 + 2], data[i * 4 + 3]);
      v := v + [FromF32Bits(word)];
    }
  }

  function Pow2(m: nat): (p: nat)
    ensures p >= 1
  {
    if m == 0 then 1 else 2 * Pow2(m - 1)
  }

  /** A side of mip level `m`: the side halved `m` times, rounding down. */
  function MipExtent(n: nat, m: nat): (e: nat)
    ensures e <= n
  {
    if m == 0 then n else MipExtent(n, m - 1) / 2
  }

  /** Halving `m` times is the source's single division by `2^m`. */
  lemma {:induction false} MipExtentIsQuotient(n: nat, m: nat)
    ensures MipExtent(n, m) == n / Pow2(m)
  {
    if m > 0 {
      MipExtentIsQuotient(n, m - 1);
      var p := Pow2(m - 1);
      HalveStep(n, p, n / p, n % p);
    }
  }

  /** Halving the quotient by `p` is dividing by `2 * p`. */
  lemma HalveStep(n: int, p: int, q: int, r: int)
    requires p >= 1 && q >= 0 && n == q * p + r && 0 <= r < p
    ensures q / 2 == n / (2 * p)
  {
    var half, bit := q / 2, q % 2;
    assert q == 2 * half + bit;
    MulSplit(half, bit, p);
    assert 0 <= bit * p + r < 2 * p by { if bit == 1 { assert bit * p == p; } }
    DivisionUnique(n, 2 * p, half, bit * p + r);
  }

  lemma DivisionUnique(n: int, d: int, q: int, r: int)
    requires d > 0 && n == q * d + r && 0 <= r < d
    ensures n / d == q
  {
    var q2, r2 := n / d, n % d;
    Distribute(q, q2, d);
    if q > q2 {
      MulAtLeast(q - q2, d);
    } else if q < q2 {
      Distribute(q2, q, d);
      MulAtLeast(q2 - q, d);
    }
  }

  lemma Distribute(a: int, b: int, d: int)
    ensures a * d - b * d == (a - b) * d
  {
  }

  lemma MulSplit(a: int, b: int, p: int)
    ensures (2 * a + b) * p == a * (2 * p) + b * p
  {
  }

  lemma MulAtLeast(a: int, d: int)
    requires a >= 1 && d > 0
    ensures a * d >= d
  {
  }

  /** The number of half floats of one face at mip level `m`: four channels of the level's
      texels. */
  function SliceLen(width: nat, height: nat, m: nat): nat
  {
    4 * Area(MipExtent(width, m), MipExtent(height, m))
  }

  /** `w * h`, by repeated addition, so that the offset proofs need no nonlinear arithmetic
      from the solver; `AreaIsProduct` ties it to the product. */
  function Area(w: nat, h: nat): nat
  {
    if h == 0 then 0 else Area(w, h - 1) + w
  }

  lemma {:induction false} AreaIsProduct(w: nat, h: nat)
    ensures Area(w, h) == w * h
  {
    if h > 0 {
      AreaIsProduct(w, h - 1);
      assert w * h == w * (h - 1) + w;
    }
  }

  /** The number of half floats of the first `n` levels of one face. */
  function ChainLen(width: nat, height: nat, n: nat): nat
  {
    if n == 0 then 0 else ChainLen(width, height, n - 1) + SliceLen(width, height, n - 1)
  }

  lemma {:induction false} ChainLenMonotone(width: nat, height: nat, m: nat, n: nat)
    requires m <= n
    ensures ChainLen(width, height, m) <= ChainLen(width, height, n)
  {
    if m < n {
      ChainLenMonotone(width, height, m, n - 1);
    }
  }

  /** The number of half floats of the first `f` faces, each a full chain. */
  function Before(dds: Dds, f: nat): nat
  {
    if f == 0 then 0 else Before(dds, f - 1) + ChainLen(dds.width, dds.height, dds.mipLevels)
  }

  lemma {:induction false} BeforeIsProduct(dds: Dds, f: nat)
    ensures Before(dds, f) == f * ChainLen(dds.width, dds.height, dds.mipLevels)
  {
    if f > 0 {
      var e := f - 1;
      BeforeIsProduct(dds, e);
      MulSucc(e, f, ChainLen(dds.width, dds.height, dds.mipLevels));
    }
  }

  lemma MulSucc(e: int, f: int, c: int)
    requires f == e + 1
    ensures f * c == e * c + c
  {
  }

  lemma {:induction false} BeforeMonotone(dds: Dds, f: nat, g: nat)
    requires f <= g
    ensures Before(dds, f) <= Before(dds, g)
  {
    if f < g {
      BeforeMonotone(dds, f, g - 1);
    }
  }

  /** The upload of level `mip` of face `face`, reading the slice that starts after `face`
      full chains and the first `mip` levels of this face. */
  function MipWrite(dds: Dds, halves: seq<Half>, face: nat, mip: nat): TextureWrite
    requires Before(dds, face) + ChainLen(dds.width, dds.height, mip + 1) <= |halves|
  {
    var w, h := MipExtent(dds.width, mip), MipExtent(dds.height, mip);
    var offset := Before(dds, face) + ChainLen(dds.width, dds.height, mip);
    TextureWrite(mip, face, 8 * w, h, Extent(w, h, 1), Halves(halves[offset .. offset + SliceLen(dds.width, dds.height, mip)]))
  }

  /** The uploads of the first `n` levels of face `face`, in level order. */
  function FaceWrites(dds: Dds, halves: seq<Half>, face: nat, n: nat): seq<TextureWrite>
    requires Before(dds, face) + ChainLen(dds.width, dds.height, n) <= |halves|
  {
    if n == 0 then [] else FaceWrites(dds, halves, face, n - 1) + [MipWrite(dds, halves, face, n - 1)]
  }

  /** The uploads of the first `f` faces, face-major. */
  function FacesWrites(dds: Dds, halves: seq<Half>, f: nat): seq<TextureWrite>
    requires Before(dds, f) <= |halves|
  {
    if f == 0 then []
    else
      FacesWrites(dds, halves, f - 1) + FaceWrites(dds, halves, f - 1, dds.mipLevels)
  }

  /** The file can be loaded without a panic: it exists and parses, passes the format and
      cubemap checks, `2^mip` fits a `u32` at every level, and the data holds six full chains. */
  predicate Loadable(files: map<string, Dds>, path: string)
  {
    && path in files
    && Accepted(files[path])
    && files[path].mipLevels <= 32
    && 6 * ChainLen(files[path].width, files[path].height, files[path].mipLevels) <= |files[path].data| / 4
  }

  /** All uploads of a loadable file. */
  function Uploads(dds: Dds): seq<TextureWrite>
    requires 6 * ChainLen(dds.width, dds.height, dds.mipLevels) <= |dds.data| / 4
  {
    BeforeIsProduct(dds, 6);
    FacesWrites(dds, HalvesOf(dds.data), 6)
  }

  function HalvesOfWrite(w: TextureWrite): seq<Half>
  {
    if w.data.Halves? then w.data.halves else []
  }

  /** The half floats a sequence of uploads reads, in upload order. */
  function WrittenHalves(ws: seq<TextureWrite>): seq<Half>
  {
    if ws == [] then [] else WrittenHalves(ws[..|ws| - 1]) + HalvesOfWrite(ws[|ws| - 1])
  }

  lemma {:induction false} WrittenHalvesAppend(a: seq<TextureWrite>, b: seq<TextureWrite>)
    ensures WrittenHalves(a + b) == WrittenHalves(a) + WrittenHalves(b)
  {
    if b != [] {
      var b' := b[..|b| - 1];
      assert (a + b)[..|a + b| - 1] == a + b';
      WrittenHalvesAppend(a, b');
    } else {
      assert a + b == a;
    }
  }

  lemma SliceConcat(s: seq<Half>, lo: nat, mid: nat, hi: nat)
    requires lo <= mid <= hi <= |s|
    ensures s[lo .. mid] + s[mid .. hi] == s[lo .. hi]
  {
  }

  lemma WrittenHalvesSnoc(ws: seq<TextureWrite>, w: TextureWrite)
    ensures WrittenHalves(ws + [w]) == WrittenHalves(ws) + HalvesOfWrite(w)
  {
    assert (ws + [w])[..|ws + [w]| - 1] == ws;
  }

  /** Level `m` of a face reads the slice between the end of the first `m` levels and the
      end of the first `n = m + 1`. */
  lemma MipWriteReads(dds: Dds, halves: seq<Half>, face: nat, m: nat, n: nat)
    requires n == m + 1 && Before(dds, face) + ChainLen(dds.width, dds.height, n) <= |halves|
    ensures HalvesOfWrite(MipWrite(dds, halves, face, m))
         == halves[Before(dds, face) + ChainLen(dds.width, dds.height, m) .. Before(dds, face) + ChainLen(dds.width, dds.height, n)]
  {
  }

  /** Uploads that read `halves[lo .. mid]`, followed by one that reads `halves[mid .. hi]`,
      read `halves[lo .. hi]`. */
  lemma JoinWrite(halves: seq<Half>, ws: seq<TextureWrite>, w: TextureWrite, lo: nat, mid: nat, hi: nat)
    requires lo <= mid <= hi <= |halves|
    requires WrittenHalves(ws) == halves[lo .. mid] && HalvesOfWrite(w) == halves[mid .. hi]
    ensures WrittenHalves(ws + [w]) == halves[lo .. hi]
  {
    WrittenHalvesSnoc(ws, w);
    SliceConcat(halves, lo, mid, hi);
  }

  /** Uploads that read the first `mid` half floats, followed by uploads that read
      `halves[mid .. hi]`, read the first `hi`. */
  lemma JoinWrites(halves: seq<Half>, a: seq<TextureWrite>, b: seq<TextureWrite>, mid: nat, hi: nat)
    requires mid <= hi <= |halves|
    requires WrittenHalves(a) == halves[..mid] && WrittenHalves(b) == halves[mid .. hi]
    ensures WrittenHalves(a + b) == halves[..hi]
  {
    WrittenHalvesAppend(a, b);
    SliceConcat(halves, 0, mid, hi);
    assert halves[..mid] == halves[0 .. mid] && halves[..hi] == halves[0 .. hi];
  }

  /** One face's uploads read the slice of its chain without gap or overlap. */
  lemma {:induction false} FaceWritesTile(dds: Dds, halves: seq<Half>, face: nat, n: nat)
    requires Before(dds, face) + ChainLen(dds.width, dds.height, n) <= |halves|
    ensures WrittenHalves(FaceWrites(dds, halves, face, n))
         == halves[Before(dds, face) .. Before(dds, face) + ChainLen(dds.width, dds.height, n)]
  {
    if n > 0 {
      var m := n - 1;
      var lo := Before(dds, face);
      var mid, hi := lo + ChainLen(dds.width, dds.height, m), lo + ChainLen(dds.width, dds.height, n);
      var prev, last := FaceWrites(dds, halves, face, m), MipWrite(dds, halves, face, m);
      assert mid <= hi;
      FaceWritesTile(dds, halves, face, m);
      MipWriteReads(dds, halves, face, m, n);
      JoinWrite(halves, prev, last, lo, mid, hi);
      assert FaceWrites(dds, halves, face, n) == prev + [last];
    }
  }

  /** The uploads of the first `f` faces read the converted data from its start, each half
      float exactly once. */
  lemma {:induction false} FacesWritesTile(dds: Dds, halves: seq<Half>, f: nat)
    requires Before(dds, f) <= |halves|
    ensures WrittenHalves(FacesWrites(dds, halves, f)) == halves[..Before(dds, f)]
  {
    if f > 0 {
      var e := f - 1;
      var lo := Before(dds, e);
      var hi := lo + ChainLen(dds.width, dds.height, dds.mipLevels);
      assert Before(dds, f) == hi;
      var a, b := FacesWrites(dds, halves, e), FaceWrites(dds, halves, e, dds.mipLevels);
      FacesWritesTile(dds, halves, e);
      FaceWritesTile(dds, halves, e, dds.mipLevels);
      JoinWrites(halves, a, b, lo, hi);
      assert FacesWrites(dds, halves, f) == a + b;
    }
  }

  lemma {:induction false} FaceWritesShape(dds: Dds, halves: seq<Half>, face: nat, n: nat)
    requires Before(dds, face) + ChainLen(dds.width, dds.height, n) <= |halves|
    ensures |FaceWrites(dds, halves, face, n)| == n
    ensures forall k | 0 <= k < n :: FaceWrites(dds, halves, face, n)[k].mipLevel == k
    ensures forall k | 0 <= k < n :: FaceWrites(dds, halves, face, n)[k].originLayer == face
  {
    if n > 0 {
      FaceWritesShape(dds, halves, face, n - 1);
    }
  }

  /** Every upload's layout describes exactly its data: `8 * w` bytes per row (four
      two-byte channels), `h` rows, and `4 * w * h` half floats. */
  lemma MipWriteLayout(dds: Dds, halves: seq<Half>, face: nat, mip: nat)
    requires Before(dds, face) + ChainLen(dds.width, dds.height, mip + 1) <= |halves|
    ensures var w := MipWrite(dds, halves, face, mip);
      && w.mipLevel == mip && w.originLayer == face
      && w.extent == Extent(MipExtent(dds.width, mip), MipExtent(dds.height, mip), 1)
      && w.bytesPerRow == 8 * w.extent.width && w.rowsPerImage == w.extent.height
      && |w.data.halves| == 4 * w.extent.width * w.extent.height
      && 2 * |w.data.halves| == w.bytesPerRow * w.rowsPerImage
  {
    var w, h := MipExtent(dds.width, mip), MipExtent(dds.height, mip);
    var write := MipWrite(dds, halves, face, mip);
    assert |write.data.halves| == 4 * Area(w, h);
    AreaIsProduct(w, h);
    LayoutArith(w, h, |write.data.halves|);
  }

  lemma LayoutArith(w: nat, h: nat, len: nat)
    requires len == 4 * (w * h)
    ensures len == 4 * w * h && 2 * len == (8 * w) * h
  {
  }

  /** The uploads of a loadable file: six faces of `mipLevels` uploads each, face-major, that
      together read the first `6 * ChainLen` converted half floats in order, so the final
      offset is six full chains. */
  lemma UploadsTileTheData(dds: Dds)
    requires 6 * ChainLen(dds.width, dds.height, dds.mipLevels) <= |dds.data| / 4
    ensures WrittenHalves(Uploads(dds)) == HalvesOf(dds.data)[..6 * ChainLen(dds.width, dds.height, dds.mipLevels)]
  {
    BeforeIsProduct(dds, 6);
    FacesWritesTile(dds, HalvesOf(dds.data), 6);
  }

  /** The inner loop of `from_dds` for one face: each level in turn, the slice at `offset`
      is uploaded and `offset` advances past it. On success the offset has moved past one
      full chain. */
  method UploadFace(device: Device, id: TextureId, dds: Dds, halves: seq<Half>, face: nat, offset0: nat)
      returns (r: Fallible<nat>)
    requires id < |device.textures|
    requires offset0 == Before(dds, face) <= |halves|
    modifies device
    ensures r.Done? <==> dds.mipLevels <= 32 && Before(dds, face + 1) <= |halves|
    ensures r.Done? ==>
      && r.value == Before(dds, face + 1)
      && device.textures == old(device.textures)[id := old(device.textures)[id].(
           writes := old(device.textures)[id].writes + FaceWrites(dds, halves, face, dds.mipLevels))]
    ensures |device.textures| == |old(device.textures)|
    ensures forall i | 0 <= i < |device.textures| && i != id :: device.textures[i] == old(device.textures[i])
    ensures device.textures[id].desc == old(device.textures[id].desc)
    ensures device.textures[id].destroyed == old(device.textures[id].destroyed)
    ensures device.samplers == old(device.samplers) && device.handles == old(device.handles)
  {
    var offset := offset0;
    var mip := 0;
    assert old(device.textures)[id].writes + FaceWrites(dds, halves, face, 0) == old(device.textures)[id].writes;
    assert device.textures == old(device.textures)[id := old(device.textures)[id]];
    while mip < dds.mipLevels
      invariant 0 <= mip <= dds.mipLevels && mip <= 32
      invariant offset == Before(dds, face) + ChainLen(dds.width, dds.height, mip) <= |halves|
      invariant device.textures == old(device.textures)[id := old(device.textures)[id].(
        writes := old(device.textures)[id].writes + FaceWrites(dds, halves, face, mip))]
      invariant device.samplers == old(device.samplers) && device.handles == old(device.handles)
    {
      if mip >= 32 {
        // `2_u32.pow(32)` overflows (and wraps to a zero divisor in release builds)
        return Panic("attempt to multiply with overflow");
      }
      var next := mip + 1;
      var w, h := MipExtent(dds.width, mip), MipExtent(dds.height, mip);
      var len := SliceLen(dds.width, dds.height, mip);
      if offset + len > |halves| {
        ChainLenMonotone(dds.width, dds.height, next, dds.mipLevels);
        return Panic("range end index out of range for slice");
      }
      ghost var before := device.textures;
      var write := TextureWrite(mip, face, 8 * w, h, Extent(w, h, 1), Halves(halves[offset .. offset + len]));
      assert write == MipWrite(dds, halves, face, mip);
      device.WriteTexture(id, write);
      ghost var w0 := old(device.textures)[id].writes;
      assert FaceWrites(dds, halves, face, next) == FaceWrites(dds, halves, face, mip) + [write];
      assert before[id].writes + [write] == w0 + FaceWrites(dds, halves, face, next);
      assert device.textures == old(device.textures)[id := old(device.textures)[id].(
        writes := w0 + FaceWrites(dds, halves, face, next))];
      offset := offset + len;
      mip := next;
    }
    r := Done(offset);
  }

  /** `from_dds`. Reading or parsing the file fails (panics) when `path` is not in `files`. */
  method FromDds(device: Device, files: map<string, Dds>, path: string) returns (r: Fallible<Cubemap>)
    modifies device
    ensures r.Done? <==> Loadable(files, path)
    ensures !(path in files && Accepted(files[path])) ==> device.textures == old(device.textures)
    ensures path in files && Accepted(files[path]) ==>
      && |device.textures| == |old(device.textures)| + 1
      && device.textures[..|old(device.textures)|] == old(device.textures)
      && device.textures[|old(device.textures)|].desc == CubemapDesc(files[path])
      && !device.textures[|old(device.textures)|].destroyed
    ensures r.Done? ==>
      && r.value == Cubemap(Rgba16Float, |old(device.textures)|)
      && device.textures[r.value.texture].writes == Uploads(files[path])
      && device.textures == old(device.textures) + [TextureRecord(CubemapDesc(files[path]), false, Uploads(files[path]))]
    ensures device.samplers == old(device.samplers) && device.handles == old(device.handles)
  {
    if path !in files {
      return Panic("called `Result::unwrap()` on an `Err` value");
    }
    var dds := files[path];
    if dds.d3dFormat.None? {
      return Panic("called `Option::unwrap()` on a `None` value");
    }
    if dds.d3dFormat.value != A32B32G32R32F {
      return Panic("Format is: {:?}");
    }
    if !dds.cubemapFlag {
      return Panic("DDS needs cubemap");
    }
    var desc := CubemapDesc(dds);
    var id := device.CreateTexture(desc);
    var halves := ConvertToHalves(dds.data);
    var offset := 0;
    for face := 0 to 6
      invariant face > 0 ==> dds.mipLevels <= 32
      invariant offset == Before(dds, face) <= |halves|
      invariant |device.textures| == id + 1 && device.textures[..id] == old(device.textures)
      invariant device.textures[id] == TextureRecord(desc, false, FacesWrites(dds, halves, face))
      invariant device.samplers == old(device.samplers) && device.handles == old(device.handles)
    {
      var step := UploadFace(device, id, dds, halves, face, offset);
      if step.Panic? {
        BeforeMonotone(dds, face + 1, 6);
        BeforeIsProduct(dds, 6);
        assert device.textures[..id] == old(device.textures);
        return Panic(step.message);
      }
      offset := step.value;
    }
    BeforeIsProduct(dds, 6);
    assert device.textures == old(device.textures) + [device.textures[id]];
    r := Done(Cubemap(Rgba16Float, id));
  }
}
