/** The shadow-map pass: depth only, from the light's projection, one indexed draw per mesh
    with only the light's uniform and the mesh's uniform bound. */
module WriteShadowmaps {
  import opened Wrappers
  import opened Math
  import opened Gpu
  import Resources
  import Textures
  import opened WriteGBuffers

  /** What the shadow uniform buffer holds: the light's projection-view matrix. */
  datatype ShadowUniformData = ShadowUniformData(projection: Mat4)

  /** `size_of::<ShadowUniformData>()`: one 4x4 matrix of `f32`. */
  const ShadowUniformSize: nat := 16 * 4

  /** `ShadowUniform::bind_group_layout`: one uniform buffer at binding 0, read by the vertex
      stage only, at least one matrix long. */
  function ShadowLayout(): (l: seq<LayoutEntry>)
    ensures |l| == 1 && l[0].binding == 0 && l[0].visibility == {Vertex}
    ensures l[0].ty == UniformSlot(Some(64))
  {
    [LayoutEntry(0, {Vertex}, UniformSlot(NonZero(ShadowUniformSize)))]
  }

  /** `ShadowUniform`: the buffer and its group are fixed; `update` overwrites the contents. */
  class ShadowUniform {
    const buffer: BufferId
    const bindGroup: BindGroup
    var contents: ShadowUniformData

    constructor(device: Device, data: ShadowUniformData)
      modifies device
      ensures contents == data
      ensures buffer == old(device.handles)
      ensures bindGroup == BindGroup(buffer + 1, ShadowLayout(), [GroupEntry(0, WholeBuffer(buffer))])
      ensures device.handles == old(device.handles) + 2
      ensures device.textures == old(device.textures) && device.samplers == old(device.samplers)
    {
      var b := device.NewHandle();
      var g := device.NewHandle();
      buffer := b;
      bindGroup := BindGroup(g, ShadowLayout(), [GroupEntry(0, WholeBuffer(b))]);
      contents := data;
    }

    method Update(data: ShadowUniformData)
      modifies this`contents
      ensures contents == data
    {
      contents := data;
    }
  }

  /** The shadow uniform's group fills its layout. */
  lemma ShadowGroupMatches(u: ShadowUniform)
    requires u.bindGroup == BindGroup(u.buffer + 1, ShadowLayout(), [GroupEntry(0, WholeBuffer(u.buffer))])
    ensures Matches(u.bindGroup.entries, u.bindGroup.layout)
  {
  }

  /** `WriteShadowmaps::pipeline`: the shadow layout in group 0 and the mesh layout in group 1,
      no fragment stage and no colour target, no culling, depth tested with `Less` and
      written. */
  function ShadowPipelineDesc(): (p: PipelineDesc)
    ensures p.layouts == [ShadowLayout(), Resources.UnsizedUniformLayout()]
    ensures !p.hasFragment && p.targets == [] && !p.cullBack
    ensures p.depth == Some(DepthState(Textures.DepthFormat, true, Less))
  {
    PipelineDesc([ShadowLayout(), Resources.UnsizedUniformLayout()], false, [],
                 Some(DepthState(Textures.DepthFormat, true, Less)), false)
  }

  /** The render pass `pass` begins: no colour attachment, the shadow map cleared to 1. */
  function ShadowPass(shadowmap: TextureId, commands: seq<Command>): RenderPass
  {
    RenderPass(Some("Write Shadowmaps pass"), [], Some(DepthAttachment(shadowmap, Clear(1.0), true)), commands)
  }

  /** The four commands for one mesh: its uniform in group 1, its buffers, one draw of all
      its indices. */
  function ShadowMeshCommands(m: DrawMesh): seq<Command>
  {
    [SetBindGroup(1, m.bindGroup), SetIndexBuffer(m.indexBuffer, Uint32), SetVertexBuffer(0, m.vertexBuffer),
     DrawIndexed(Range(0, m.indexCount), 0, Range(0, 1))]
  }

  function ShadowMeshesCommands(ms: seq<DrawMesh>): seq<Command>
  {
    if ms == [] then [] else ShadowMeshesCommands(ms[..|ms| - 1]) + ShadowMeshCommands(ms[|ms| - 1])
  }

  /** The commands of `pass`: the pipeline, the shadow uniform in group 0, then the meshes. */
  function ShadowCommands(pipeline: Pipeline, uniform: BindGroup, ms: seq<DrawMesh>): seq<Command>
  {
    [SetPipeline(pipeline.id), SetBindGroup(0, uniform)] + ShadowMeshesCommands(ms)
  }

  /** The k-th block of four commands. */
  function Quad(cs: seq<Command>, k: nat): seq<Command>
    requires 4 * k + 4 <= |cs|
  {
    cs[4 * k..4 * k + 4]
  }

  /** One block of four per mesh, in mesh order. */
  lemma {:induction false} ShadowMeshesShape(ms: seq<DrawMesh>)
    ensures |ShadowMeshesCommands(ms)| == 4 * |ms|
    ensures forall k | 0 <= k < |ms| :: Quad(ShadowMeshesCommands(ms), k) == ShadowMeshCommands(ms[k])
    decreases |ms|
  {
    if ms != [] {
      var init := ms[..|ms| - 1];
      ShadowMeshesShape(init);
      var before, cs := ShadowMeshesCommands(init), ShadowMeshesCommands(ms);
      forall k | 0 <= k < |ms|
        ensures Quad(cs, k) == ShadowMeshCommands(ms[k])
      {
        if k < |init| {
          assert Quad(cs, k) == Quad(before, k) && init[k] == ms[k];
        } else {
          assert Quad(cs, k) == cs[|before|..];
        }
      }
    }
  }

  /** Past the first two commands, the pass is one block of four per mesh, in mesh order. */
  lemma ShadowBlocks(pipeline: Pipeline, uniform: BindGroup, ms: seq<DrawMesh>)
    ensures var cs := ShadowCommands(pipeline, uniform, ms);
      && |cs| == 2 + 4 * |ms|
      && forall k | 0 <= k < |ms| :: cs[2 + 4 * k..6 + 4 * k] == ShadowMeshCommands(ms[k])
  {
    ShadowMeshesShape(ms);
    var body := ShadowMeshesCommands(ms);
    var cs := ShadowCommands(pipeline, uniform, ms);
    forall k | 0 <= k < |ms|
      ensures cs[2 + 4 * k..6 + 4 * k] == ShadowMeshCommands(ms[k])
    {
      assert cs[2 + 4 * k..6 + 4 * k] == Quad(body, k);
    }
  }

  /** Position `i` past the first two is entry `j` of block `k`. */
  lemma SplitIndex(i: int, k: int, j: int)
    requires i >= 2 && k == (i - 2) / 4 && j == (i - 2) % 4
    ensures k >= 0 && 0 <= j < 4 && i == 2 + 4 * k + j
  {
  }

  /** Command i of the pass, past the first two, is command (i - 2) % 4 of mesh (i - 2) / 4. */
  lemma ShadowCommandAt(pipeline: Pipeline, uniform: BindGroup, ms: seq<DrawMesh>, i: int)
    requires 2 <= i < |ShadowCommands(pipeline, uniform, ms)|
    ensures 0 <= (i - 2) / 4 < |ms|
    ensures ShadowCommands(pipeline, uniform, ms)[i] == ShadowMeshCommands(ms[(i - 2) / 4])[(i - 2) % 4]
  {
    ShadowBlocks(pipeline, uniform, ms);
    var cs := ShadowCommands(pipeline, uniform, ms);
    var k, j := (i - 2) / 4, (i - 2) % 4;
    SplitIndex(i, k, j);
    assert cs[i] == cs[2 + 4 * k..6 + 4 * k][j];
  }

  /** The pass binds the shadow uniform in group 0 once, after the pipeline; every other
      group it binds is a mesh's own uniform in group 1, so no material is ever bound; and it
      makes one indexed draw per mesh, of the mesh's whole index range, in mesh order. */
  lemma ShadowPassBindsNoMaterial(pipeline: Pipeline, uniform: BindGroup, ms: seq<DrawMesh>)
    ensures var cs := ShadowCommands(pipeline, uniform, ms);
      && |cs| == 2 + 4 * |ms|
      && cs[0] == SetPipeline(pipeline.id) && cs[1] == SetBindGroup(0, uniform)
      && (forall i | 2 <= i < |cs| && cs[i].SetBindGroup? ::
            cs[i].index == 1 && cs[i].group == ms[(i - 2) / 4].bindGroup)
      && (forall i | 0 <= i < |cs| :: cs[i].DrawIndexed? <==> 2 <= i && (i - 2) % 4 == 3)
      && (forall k | 0 <= k < |ms| :: cs[5 + 4 * k] == DrawIndexed(Range(0, ms[k].indexCount), 0, Range(0, 1)))
  {
    ShadowBlocks(pipeline, uniform, ms);
    var cs := ShadowCommands(pipeline, uniform, ms);
    forall i | 2 <= i < |cs|
      ensures 0 <= (i - 2) / 4 < |ms|
      ensures cs[i].SetBindGroup? ==> cs[i].index == 1 && cs[i].group == ms[(i - 2) / 4].bindGroup
      ensures cs[i].DrawIndexed? <==> (i - 2) % 4 == 3
    {
      ShadowCommandAt(pipeline, uniform, ms, i);
    }
    forall k | 0 <= k < |ms|
      ensures cs[5 + 4 * k] == DrawIndexed(Range(0, ms[k].indexCount), 0, Range(0, 1))
    {
      assert cs[5 + 4 * k] == cs[2 + 4 * k..6 + 4 * k][3];
    }
  }

  /** The shadow pass draws the same index ranges, in the same order, as the geometry pass,
      whenever the geometry pass does not panic. */
  lemma ShadowDrawsMatchGeometryDraws(gpipeline: Pipeline, spipeline: Pipeline, uniform: BindGroup, scene: DrawScene)
    requires PassCommands(gpipeline, scene).Done?
    ensures var g, s := PassCommands(gpipeline, scene).value, ShadowCommands(spipeline, uniform, scene.meshes);
      && |g| == 2 + 5 * |scene.meshes| && |s| == 2 + 4 * |scene.meshes|
      && forall k | 0 <= k < |scene.meshes| :: g[6 + 5 * k] == s[5 + 4 * k]
  {
    PassBlocks(gpipeline, scene);
    ShadowBlocks(spipeline, uniform, scene.meshes);
    var g := PassCommands(gpipeline, scene).value;
    var s := ShadowCommands(spipeline, uniform, scene.meshes);
    forall k | 0 <= k < |scene.meshes|
      ensures g[6 + 5 * k] == s[5 + 4 * k]
    {
      var m := scene.meshes[k];
      assert g[6 + 5 * k] == g[2 + 5 * k..7 + 5 * k][4] == MeshCommands(scene.materialGroups, m).value[4];
      assert s[5 + 4 * k] == s[2 + 4 * k..6 + 4 * k][3] == ShadowMeshCommands(m)[3];
    }
  }

  /** Every group the shadow pass binds was created against the layout the pipeline expects
      in its slot. */
  lemma ShadowPassFitsPipeline(pipeline: Pipeline, uniform: BindGroup, ms: seq<DrawMesh>)
    requires pipeline.desc == ShadowPipelineDesc() && uniform.layout == ShadowLayout()
    requires forall m | m in ms :: m.bindGroup.layout == Resources.UnsizedUniformLayout()
    ensures GroupsFitPipeline(ShadowCommands(pipeline, uniform, ms), pipeline.desc)
  {
    ShadowPassBindsNoMaterial(pipeline, uniform, ms);
    var cs := ShadowCommands(pipeline, uniform, ms);
    forall i | 2 <= i < |cs| && cs[i].SetBindGroup?
      ensures cs[i].group.layout == Resources.UnsizedUniformLayout()
    {
      assert ms[(i - 2) / 4] in ms;
    }
  }

  class WriteShadowmapsPass {
    const pipeline: Pipeline
    const shadowUniform: ShadowUniform

    /** `WriteShadowmaps::new`: the shader, the shadow uniform holding `data`, the pipeline. */
    constructor(device: Device, data: ShadowUniformData)
      modifies device
      ensures pipeline.desc == ShadowPipelineDesc()
      ensures shadowUniform.contents == data && shadowUniform.bindGroup.layout == ShadowLayout()
      ensures fresh(shadowUniform)
    {
      var shader := device.NewHandle();
      var u := new ShadowUniform(device, data);
      var id := device.NewHandle();
      pipeline := Pipeline(id, shader, ShadowPipelineDesc());
      shadowUniform := u;
    }

    /** `update_shadow_uniform`: the uniform's contents are replaced; nothing else changes. */
    method UpdateShadowUniform(data: ShadowUniformData)
      modifies shadowUniform`contents
      ensures shadowUniform.contents == data
    {
      shadowUniform.Update(data);
    }

    /** `WriteShadowmaps::pass`: one render pass into the shadow map. */
    method Pass(meshes: seq<DrawMesh>, shadowmap: TextureId, encoder: CommandEncoder)
      modifies encoder
      ensures encoder.passes == old(encoder.passes) +
        [ShadowPass(shadowmap, ShadowCommands(pipeline, shadowUniform.bindGroup, meshes))]
    {
      encoder.BeginRenderPass(Some("Write Shadowmaps pass"), [], Some(DepthAttachment(shadowmap, Clear(1.0), true)));
      ghost var before := old(encoder.passes);
      assert encoder.passes == before + [ShadowPass(shadowmap, [])];
      var c0, c1 := SetPipeline(pipeline.id), SetBindGroup(0, shadowUniform.bindGroup);
      encoder.Record(c0);
      assert [] + [c0] == [c0];
      assert encoder.passes == before + [ShadowPass(shadowmap, [c0])];
      encoder.Record(c1);
      var prefix := [c0, c1];
      assert [c0] + [c1] == prefix;
      assert encoder.passes == before + [ShadowPass(shadowmap, prefix)];
      assert prefix + [] == prefix;
      for i := 0 to |meshes|
        invariant encoder.passes == before + [ShadowPass(shadowmap, prefix + ShadowMeshesCommands(meshes[..i]))]
      {
        assert meshes[..i + 1][..i] == meshes[..i];
        RecordShadowMesh(encoder, meshes[i]);
        assert prefix + ShadowMeshesCommands(meshes[..i]) + ShadowMeshCommands(meshes[i])
            == prefix + ShadowMeshesCommands(meshes[..i + 1]);
      }
      assert meshes[..|meshes|] == meshes;
    }

    /** The four calls of the loop body for one mesh. */
    static method RecordShadowMesh(encoder: CommandEncoder, m: DrawMesh)
      requires encoder.passes != []
      modifies encoder
      ensures var last := |old(encoder.passes)| - 1;
        encoder.passes == old(encoder.passes)[last := old(encoder.passes)[last].(commands :=
          old(encoder.passes)[last].commands + ShadowMeshCommands(m))]
    {
      ghost var p := encoder.passes;
      ghost var last := |p| - 1;
      ghost var cs := p[last].commands;
      var c0, c1 := SetBindGroup(1, m.bindGroup), SetIndexBuffer(m.indexBuffer, Uint32);
      var c2, c3 := SetVertexBuffer(0, m.vertexBuffer), DrawIndexed(Range(0, m.indexCount), 0, Range(0, 1));
      encoder.Record(c0);
      encoder.Record(c1);
      assert cs + [c0] + [c1] == cs + [c0, c1];
      assert encoder.passes == p[last := p[last].(commands := cs + [c0, c1])];
      encoder.Record(c2);
      assert cs + [c0, c1] + [c2] == cs + [c0, c1, c2];
      assert encoder.passes == p[last := p[last].(commands := cs + [c0, c1, c2])];
      encoder.Record(c3);
      assert cs + [c0, c1, c2] + [c3] == cs + ShadowMeshCommands(m);
    }
  }
}
