/** The forward renderer: each frame it draws one mesh with the scene and mesh uniforms into
    the acquired surface texture, submits the command buffer and presents; each update moves
    the camera and rewrites the scene uniform. */
module Rendering {
  import opened Wrappers
  import opened Math
  import opened Gpu
  import opened Resources
  import Cameras

  /** What reaches the queue and the surface, in order. */
  datatype QueueEvent = Submit(passes: seq<RenderPass>) | Present(surfaceTexture: TextureId)

  /** The clear colour of the frame. */
  const ClearColor := Color(0.1, 0.2, 0.3, 1.0)

  /** The commands of the frame's pass: bind the mesh pipeline, the scene uniform at group 0
      and the mesh uniform at group 1, the vertex buffer at slot 0, and draw every vertex
      once. */
  function FrameCommands(pipeline: Pipeline, scene: BindGroup, mesh: BindGroup, vertexBuffer: BufferId, vertexCount: nat): seq<Command>
  {
    [SetPipeline(pipeline.id), SetBindGroup(0, scene), SetBindGroup(1, mesh),
     SetVertexBuffer(0, vertexBuffer), Draw(Range(0, vertexCount), Range(0, 1))]
  }

  /** The frame's pass: no name, the surface cleared to `ClearColor` and the depth buffer
      cleared to 1, both stored. */
  function FramePass(surface: TextureId, depth: TextureId, commands: seq<Command>): RenderPass
  {
    RenderPass(None, [ColorAttachment(surface, Clear(ClearColor), true)],
               Some(DepthAttachment(depth, Clear(1.0), true)), commands)
  }

  /** The frame binds exactly the groups the mesh pipeline expects, in its slots, and draws
      once, last. */
  lemma FrameFitsPipeline(config: SurfaceConfig, pipeline: Pipeline, scene: BindGroup, mesh: BindGroup,
                          vertexBuffer: BufferId, vertexCount: nat)
    requires pipeline.desc == MeshPipelineDesc(config)
    requires scene.layout == UnsizedUniformLayout() && mesh.layout == UnsizedUniformLayout()
    ensures var cs := FrameCommands(pipeline, scene, mesh, vertexBuffer, vertexCount);
      && GroupsFitPipeline(cs, pipeline.desc)
      && cs[0] == SetPipeline(pipeline.id)
      && (forall i | 0 <= i < |cs| :: cs[i].Draw? <==> i == |cs| - 1)
  {
  }

  class Renderer {
    const device: Device
    const config: SurfaceConfig
    const camera: Cameras.Camera
    const depthBuffer: DepthTexture
    const sceneUniform: SceneUniform
    const mesh: Mesh
    const meshPipeline: Pipeline
    /** submissions and presentations so far */
    var log: seq<QueueEvent>

    /** The groups bound by the frame were created against the layouts the pipeline expects. */
    predicate Valid()
    {
      && meshPipeline.desc == MeshPipelineDesc(config)
      && sceneUniform.uniformBindGroup.layout == UnsizedUniformLayout()
      && mesh.uniformBindGroup.layout == UnsizedUniformLayout()
    }

    /** `Renderer::new` after the surface, adapter and device are acquired and the mesh file is
        read: the default camera, a depth buffer, the scene uniform from the camera, the mesh
        scaled by one half, and the mesh pipeline. */
    constructor(device: Device, config: SurfaceConfig, vertexBuffer: BufferId, vertexCount: nat)
      modifies device
      ensures Valid() && log == []
      ensures this.device == device && this.config == config
      ensures camera.State() == Cameras.Default()
      ensures sceneUniform.contents == SceneUniformFromCamera(Cameras.Default())
      ensures mesh.vertexBuffer == vertexBuffer && mesh.vertexCount == vertexCount
      ensures mesh.contents == NewMeshUniformData(FromScaleRotationTranslation(
                Vec3(0.5, 0.5, 0.5), Quat(0.0, 0.0, 0.0, 1.0), Vec3(0.0, 0.0, 0.0)))
      ensures fresh(camera) && fresh(sceneUniform) && fresh(mesh)
    {
      var c := new Cameras.Camera();
      var depth := CreateDepthTexture(device, config);
      var scene := new SceneUniform(device, SceneUniformFromCamera(c.State()));
      var m := new Mesh(device, vertexBuffer, vertexCount, NewMeshUniformData(FromScaleRotationTranslation(
                 Vec3(0.5, 0.5, 0.5), Quat(0.0, 0.0, 0.0, 1.0), Vec3(0.0, 0.0, 0.0))));
      var shader := device.NewHandle();
      var id := device.NewHandle();
      this.device := device;
      this.config := config;
      camera := c;
      depthBuffer := depth;
      sceneUniform := scene;
      mesh := m;
      meshPipeline := Pipeline(id, shader, MeshPipelineDesc(config));
      log := [];
    }

    /** `Renderer::input`: the event goes to the camera and nowhere else. */
    method Input(e: Cameras.WindowEvent)
      modifies camera
      ensures camera.State() == Cameras.AfterInput(old(camera.State()), e)
    {
      camera.Input(e);
    }

    /** `Renderer::update`: the camera moves first; the scene uniform is then rewritten from
        the moved camera. */
    method Update()
      modifies camera, sceneUniform`contents
      ensures camera.State() == Cameras.AfterUpdate(old(camera.State()))
      ensures sceneUniform.contents == SceneUniformFromCamera(camera.State())
    {
      camera.Update();
      sceneUniform.Update(SceneUniformFromCamera(camera.State()));
    }

    /** `Renderer::render`, with the outcome of `get_current_texture` as a parameter: an error
        is returned before anything is encoded, submitted or presented; otherwise one command
        buffer holding the frame's pass is submitted, and then the surface texture is
        presented. */
    method Render(acquired: Result<TextureId>) returns (r: Result<()>)
      requires Valid()
      modifies this`log
      ensures acquired.Err? ==> r == Err(acquired.message) && log == old(log)
      ensures acquired.Ok? ==> r.Ok? && log == old(log) + [
        Submit([FramePass(acquired.value, depthBuffer.texture,
                  FrameCommands(meshPipeline, sceneUniform.uniformBindGroup, mesh.uniformBindGroup,
                                mesh.vertexBuffer, mesh.vertexCount))]),
        Present(acquired.value)]
      ensures acquired.Ok? ==> GroupsFitPipeline(log[|log| - 2].passes[0].commands, meshPipeline.desc)
    {
      if acquired.Err? {
        return Err(acquired.message);
      }
      var view := acquired.value;
      var encoder := new CommandEncoder();
      encoder.BeginRenderPass(None, [ColorAttachment(view, Clear(ClearColor), true)],
                              Some(DepthAttachment(depthBuffer.texture, Clear(1.0), true)));
      var c0, c1, c2 := SetPipeline(meshPipeline.id), SetBindGroup(0, sceneUniform.uniformBindGroup), SetBindGroup(1, mesh.uniformBindGroup);
      var c3, c4 := SetVertexBuffer(0, mesh.vertexBuffer), Draw(Range(0, mesh.vertexCount), Range(0, 1));
      assert |encoder.passes| == 1 && encoder.passes[0] == FramePass(view, depthBuffer.texture, []);
      encoder.Record(c0);
      assert |encoder.passes| == 1 && encoder.passes[0] == FramePass(view, depthBuffer.texture, [c0]);
      encoder.Record(c1);
      assert |encoder.passes| == 1 && encoder.passes[0] == FramePass(view, depthBuffer.texture, [c0, c1]);
      encoder.Record(c2);
      assert |encoder.passes| == 1 && encoder.passes[0] == FramePass(view, depthBuffer.texture, [c0, c1, c2]);
      encoder.Record(c3);
      assert |encoder.passes| == 1 && encoder.passes[0] == FramePass(view, depthBuffer.texture, [c0, c1, c2, c3]);
      encoder.Record(c4);
      assert |encoder.passes| == 1 && encoder.passes[0] == FramePass(view, depthBuffer.texture, [c0, c1, c2, c3, c4]);
      assert encoder.passes == [FramePass(view, depthBuffer.texture, [c0, c1, c2, c3, c4])];
      FrameFitsPipeline(config, meshPipeline, sceneUniform.uniformBindGroup, mesh.uniformBindGroup,
                        mesh.vertexBuffer, mesh.vertexCount);
      log := log + [Submit(encoder.passes), Present(view)];
      r := Ok(());
    }
  }
}
