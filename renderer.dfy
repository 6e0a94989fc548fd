/**
 * Frame orchestration of the renderer. Every output-manager phase call, pass
 * call, viewport bind and buffer update is an event appended to the
 * renderer's trace; the GPU work behind each event is not modelled.
 */
module Rendering {
  import Display

  datatype State = Active | Passive | Terminated

  datatype FalseColor =
    | BaseColor | BaseColorCoefficient | BaseColorTexture
    | Material | MaterialCoefficient | MaterialTexture
    | Roughness | RoughnessCoefficient | RoughnessTexture
    | Metalness | MetalnessCoefficient | MetalnessTexture
    | ShadingNormal | TSNMShadingNormal | Depth | Distance | UV

  /** RenderMode; FalseColorMode(k) stands for the enumerator FalseColor_k. */
  datatype RenderMode = None | Forward | Deferred | Solid | VoxelGrid | FalseColorMode(kind: FalseColor)

  /** What the renderer reads from a camera: its state, its settings (render
      mode, VCT, render layers) and whether its lens has a finite aperture. */
  datatype Camera = Camera(id: nat, state: State, mode: RenderMode, vct: bool,
                           wireframeLayer: bool, aabbLayer: bool, finiteAperture: bool)

  datatype Model = Model(id: nat, state: State)

  /** The cameras and models of the world, in storage order. */
  datatype World = World(cameras: seq<Camera>, models: seq<Model>)

  datatype Event =
    | UpdateWorldBuffer | UpdateCameraBuffer(camera: nat) | UpdateModelBuffer(model: nat)
    | BindWorldBuffer | BindBegin | BindGUI | BindMaximumViewport | SpritePass | RenderGUI
    | BindEnd | BackBufferPass
    | BindCameraBuffer(camera: nat) | BindBeginViewport
    | BindAAViewport          // the camera viewport scaled for the AA mode
    | BindCameraViewport      // the camera viewport itself
    | LBufferPass | VoxelizationPass | DepthPass
    | BindBeginForward | ForwardOpaque | SkyPass | ForwardTransparent
    | BindBeginGBuffer | GBufferPass | BindEndGBuffer
    | BindBeginDeferred | DeferredRender | DeferredDispatch | BindEndDeferred | ForwardEmissive
    | ForwardSolid | ForwardFalseColor(kind: FalseColor) | VoxelGridPass
    | WireframePass | BoundingVolumePass | BindEndForward
    | BindBeginResolve | AAPreprocess | BindEndResolve | BindPingPong | AADispatch(aa: Display.AntiAliasing)
    | BindBeginPostProcessing | DOFDispatch | BindEndPostProcessing | BindEndViewport | LDRDispatch

  //---------------------------------------------------------------------------
  // The event sequences each step emits
  //---------------------------------------------------------------------------

  function CameraUpdates(cameras: seq<Camera>): seq<Event>
  {
    if cameras == [] then []
    else
      var c := cameras[|cameras| - 1];
      CameraUpdates(cameras[..|cameras| - 1]) + (if c.state == Active then [UpdateCameraBuffer(c.id)] else [])
  }

  function ModelUpdates(models: seq<Model>): seq<Event>
  {
    if models == [] then []
    else
      var m := models[|models| - 1];
      ModelUpdates(models[..|models| - 1]) + (if m.state == Active then [UpdateModelBuffer(m.id)] else [])
  }

  function UpdateEvents(w: World): seq<Event>
  {
    [UpdateWorldBuffer] + CameraUpdates(w.cameras) + ModelUpdates(w.models)
  }

  /** The Forward branch: light buffer (and voxelization with VCT), the
      forward phase with the depth pre-pass only with VCT, then opaque, sky
      and transparent. */
  function ForwardEvents(c: Camera): seq<Event>
  {
    if c.vct then
      [LBufferPass, VoxelizationPass, BindAAViewport, BindBeginForward, DepthPass, ForwardOpaque, SkyPass, ForwardTransparent]
    else
      [LBufferPass, BindAAViewport, BindBeginForward, ForwardOpaque, SkyPass, ForwardTransparent]
  }

  /** The Deferred branch; msaa selects the deferred pass's Render over its
      Dispatch. */
  function DeferredEvents(c: Camera, msaa: bool): seq<Event>
  {
    var shade := if msaa then DeferredRender else DeferredDispatch;
    if c.vct then
      [LBufferPass, VoxelizationPass, BindAAViewport, BindBeginGBuffer, GBufferPass, BindEndGBuffer, BindBeginDeferred,
       shade, BindEndDeferred, BindBeginForward, ForwardEmissive, SkyPass, ForwardTransparent]
    else
      [LBufferPass, BindAAViewport, BindBeginGBuffer, GBufferPass, BindEndGBuffer, BindBeginDeferred,
       shade, BindEndDeferred, BindBeginForward, ForwardEmissive, SkyPass, ForwardTransparent]
  }

  function SolidEvents(): seq<Event>
  {
    [LBufferPass, BindAAViewport, BindBeginForward, ForwardSolid]
  }

  function FalseColorEvents(kind: FalseColor): seq<Event>
  {
    [BindAAViewport, BindBeginForward, ForwardFalseColor(kind)]
  }

  function VoxelGridEvents(): seq<Event>
  {
    [LBufferPass, VoxelizationPass, BindAAViewport, BindBeginForward, VoxelGridPass]
  }

  /** The default branch of the render-mode switch. */
  function DefaultEvents(): seq<Event>
  {
    [BindAAViewport, BindBeginForward]
  }

  /** The render-mode switch, with the default branch for None. */
  function ModeEvents(c: Camera, aa: Display.AntiAliasing): seq<Event>
  {
    match c.mode
    case Forward => ForwardEvents(c)
    case Deferred => DeferredEvents(c, Display.IsMSAA(aa))
    case Solid => SolidEvents()
    case VoxelGrid => VoxelGridEvents()
    case FalseColorMode(kind) => FalseColorEvents(kind)
    case None => DefaultEvents()
  }

  function LayerEvents(c: Camera): seq<Event>
  {
    (if c.wireframeLayer then [WireframePass] else []) + (if c.aabbLayer then [BoundingVolumePass] else [])
  }

  function AAEvents(aa: Display.AntiAliasing): seq<Event>
  {
    match aa
    case FXAA => [BindBeginResolve, AAPreprocess, BindEndResolve, BindPingPong, AADispatch(aa)]
    case None => []
    case _ => [BindBeginResolve, AADispatch(aa), BindEndResolve]
  }

  function PostProcessingEvents(c: Camera): seq<Event>
  {
    [BindCameraViewport, BindBeginPostProcessing]
    + (if c.finiteAperture then [BindPingPong, DOFDispatch] else [])
    + [BindEndPostProcessing, BindEndViewport, LDRDispatch]
  }

  function CameraEvents(c: Camera, aa: Display.AntiAliasing): seq<Event>
  {
    [BindCameraBuffer(c.id), BindBeginViewport] + ModeEvents(c, aa) + LayerEvents(c)
    + [BindEndForward] + AAEvents(aa) + PostProcessingEvents(c)
  }

  /** The cameras' events in storage order, skipping every camera that is not
      Active. */
  function CamerasEvents(cameras: seq<Camera>, aa: Display.AntiAliasing): seq<Event>
  {
    if cameras == [] then []
    else
      var c := cameras[|cameras| - 1];
      CamerasEvents(cameras[..|cameras| - 1], aa) + ActiveCameraEvents(c, aa)
  }

  function ActiveCameraEvents(c: Camera, aa: Display.AntiAliasing): seq<Event>
  {
    if c.state == Active then CameraEvents(c, aa) else []
  }

  /** After the cameras: the GUI pass over the whole window, the end of the
      output manager's phase and the copy to the back buffer. */
  function GUIEvents(): seq<Event>
  {
    [BindGUI, BindMaximumViewport, SpritePass, RenderGUI, BindEnd, BackBufferPass]
  }

  function FrameEvents(w: World, aa: Display.AntiAliasing): seq<Event>
  {
    UpdateEvents(w) + [BindWorldBuffer, BindBegin] + CamerasEvents(w.cameras, aa) + GUIEvents()
  }

  //---------------------------------------------------------------------------
  // The renderer
  //---------------------------------------------------------------------------

  /** Concatenation is associative; the renderer's traces grow at the end. */
  lemma AppendAssoc<T>(t: seq<T>, a: seq<T>, b: seq<T>)
    ensures t + a + b == t + (a + b)
  {
  }

  lemma CamerasEventsStep(cameras: seq<Camera>, i: nat, aa: Display.AntiAliasing)
    requires i < |cameras|
    ensures CamerasEvents(cameras[..i + 1], aa)
            == CamerasEvents(cameras[..i], aa) + ActiveCameraEvents(cameras[i], aa)
  {
    assert cameras[..i + 1][..i] == cameras[..i];
  }

  class Renderer {
    /** Every call the renderer has issued, oldest first. */
    var trace: seq<Event>
    const config: Display.DisplayConfiguration

    constructor (config: Display.DisplayConfiguration)
      ensures this.config == config && trace == []
    {
      this.config := config;
      trace := [];
    }

    /** Render(world, time): one frame. */
    method Render(w: World)
      modifies this
      ensures trace == old(trace) + FrameEvents(w, config.aa)
    {
      UpdateBuffers(w);
      ghost var updated := trace;
      trace := trace + [BindWorldBuffer, BindBegin];
      RenderCameras(w.cameras);
      var tail := GUIEvents();
      ghost var cams := CamerasEvents(w.cameras, config.aa);
      trace := trace + tail;
      AppendAssoc(old(trace), UpdateEvents(w), [BindWorldBuffer, BindBegin]);
      AppendAssoc(old(trace), UpdateEvents(w) + [BindWorldBuffer, BindBegin], cams);
      AppendAssoc(old(trace), UpdateEvents(w) + [BindWorldBuffer, BindBegin] + cams, tail);
    }

    /** The camera loop of Render: each Active camera, in storage order. */
    method RenderCameras(cameras: seq<Camera>)
      modifies this
      ensures trace == old(trace) + CamerasEvents(cameras, config.aa)
    {
      ghost var aa := config.aa;
      var i := 0;
      while i < |cameras|
        invariant 0 <= i <= |cameras| && config.aa == aa
        invariant trace == old(trace) + CamerasEvents(cameras[..i], aa)
      {
        CamerasEventsStep(cameras, i, aa);
        AppendAssoc(old(trace), CamerasEvents(cameras[..i], aa), ActiveCameraEvents(cameras[i], aa));
        RenderIfActive(cameras[i]);
        i := i + 1;
      }
      assert cameras[..i] == cameras;
    }

    /** UpdateBuffers(world, time): the world buffer, then each Active
        camera's buffer, then each Active model's buffer. */
    method UpdateBuffers(w: World)
      modifies this
      ensures trace == old(trace) + UpdateEvents(w)
    {
      trace := trace + [UpdateWorldBuffer];
      ghost var start := trace;
      var i := 0;
      while i < |w.cameras|
        invariant 0 <= i <= |w.cameras|
        invariant trace == start + CameraUpdates(w.cameras[..i])
      {
        assert w.cameras[..i + 1][..i] == w.cameras[..i];
        if w.cameras[i].state == Active {
          trace := trace + [UpdateCameraBuffer(w.cameras[i].id)];
        }
        i := i + 1;
      }
      assert w.cameras[..i] == w.cameras;
      ghost var middle := trace;
      var j := 0;
      while j < |w.models|
        invariant 0 <= j <= |w.models|
        invariant trace == middle + ModelUpdates(w.models[..j])
      {
        assert w.models[..j + 1][..j] == w.models[..j];
        if w.models[j].state == Active {
          trace := trace + [UpdateModelBuffer(w.models[j].id)];
        }
        j := j + 1;
      }
      assert w.models[..j] == w.models;
    }

    /** One iteration of the camera loop: a camera that is not Active is
        skipped. */
    method RenderIfActive(c: Camera)
      modifies this
      ensures trace == old(trace) + ActiveCameraEvents(c, config.aa)
    {
      if c.state == Active {
        RenderCamera(c);
      }
    }

    /** Render(world, camera): one camera's view. */
    method RenderCamera(c: Camera)
      modifies this
      ensures trace == old(trace) + CameraEvents(c, config.aa)
    {
      ghost var t0 := trace;
      trace := trace + [BindCameraBuffer(c.id), BindBeginViewport];
      RenderModeBranch(c);
      RenderLayers(c);
      trace := trace + [BindEndForward];
      RenderAA();
      RenderPostProcessing(c);
      ghost var head := [BindCameraBuffer(c.id), BindBeginViewport];
      assert trace == t0 + head + ModeEvents(c, config.aa) + LayerEvents(c) + [BindEndForward]
                      + AAEvents(config.aa) + PostProcessingEvents(c);
      ghost var mode, layers, aa, post := ModeEvents(c, config.aa), LayerEvents(c), AAEvents(config.aa), PostProcessingEvents(c);
      AppendAssoc(t0, head, mode);
      AppendAssoc(t0, head + mode, layers);
      AppendAssoc(t0, head + mode + layers, [BindEndForward]);
      AppendAssoc(t0, head + mode + layers + [BindEndForward], aa);
      AppendAssoc(t0, head + mode + layers + [BindEndForward] + aa, post);
    }

    /** The switch on the camera's render mode. */
    method RenderModeBranch(c: Camera)
      modifies this
      ensures trace == old(trace) + ModeEvents(c, config.aa)
    {
      match c.mode {
        case Forward => RenderForward(c);
        case Deferred => RenderDeferred(c);
        case Solid => RenderSolid();
        case VoxelGrid => RenderVoxelGrid();
        case FalseColorMode(kind) => RenderFalseColor(kind);
        case None => trace := trace + [BindAAViewport, BindBeginForward];
      }
    }

    /** The wireframe and AABB render layers, in that order. */
    method RenderLayers(c: Camera)
      modifies this
      ensures trace == old(trace) + LayerEvents(c)
    {
      if c.wireframeLayer {
        trace := trace + [WireframePass];
      }
      if c.aabbLayer {
        trace := trace + [BoundingVolumePass];
      }
    }

    method RenderForward(c: Camera)
      modifies this
      ensures trace == old(trace) + ForwardEvents(c)
    {
      if c.vct {
        trace := trace + [LBufferPass, VoxelizationPass];
      } else {
        trace := trace + [LBufferPass];
      }
      trace := trace + [BindAAViewport, BindBeginForward];
      if c.vct {
        trace := trace + [DepthPass];
      }
      trace := trace + [ForwardOpaque, SkyPass, ForwardTransparent];
    }

    method RenderDeferred(c: Camera)
      modifies this
      ensures trace == old(trace) + DeferredEvents(c, Display.IsMSAA(config.aa))
    {
      if c.vct {
        trace := trace + [LBufferPass, VoxelizationPass];
      } else {
        trace := trace + [LBufferPass];
      }
      trace := trace + [BindAAViewport, BindBeginGBuffer, GBufferPass, BindEndGBuffer, BindBeginDeferred];
      if config.UsesMSAA() {
        trace := trace + [DeferredRender];
      } else {
        trace := trace + [DeferredDispatch];
      }
      trace := trace + [BindEndDeferred, BindBeginForward, ForwardEmissive, SkyPass, ForwardTransparent];
    }

    method RenderSolid()
      modifies this
      ensures trace == old(trace) + SolidEvents()
    {
      trace := trace + [LBufferPass, BindAAViewport, BindBeginForward, ForwardSolid];
    }

    method RenderFalseColor(kind: FalseColor)
      modifies this
      ensures trace == old(trace) + FalseColorEvents(kind)
    {
      trace := trace + [BindAAViewport, BindBeginForward, ForwardFalseColor(kind)];
    }

    method RenderVoxelGrid()
      modifies this
      ensures trace == old(trace) + VoxelGridEvents()
    {
      trace := trace + [LBufferPass, VoxelizationPass, BindAAViewport, BindBeginForward, VoxelGridPass];
    }

    method RenderPostProcessing(c: Camera)
      modifies this
      ensures trace == old(trace) + PostProcessingEvents(c)
    {
      trace := trace + [BindCameraViewport, BindBeginPostProcessing];
      if c.finiteAperture {
        trace := trace + [BindPingPong, DOFDispatch];
      }
      trace := trace + [BindEndPostProcessing, BindEndViewport, LDRDispatch];
    }

    method RenderAA()
      modifies this
      ensures trace == old(trace) + AAEvents(config.aa)
    {
      var desc := config.aa;
      match desc {
        case FXAA =>
          trace := trace + [BindBeginResolve, AAPreprocess, BindEndResolve, BindPingPong, AADispatch(desc)];
        case MSAA_2x =>
          trace := trace + [BindBeginResolve, AADispatch(desc), BindEndResolve];
        case MSAA_4x =>
          trace := trace + [BindBeginResolve, AADispatch(desc), BindEndResolve];
        case MSAA_8x =>
          trace := trace + [BindBeginResolve, AADispatch(desc), BindEndResolve];
        case SSAA_2x =>
          trace := trace + [BindBeginResolve, AADispatch(desc), BindEndResolve];
        case SSAA_3x =>
          trace := trace + [BindBeginResolve, AADispatch(desc), BindEndResolve];
        case SSAA_4x =>
          trace := trace + [BindBeginResolve, AADispatch(desc), BindEndResolve];
        case None =>
      }
    }
  }
}
