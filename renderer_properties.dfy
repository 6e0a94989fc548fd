/**
 * Properties of the frame and camera event sequences that the renderer's
 * methods are proved to emit.
 */
module RenderingProperties {
  import opened Rendering
  import Display

  //---------------------------------------------------------------------------
  // Order and occurrence in a trace
  //---------------------------------------------------------------------------

  /** Event a is issued at some point strictly before event b. */
  predicate Before(t: seq<Event>, a: Event, b: Event)
  {
    exists i, j :: 0 <= i < j < |t| && t[i] == a && t[j] == b
  }

  lemma BeforeAcross(s: seq<Event>, t: seq<Event>, a: Event, b: Event)
    requires a in s && b in t
    ensures Before(s + t, a, b)
  {
    var i :| 0 <= i < |s| && s[i] == a;
    var j :| 0 <= j < |t| && t[j] == b;
    assert (s + t)[i] == a && (s + t)[|s| + j] == b;
  }

  lemma BeforeWithin(s: seq<Event>, t: seq<Event>, u: seq<Event>, a: Event, b: Event)
    requires Before(t, a, b)
    ensures Before(s + t + u, a, b)
  {
    var i, j :| 0 <= i < j < |t| && t[i] == a && t[j] == b;
    assert (s + t + u)[|s| + i] == a && (s + t + u)[|s| + j] == b;
  }

  lemma BeforeAt(t: seq<Event>, i: nat, j: nat, a: Event, b: Event)
    requires i < j < |t| && t[i] == a && t[j] == b
    ensures Before(t, a, b)
  {
  }

  /** How many times event e is issued in t. */
  function Count(t: seq<Event>, e: Event): nat
  {
    if t == [] then 0
    else Count(t[..|t| - 1], e) + (if t[|t| - 1] == e then 1 else 0)
  }

  lemma {:induction false} CountAppend(s: seq<Event>, t: seq<Event>, e: Event)
    ensures Count(s + t, e) == Count(s, e) + Count(t, e)
    decreases |t|
  {
    if t != [] {
      assert (s + t)[..|s + t| - 1] == s + t[..|t| - 1];
      CountAppend(s, t[..|t| - 1], e);
    } else {
      assert s + t == s;
    }
  }

  lemma {:induction false} CountZero(t: seq<Event>, e: Event)
    ensures Count(t, e) == 0 <==> e !in t
    decreases |t|
  {
    if t != [] {
      var init := t[..|t| - 1];
      CountZero(init, e);
      assert t == init + [t[|t| - 1]];
    }
  }

  /** An event that occurs at index k and nowhere else occurs once. */
  lemma CountOnceAt(t: seq<Event>, k: nat, e: Event)
    requires k < |t| && t[k] == e && e !in t[..k] && e !in t[k + 1..]
    ensures Count(t, e) == 1
  {
    assert t == t[..k] + [e] + t[k + 1..];
    CountAppend(t[..k] + [e], t[k + 1..], e);
    CountAppend(t[..k], [e], e);
    CountZero(t[..k], e);
    CountZero(t[k + 1..], e);
    assert [e][..0] == [];
  }

  //---------------------------------------------------------------------------
  // Kinds of events
  //---------------------------------------------------------------------------

  /** The calls that bracket a whole frame, as opposed to one camera. */
  predicate FrameLevel(e: Event)
  {
    e.UpdateWorldBuffer? || e.UpdateCameraBuffer? || e.UpdateModelBuffer? || e.BindWorldBuffer? || e.BindBegin?
    || e.BindGUI? || e.BindMaximumViewport? || e.SpritePass? || e.RenderGUI? || e.BindEnd? || e.BackBufferPass?
  }

  /** The calls a render-mode branch may issue: light buffer, voxelization,
      the AA viewport, the forward phase opening and the passes of the
      branches. Overlays, the forward phase closing, AA and post-processing
      are not among them. */
  predicate ModeLevel(e: Event)
  {
    e.LBufferPass? || e.VoxelizationPass? || e.DepthPass? || e.BindAAViewport? || e.BindBeginForward?
    || e.ForwardOpaque? || e.SkyPass? || e.ForwardTransparent? || e.BindBeginGBuffer? || e.GBufferPass?
    || e.BindEndGBuffer? || e.BindBeginDeferred? || e.DeferredRender? || e.DeferredDispatch?
    || e.BindEndDeferred? || e.ForwardEmissive? || e.ForwardSolid? || e.ForwardFalseColor? || e.VoxelGridPass?
  }

  //---------------------------------------------------------------------------
  // The render-mode branches
  //---------------------------------------------------------------------------

  /** RenderForward issues only mode-level calls; light buffer and
      voxelization run and the depth pre-pass is drawn only with VCT. */
  lemma ForwardShape(c: Camera)
    ensures forall e :: e in ForwardEvents(c) ==> ModeLevel(e)
    ensures LBufferPass in ForwardEvents(c)
    ensures VoxelizationPass in ForwardEvents(c) <==> c.vct
    ensures DepthPass in ForwardEvents(c) <==> c.vct
  {
  }

  /** RenderForward draws opaque, sky and transparent, in that order, inside
      the forward phase, after the light buffer and (with VCT) the depth
      pre-pass. */
  lemma ForwardOrder(c: Camera)
    ensures Before(ForwardEvents(c), LBufferPass, BindBeginForward)
    ensures Before(ForwardEvents(c), BindBeginForward, ForwardOpaque)
    ensures c.vct ==> Before(ForwardEvents(c), DepthPass, ForwardOpaque)
    ensures Before(ForwardEvents(c), ForwardOpaque, SkyPass)
    ensures Before(ForwardEvents(c), SkyPass, ForwardTransparent)
  {
    var t := ForwardEvents(c);
    if c.vct {
      BeforeAt(t, 4, 5, DepthPass, ForwardOpaque);
      ForwardChain(t, 1);
    } else {
      ForwardChain(t, 0);
    }
  }

  /** The ordering of the forward branch, read off the positions of its calls
      (k is 1 when voxelization and the depth pre-pass run, 0 otherwise). */
  lemma ForwardChain(t: seq<Event>, k: nat)
    requires 2 * k + 5 < |t| && t[0] == LBufferPass && t[k + 2] == BindBeginForward
    requires t[2 * k + 3] == ForwardOpaque && t[2 * k + 4] == SkyPass && t[2 * k + 5] == ForwardTransparent
    ensures Before(t, LBufferPass, BindBeginForward)
    ensures Before(t, BindBeginForward, ForwardOpaque)
    ensures Before(t, ForwardOpaque, SkyPass)
    ensures Before(t, SkyPass, ForwardTransparent)
  {
    BeforeAt(t, 0, k + 2, LBufferPass, BindBeginForward);
    BeforeAt(t, k + 2, 2 * k + 3, BindBeginForward, ForwardOpaque);
    BeforeAt(t, 2 * k + 3, 2 * k + 4, ForwardOpaque, SkyPass);
    BeforeAt(t, 2 * k + 4, 2 * k + 5, SkyPass, ForwardTransparent);
  }

  /** RenderDeferred issues only mode-level calls. */
  lemma DeferredShape(c: Camera, msaa: bool)
    ensures forall e :: e in DeferredEvents(c, msaa) ==> ModeLevel(e)
  {
  }

  /** RenderDeferred runs the light buffer, voxelization only with VCT, and
      shades by Render under MSAA and by Dispatch otherwise. */
  lemma DeferredPasses(c: Camera, msaa: bool)
    ensures LBufferPass in DeferredEvents(c, msaa)
    ensures VoxelizationPass in DeferredEvents(c, msaa) <==> c.vct
    ensures DeferredRender in DeferredEvents(c, msaa) <==> msaa
    ensures DeferredDispatch in DeferredEvents(c, msaa) <==> !msaa
  {
  }

  /** RenderDeferred opens the G-buffer phase after the light buffer, fills
      the G-buffer inside it, then opens the deferred phase and shades inside
      it, by Render under MSAA and by Dispatch otherwise. */
  lemma DeferredGBufferOrder(c: Camera, msaa: bool)
    ensures var t, shade := DeferredEvents(c, msaa), if msaa then DeferredRender else DeferredDispatch;
            && Before(t, LBufferPass, BindBeginGBuffer)
            && Before(t, BindBeginGBuffer, GBufferPass)
            && Before(t, GBufferPass, BindEndGBuffer)
            && Before(t, BindEndGBuffer, BindBeginDeferred)
            && Before(t, BindBeginDeferred, shade)
  {
    GBufferChain(DeferredEvents(c, msaa), if c.vct then 1 else 0, if msaa then DeferredRender else DeferredDispatch);
  }

  /** RenderDeferred closes the deferred phase after shading, then draws
      emissive, sky and transparent inside the forward phase. */
  lemma DeferredShadeOrder(c: Camera, msaa: bool)
    ensures var t, shade := DeferredEvents(c, msaa), if msaa then DeferredRender else DeferredDispatch;
            && Before(t, shade, BindEndDeferred)
            && Before(t, BindEndDeferred, BindBeginForward)
            && Before(t, BindBeginForward, ForwardEmissive)
            && Before(t, ForwardEmissive, SkyPass)
            && Before(t, SkyPass, ForwardTransparent)
  {
    ShadeChain(DeferredEvents(c, msaa), if c.vct then 1 else 0, if msaa then DeferredRender else DeferredDispatch);
  }

  /** The ordering of the deferred branch up to the shading, read off the
      positions of its calls (k is 1 when voxelization runs, 0 otherwise). */
  lemma GBufferChain(t: seq<Event>, k: nat, shade: Event)
    requires k + 6 < |t| && t[0] == LBufferPass
    requires t[k + 2] == BindBeginGBuffer && t[k + 3] == GBufferPass && t[k + 4] == BindEndGBuffer
    requires t[k + 5] == BindBeginDeferred && t[k + 6] == shade
    ensures Before(t, LBufferPass, BindBeginGBuffer)
    ensures Before(t, BindBeginGBuffer, GBufferPass)
    ensures Before(t, GBufferPass, BindEndGBuffer)
    ensures Before(t, BindEndGBuffer, BindBeginDeferred)
    ensures Before(t, BindBeginDeferred, shade)
  {
    BeforeAt(t, 0, k + 2, LBufferPass, BindBeginGBuffer);
    BeforeAt(t, k + 2, k + 3, BindBeginGBuffer, GBufferPass);
    BeforeAt(t, k + 3, k + 4, GBufferPass, BindEndGBuffer);
    BeforeAt(t, k + 4, k + 5, BindEndGBuffer, BindBeginDeferred);
    BeforeAt(t, k + 5, k + 6, BindBeginDeferred, shade);
  }

  /** The ordering of the deferred branch from the shading on. */
  lemma ShadeChain(t: seq<Event>, k: nat, shade: Event)
    requires k + 11 < |t|
    requires t[k + 6] == shade && t[k + 7] == BindEndDeferred
    requires t[k + 8] == BindBeginForward && t[k + 9] == ForwardEmissive
    requires t[k + 10] == SkyPass && t[k + 11] == ForwardTransparent
    ensures Before(t, shade, BindEndDeferred)
    ensures Before(t, BindEndDeferred, BindBeginForward)
    ensures Before(t, BindBeginForward, ForwardEmissive)
    ensures Before(t, ForwardEmissive, SkyPass)
    ensures Before(t, SkyPass, ForwardTransparent)
  {
    BeforeAt(t, k + 6, k + 7, shade, BindEndDeferred);
    BeforeAt(t, k + 7, k + 8, BindEndDeferred, BindBeginForward);
    BeforeAt(t, k + 8, k + 9, BindBeginForward, ForwardEmissive);
    BeforeAt(t, k + 9, k + 10, ForwardEmissive, SkyPass);
    BeforeAt(t, k + 10, k + 11, SkyPass, ForwardTransparent);
  }

  /** RenderSolid, RenderVoxelGrid, RenderFalseColor and the default branch:
      voxelization only for the voxel grid, no light buffer for false colour
      or the default branch. */
  lemma OtherBranches(kind: FalseColor)
    ensures forall e :: e in SolidEvents() ==> ModeLevel(e)
    ensures forall e :: e in VoxelGridEvents() ==> ModeLevel(e)
    ensures forall e :: e in FalseColorEvents(kind) ==> ModeLevel(e)
    ensures forall e :: e in DefaultEvents() ==> ModeLevel(e)
    ensures LBufferPass in SolidEvents() && VoxelizationPass !in SolidEvents()
    ensures LBufferPass in VoxelGridEvents() && VoxelizationPass in VoxelGridEvents()
    ensures LBufferPass !in FalseColorEvents(kind) && VoxelizationPass !in FalseColorEvents(kind)
    ensures LBufferPass !in DefaultEvents() && VoxelizationPass !in DefaultEvents()
  {
  }

  /** Whatever the branch, the render-mode switch issues only mode-level
      calls: no overlay, no forward phase closing, no AA and no
      post-processing. */
  lemma {:induction false} ModeEventsShape(c: Camera, aa: Display.AntiAliasing)
    ensures forall e :: e in ModeEvents(c, aa) ==> ModeLevel(e)
  {
    match c.mode {
      case Forward => ForwardShape(c);
      case Deferred => DeferredShape(c, Display.IsMSAA(aa));
      case FalseColorMode(kind) => OtherBranches(kind);
      case _ => OtherBranches(BaseColor);
    }
  }

  lemma ForwardOpensOnce(c: Camera)
    ensures Count(ForwardEvents(c), BindBeginForward) == 1
  {
    if c.vct {
      CountOnceAt(ForwardEvents(c), 3, BindBeginForward);
    } else {
      CountOnceAt(ForwardEvents(c), 2, BindBeginForward);
    }
  }

  lemma DeferredOpensOnce(c: Camera, msaa: bool)
    ensures Count(DeferredEvents(c, msaa), BindBeginForward) == 1
  {
    if c.vct {
      CountOnceAt(DeferredEvents(c, msaa), 9, BindBeginForward);
    } else {
      CountOnceAt(DeferredEvents(c, msaa), 8, BindBeginForward);
    }
  }

  lemma OtherBranchesOpenOnce(kind: FalseColor)
    ensures Count(SolidEvents(), BindBeginForward) == 1
    ensures Count(VoxelGridEvents(), BindBeginForward) == 1
    ensures Count(FalseColorEvents(kind), BindBeginForward) == 1
    ensures Count(DefaultEvents(), BindBeginForward) == 1
  {
    CountOnceAt(SolidEvents(), 2, BindBeginForward);
    CountOnceAt(VoxelGridEvents(), 3, BindBeginForward);
    CountOnceAt(FalseColorEvents(kind), 1, BindBeginForward);
    CountOnceAt(DefaultEvents(), 1, BindBeginForward);
  }

  /** Every render-mode branch, the default one included, opens the forward
      phase exactly once. */
  lemma ModeOpensForwardOnce(c: Camera, aa: Display.AntiAliasing)
    ensures Count(ModeEvents(c, aa), BindBeginForward) == 1
  {
    match c.mode {
      case Forward => ForwardOpensOnce(c);
      case Deferred => DeferredOpensOnce(c, Display.IsMSAA(aa));
      case FalseColorMode(kind) => OtherBranchesOpenOnce(kind);
      case _ => OtherBranchesOpenOnce(BaseColor);
    }
  }

  /** FXAA: preprocess inside the resolve phase, close it, swap the ping-pong
      buffers, then dispatch. */
  lemma FXAAOrder(aa: Display.AntiAliasing)
    requires aa == Display.FXAA
    ensures Before(AAEvents(aa), AAPreprocess, BindEndResolve)
    ensures Before(AAEvents(aa), BindEndResolve, BindPingPong)
    ensures Before(AAEvents(aa), BindPingPong, AADispatch(aa))
  {
    var t := AAEvents(aa);
    assert t == [BindBeginResolve, AAPreprocess, BindEndResolve, BindPingPong, AADispatch(aa)];
    BeforeAt(t, 1, 2, AAPreprocess, BindEndResolve);
    BeforeAt(t, 2, 3, BindEndResolve, BindPingPong);
    BeforeAt(t, 3, 4, BindPingPong, AADispatch(aa));
  }

  /** FXAA closes the resolve phase once and dispatches once. */
  lemma FXAACounts(aa: Display.AntiAliasing)
    requires aa == Display.FXAA
    ensures Count(AAEvents(aa), AADispatch(aa)) == 1
    ensures Count(AAEvents(aa), BindEndResolve) == 1
  {
    var d := AADispatch(aa);
    var t := AAEvents(aa);
    assert t == [BindBeginResolve, AAPreprocess, BindEndResolve, BindPingPong, d];
    assert t[..4] == [BindBeginResolve, AAPreprocess, BindEndResolve, BindPingPong];
    CountOnceAt(t, 4, d);
    assert t[..2] == [BindBeginResolve, AAPreprocess] && t[3..] == [BindPingPong, d];
    CountOnceAt(t, 2, BindEndResolve);
  }

  /** MSAA and SSAA: the dispatch lies inside the resolve phase. */
  lemma ResolveOrder(aa: Display.AntiAliasing)
    requires aa != Display.None && aa != Display.FXAA
    ensures Before(AAEvents(aa), BindBeginResolve, AADispatch(aa))
    ensures Before(AAEvents(aa), AADispatch(aa), BindEndResolve)
  {
    var t := AAEvents(aa);
    assert t == [BindBeginResolve, AADispatch(aa), BindEndResolve];
    BeforeAt(t, 0, 1, BindBeginResolve, AADispatch(aa));
    BeforeAt(t, 1, 2, AADispatch(aa), BindEndResolve);
  }

  /** MSAA and SSAA close the resolve phase once and dispatch once. */
  lemma ResolveCounts(aa: Display.AntiAliasing)
    requires aa != Display.None && aa != Display.FXAA
    ensures Count(AAEvents(aa), AADispatch(aa)) == 1
    ensures Count(AAEvents(aa), BindEndResolve) == 1
  {
    var d := AADispatch(aa);
    var t := AAEvents(aa);
    assert t == [BindBeginResolve, d, BindEndResolve];
    assert t[..1] == [BindBeginResolve] && t[2..] == [BindEndResolve];
    CountOnceAt(t, 1, d);
    assert t[..2] == [BindBeginResolve, d] && t[3..] == [];
    CountOnceAt(t, 2, BindEndResolve);
  }

  /** The order of the AA step: FXAA preprocesses inside the resolve phase,
      then closes it and swaps the ping-pong buffers before it dispatches;
      MSAA and SSAA dispatch inside the resolve phase. */
  lemma AAOrder(aa: Display.AntiAliasing)
    ensures aa == Display.FXAA ==> Before(AAEvents(aa), AAPreprocess, BindEndResolve) &&
                                   Before(AAEvents(aa), BindEndResolve, BindPingPong) &&
                                   Before(AAEvents(aa), BindPingPong, AADispatch(aa))
    ensures aa != Display.None && aa != Display.FXAA ==>
              Before(AAEvents(aa), BindBeginResolve, AADispatch(aa)) &&
              Before(AAEvents(aa), AADispatch(aa), BindEndResolve)
  {
    if aa == Display.FXAA {
      FXAAOrder(aa);
    } else if aa != Display.None {
      ResolveOrder(aa);
    }
  }

  /** The AA step closes the resolve phase and dispatches once each, and
      issues neither without AA. */
  lemma AACounts(aa: Display.AntiAliasing)
    ensures Count(AAEvents(aa), AADispatch(aa)) == (if aa == Display.None then 0 else 1)
    ensures Count(AAEvents(aa), BindEndResolve) == (if aa == Display.None then 0 else 1)
  {
    if aa == Display.None {
      CountZero(AAEvents(aa), AADispatch(aa));
      CountZero(AAEvents(aa), BindEndResolve);
    } else if aa == Display.FXAA {
      FXAACounts(aa);
    } else {
      ResolveCounts(aa);
    }
  }

  /** The AA step issues nothing for None; otherwise it opens the resolve
      phase first, closes it once and dispatches once, and it preprocesses
      only for FXAA. */
  lemma AAStepShape(aa: Display.AntiAliasing)
    ensures AAEvents(aa) == [] <==> aa == Display.None
    ensures aa != Display.None ==> AAEvents(aa)[0] == BindBeginResolve
    ensures Count(AAEvents(aa), AADispatch(aa)) == (if aa == Display.None then 0 else 1)
    ensures Count(AAEvents(aa), BindEndResolve) == (if aa == Display.None then 0 else 1)
    ensures AAPreprocess in AAEvents(aa) <==> aa == Display.FXAA
  {
    AACounts(aa);
  }

  /** The AA step: nothing for None, otherwise a resolve phase opened first,
      closed once and exactly one dispatch, in the order AAOrder states, with
      the preprocess only for FXAA. */
  lemma AASteps(aa: Display.AntiAliasing)
    ensures AAEvents(aa) == [] <==> aa == Display.None
    ensures aa != Display.None ==> AAEvents(aa)[0] == BindBeginResolve
    ensures Count(AAEvents(aa), AADispatch(aa)) == (if aa == Display.None then 0 else 1)
    ensures Count(AAEvents(aa), BindEndResolve) == (if aa == Display.None then 0 else 1)
    ensures aa == Display.FXAA ==> Before(AAEvents(aa), AAPreprocess, BindEndResolve) &&
                                   Before(AAEvents(aa), BindEndResolve, BindPingPong) &&
                                   Before(AAEvents(aa), BindPingPong, AADispatch(aa))
    ensures aa != Display.None && aa != Display.FXAA ==>
              Before(AAEvents(aa), BindBeginResolve, AADispatch(aa)) &&
              Before(AAEvents(aa), AADispatch(aa), BindEndResolve)
    ensures AAPreprocess in AAEvents(aa) <==> aa == Display.FXAA
  {
    AAStepShape(aa);
    AAOrder(aa);
  }

  /** Only FXAA swaps the ping-pong buffers, once. */
  lemma AAPingPong(aa: Display.AntiAliasing)
    ensures Count(AAEvents(aa), BindPingPong) == (if aa == Display.FXAA then 1 else 0)
    ensures DOFDispatch !in AAEvents(aa)
  {
    if aa == Display.FXAA {
      CountOnceAt(AAEvents(aa), 3, BindPingPong);
    } else {
      CountZero(AAEvents(aa), BindPingPong);
    }
  }

  //---------------------------------------------------------------------------
  // One camera
  //---------------------------------------------------------------------------

  /** The calls after the forward phase: the AA resolve and post-processing. */
  predicate TailLevel(e: Event)
  {
    e.BindBeginResolve? || e.AAPreprocess? || e.BindEndResolve? || e.BindPingPong? || e.AADispatch?
    || e.BindCameraViewport? || e.BindBeginPostProcessing? || e.DOFDispatch? || e.BindEndPostProcessing?
    || e.BindEndViewport? || e.LDRDispatch?
  }

  /** Post-processing ends with the LDR dispatch, runs depth of field iff the
      lens has a finite aperture, and swaps the ping-pong buffers once for it. */
  lemma PostProcessingShape(c: Camera)
    ensures forall e :: e in PostProcessingEvents(c) ==> TailLevel(e)
    ensures PostProcessingEvents(c)[|PostProcessingEvents(c)| - 1] == LDRDispatch
    ensures DOFDispatch in PostProcessingEvents(c) <==> c.finiteAperture
    ensures Count(PostProcessingEvents(c), BindPingPong) == (if c.finiteAperture then 1 else 0)
  {
    var t := PostProcessingEvents(c);
    if c.finiteAperture {
      CountOnceAt(t, 2, BindPingPong);
    } else {
      CountZero(t, BindPingPong);
    }
  }

  lemma AAShape(aa: Display.AntiAliasing)
    ensures forall e :: e in AAEvents(aa) ==> TailLevel(e)
  {
  }

  /** The bracket facts of one camera, for any pieces of the right kinds. */
  lemma BracketsOf(id: nat, mode: seq<Event>, layers: seq<Event>, aaEvents: seq<Event>, post: seq<Event>)
    requires forall e :: e in mode ==> ModeLevel(e)
    requires forall e :: e in layers ==> e == WireframePass || e == BoundingVolumePass
    requires forall e :: e in aaEvents ==> TailLevel(e)
    requires forall e :: e in post ==> TailLevel(e)
    requires post != [] && post[|post| - 1] == LDRDispatch
    ensures var t := [BindCameraBuffer(id), BindBeginViewport] + mode + layers + [BindEndForward] + aaEvents + post;
            && t[0] == BindCameraBuffer(id) && t[1] == BindBeginViewport && t[|t| - 1] == LDRDispatch
            && (forall e :: e in t ==> !FrameLevel(e))
            && (forall other :: BindCameraBuffer(other) in t <==> other == id)
  {
  }

  /** One camera opens with its camera buffer and its viewport, ends with the
      LDR dispatch, issues no frame-level call and names no other camera. */
  lemma CameraBrackets(c: Camera, aa: Display.AntiAliasing)
    ensures CameraEvents(c, aa)[0] == BindCameraBuffer(c.id) && CameraEvents(c, aa)[1] == BindBeginViewport
    ensures CameraEvents(c, aa)[|CameraEvents(c, aa)| - 1] == LDRDispatch
    ensures forall e :: e in CameraEvents(c, aa) ==> !FrameLevel(e)
    ensures forall id :: BindCameraBuffer(id) in CameraEvents(c, aa) <==> id == c.id
  {
    ModeEventsShape(c, aa);
    AAShape(aa);
    PostProcessingShape(c);
    BracketsOf(c.id, ModeEvents(c, aa), LayerEvents(c), AAEvents(aa), PostProcessingEvents(c));
  }

  /** An event issued only in the middle piece is issued as often in all. */
  lemma CountOnlyIn(a: seq<Event>, b: seq<Event>, c: seq<Event>, e: Event)
    requires e !in a && e !in c
    ensures Count(a + b + c, e) == Count(b, e)
  {
    CountAppend(a + b, c, e);
    CountAppend(a, b, e);
    CountZero(a, e);
    CountZero(c, e);
  }

  /** An event issued in the middle piece comes after everything in the
      first piece and before everything in the last. */
  lemma BeforeAround(a: seq<Event>, b: seq<Event>, c: seq<Event>, x: Event, y: Event, z: Event)
    requires x in a && y in b && z in c
    ensures Before(a + b + c, x, y) && Before(a + b + c, y, z)
  {
    BeforeAcross(a, b, x, y);
    BeforeWithin([], a + b, c, x, y);
    BeforeAcross(a + b, c, y, z);
    assert [] + (a + b) + c == a + b + c;
  }

  /** The forward phase is opened and closed once each, opened first, for any
      pieces of a camera's calls that issue those calls only where the camera
      does. */
  lemma ForwardPhaseOf(head: seq<Event>, mode: seq<Event>, layers: seq<Event>, aaEvents: seq<Event>, post: seq<Event>)
    requires BindBeginForward !in head && BindEndForward !in head
    requires Count(mode, BindBeginForward) == 1 && BindEndForward !in mode
    requires BindBeginForward !in layers && BindEndForward !in layers
    requires BindBeginForward !in aaEvents && BindEndForward !in aaEvents
    requires BindBeginForward !in post && BindEndForward !in post
    ensures var t := head + mode + layers + [BindEndForward] + aaEvents + post;
            && Count(t, BindBeginForward) == 1
            && Count(t, BindEndForward) == 1
            && Before(t, BindBeginForward, BindEndForward)
  {
    var t := head + mode + layers + [BindEndForward] + aaEvents + post;
    var rest := aaEvents + post;
    AppendAssoc(head + mode + layers + [BindEndForward], aaEvents, post);
    AppendAssoc(head + mode, layers, [BindEndForward]);
    assert t == head + mode + (layers + [BindEndForward]) + rest;
    CountOnlyIn(head, mode, (layers + [BindEndForward]) + rest, BindBeginForward);
    assert t == (head + mode + layers) + [BindEndForward] + rest;
    CountOnceAt([BindEndForward], 0, BindEndForward);
    CountOnlyIn(head + mode + layers, [BindEndForward], rest, BindEndForward);
    assert BindBeginForward in mode by {
      CountZero(mode, BindBeginForward);
    }
    assert t == (head + mode) + ((layers + [BindEndForward]) + rest);
    BeforeAcross(head + mode, (layers + [BindEndForward]) + rest, BindBeginForward, BindEndForward);
  }

  /** One camera opens the forward phase exactly once and closes it exactly
      once, opening it first. */
  lemma CameraForwardPhase(c: Camera, aa: Display.AntiAliasing)
    ensures Count(CameraEvents(c, aa), BindBeginForward) == 1
    ensures Count(CameraEvents(c, aa), BindEndForward) == 1
    ensures Before(CameraEvents(c, aa), BindBeginForward, BindEndForward)
  {
    ModeEventsShape(c, aa);
    ModeOpensForwardOnce(c, aa);
    ForwardPhaseOf([BindCameraBuffer(c.id), BindBeginViewport], ModeEvents(c, aa), LayerEvents(c),
                   AAEvents(aa), PostProcessingEvents(c));
  }

  /** The overlays run inside the forward phase, the wireframe first, for any
      pieces of a camera's calls that issue them only where the camera does. */
  lemma OverlaysOf(front: seq<Event>, c: Camera, aaEvents: seq<Event>, post: seq<Event>)
    requires BindBeginForward in front && WireframePass !in front && BoundingVolumePass !in front
    requires WireframePass !in aaEvents && BoundingVolumePass !in aaEvents
    requires WireframePass !in post && BoundingVolumePass !in post
    ensures var t := front + LayerEvents(c) + [BindEndForward] + aaEvents + post;
            && (WireframePass in t <==> c.wireframeLayer)
            && (BoundingVolumePass in t <==> c.aabbLayer)
            && (c.wireframeLayer ==> Before(t, BindBeginForward, WireframePass) && Before(t, WireframePass, BindEndForward))
            && (c.aabbLayer ==> Before(t, BindBeginForward, BoundingVolumePass) && Before(t, BoundingVolumePass, BindEndForward))
            && (c.wireframeLayer && c.aabbLayer ==> Before(t, WireframePass, BoundingVolumePass))
  {
    var layers := LayerEvents(c);
    var tail := [BindEndForward] + aaEvents + post;
    AppendAssoc(front + layers, [BindEndForward], aaEvents);
    AppendAssoc(front + layers, [BindEndForward] + aaEvents, post);
    assert BindEndForward in tail && WireframePass !in tail && BoundingVolumePass !in tail;
    if c.wireframeLayer {
      BeforeAround(front, layers, tail, BindBeginForward, WireframePass, BindEndForward);
    }
    if c.aabbLayer {
      BeforeAround(front, layers, tail, BindBeginForward, BoundingVolumePass, BindEndForward);
    }
    if c.wireframeLayer && c.aabbLayer {
      BeforeWithin(front, layers, tail, WireframePass, BoundingVolumePass) by {
        BeforeAt(layers, 0, 1, WireframePass, BoundingVolumePass);
      }
    }
  }

  /** The overlays of a camera run iff their layers are set, the wireframe
      first, and both inside the forward phase. */
  lemma CameraOverlays(c: Camera, aa: Display.AntiAliasing)
    ensures WireframePass in CameraEvents(c, aa) <==> c.wireframeLayer
    ensures BoundingVolumePass in CameraEvents(c, aa) <==> c.aabbLayer
    ensures c.wireframeLayer ==> Before(CameraEvents(c, aa), BindBeginForward, WireframePass)
                                 && Before(CameraEvents(c, aa), WireframePass, BindEndForward)
    ensures c.aabbLayer ==> Before(CameraEvents(c, aa), BindBeginForward, BoundingVolumePass)
                            && Before(CameraEvents(c, aa), BoundingVolumePass, BindEndForward)
    ensures c.wireframeLayer && c.aabbLayer ==> Before(CameraEvents(c, aa), WireframePass, BoundingVolumePass)
  {
    var head, mode := [BindCameraBuffer(c.id), BindBeginViewport], ModeEvents(c, aa);
    ModeEventsShape(c, aa);
    ModeOpensForwardOnce(c, aa);
    assert BindBeginForward in mode by {
      CountZero(mode, BindBeginForward);
    }
    OverlaysOf(head + mode, c, AAEvents(aa), PostProcessingEvents(c));
  }

  /** Depth of field and the ping-pong swaps come only from the AA step and
      post-processing, for any pieces of a camera's calls that issue them only
      there. */
  lemma PingPongOf(head: seq<Event>, mode: seq<Event>, layers: seq<Event>, aaEvents: seq<Event>, post: seq<Event>)
    requires BindPingPong !in head && BindPingPong !in mode && BindPingPong !in layers
    requires DOFDispatch !in head && DOFDispatch !in mode && DOFDispatch !in layers && DOFDispatch !in aaEvents
    ensures var t := head + mode + layers + [BindEndForward] + aaEvents + post;
            && (DOFDispatch in t <==> DOFDispatch in post)
            && Count(t, BindPingPong) == Count(aaEvents, BindPingPong) + Count(post, BindPingPong)
  {
    var front := head + mode + layers + [BindEndForward];
    CountZero(front, BindPingPong);
    CountAppend(front + aaEvents, post, BindPingPong);
    CountAppend(front, aaEvents, BindPingPong);
  }

  /** Depth of field runs iff the lens has a finite aperture, and the
      ping-pong buffers are swapped once for FXAA and once for depth of
      field. */
  lemma CameraPingPong(c: Camera, aa: Display.AntiAliasing)
    ensures DOFDispatch in CameraEvents(c, aa) <==> c.finiteAperture
    ensures Count(CameraEvents(c, aa), BindPingPong)
            == (if aa == Display.FXAA then 1 else 0) + (if c.finiteAperture then 1 else 0)
  {
    ModeEventsShape(c, aa);
    AAPingPong(aa);
    PostProcessingShape(c);
    PingPongOf([BindCameraBuffer(c.id), BindBeginViewport], ModeEvents(c, aa), LayerEvents(c),
               AAEvents(aa), PostProcessingEvents(c));
  }

  //---------------------------------------------------------------------------
  // All cameras
  //---------------------------------------------------------------------------

  function ActiveCount(cameras: seq<Camera>): (n: nat)
    ensures n <= |cameras|
  {
    if cameras == [] then 0
    else ActiveCount(cameras[..|cameras| - 1]) + (if cameras[|cameras| - 1].state == Active then 1 else 0)
  }

  predicate HasActiveCamera(cameras: seq<Camera>, id: nat)
  {
    exists i :: 0 <= i < |cameras| && cameras[i].id == id && cameras[i].state == Active
  }

  predicate HasActiveModel(models: seq<Model>, id: nat)
  {
    exists i :: 0 <= i < |models| && models[i].id == id && models[i].state == Active
  }

  lemma HasActiveCameraPrefix(cameras: seq<Camera>, id: nat)
    requires cameras != []
    ensures HasActiveCamera(cameras, id)
            <==> HasActiveCamera(cameras[..|cameras| - 1], id)
                 || (cameras[|cameras| - 1].id == id && cameras[|cameras| - 1].state == Active)
  {
    var init := cameras[..|cameras| - 1];
    if HasActiveCamera(cameras, id) {
      var i :| 0 <= i < |cameras| && cameras[i].id == id && cameras[i].state == Active;
      if i < |cameras| - 1 {
        assert init[i] == cameras[i];
      }
    }
    if HasActiveCamera(init, id) {
      var i :| 0 <= i < |init| && init[i].id == id && init[i].state == Active;
      assert cameras[i] == init[i];
    }
  }

  lemma HasActiveModelPrefix(models: seq<Model>, id: nat)
    requires models != []
    ensures HasActiveModel(models, id)
            <==> HasActiveModel(models[..|models| - 1], id)
                 || (models[|models| - 1].id == id && models[|models| - 1].state == Active)
  {
    var init := models[..|models| - 1];
    if HasActiveModel(models, id) {
      var i :| 0 <= i < |models| && models[i].id == id && models[i].state == Active;
      if i < |models| - 1 {
        assert init[i] == models[i];
      }
    }
    if HasActiveModel(init, id) {
      var i :| 0 <= i < |init| && init[i].id == id && init[i].state == Active;
      assert models[i] == init[i];
    }
  }

  /** The camera loop issues no frame-level call, renders exactly the Active
      cameras, and opens and closes the forward phase once per Active camera. */
  lemma {:induction false} CamerasEventsCover(cameras: seq<Camera>, aa: Display.AntiAliasing)
    ensures forall e :: e in CamerasEvents(cameras, aa) ==> !FrameLevel(e)
    ensures forall id :: BindCameraBuffer(id) in CamerasEvents(cameras, aa) <==> HasActiveCamera(cameras, id)
    ensures Count(CamerasEvents(cameras, aa), BindBeginForward) == ActiveCount(cameras)
    ensures Count(CamerasEvents(cameras, aa), BindEndForward) == ActiveCount(cameras)
    decreases |cameras|
  {
    if cameras != [] {
      var init, c := cameras[..|cameras| - 1], cameras[|cameras| - 1];
      CamerasEventsCover(init, aa);
      var last := ActiveCameraEvents(c, aa);
      assert CamerasEvents(cameras, aa) == CamerasEvents(init, aa) + last;
      CountAppend(CamerasEvents(init, aa), last, BindBeginForward);
      CountAppend(CamerasEvents(init, aa), last, BindEndForward);
      if c.state == Active {
        CameraBrackets(c, aa);
        CameraForwardPhase(c, aa);
      }
      forall id
        ensures BindCameraBuffer(id) in CamerasEvents(cameras, aa) <==> HasActiveCamera(cameras, id)
      {
        HasActiveCameraPrefix(cameras, id);
      }
    }
  }

  /** The buffer updates cover exactly the Active cameras and models. */
  lemma {:induction false} CameraUpdatesCover(cameras: seq<Camera>)
    ensures forall e :: e in CameraUpdates(cameras) ==> e.UpdateCameraBuffer?
    ensures forall id :: UpdateCameraBuffer(id) in CameraUpdates(cameras) <==> HasActiveCamera(cameras, id)
    decreases |cameras|
  {
    if cameras != [] {
      CameraUpdatesCover(cameras[..|cameras| - 1]);
      forall id
        ensures UpdateCameraBuffer(id) in CameraUpdates(cameras) <==> HasActiveCamera(cameras, id)
      {
        HasActiveCameraPrefix(cameras, id);
      }
    }
  }

  lemma {:induction false} ModelUpdatesCover(models: seq<Model>)
    ensures forall e :: e in ModelUpdates(models) ==> e.UpdateModelBuffer?
    ensures forall id :: UpdateModelBuffer(id) in ModelUpdates(models) <==> HasActiveModel(models, id)
    decreases |models|
  {
    if models != [] {
      ModelUpdatesCover(models[..|models| - 1]);
      forall id
        ensures UpdateModelBuffer(id) in ModelUpdates(models) <==> HasActiveModel(models, id)
      {
        HasActiveModelPrefix(models, id);
      }
    }
  }

  //---------------------------------------------------------------------------
  // One frame
  //---------------------------------------------------------------------------

  /** The output manager begins once, for any updates and camera calls that
      do not begin it. */
  lemma FrameBeginsOnceOf(updates: seq<Event>, cams: seq<Event>)
    requires BindBegin !in updates && BindBegin !in cams
    ensures Count(updates + [BindWorldBuffer, BindBegin] + cams + GUIEvents(), BindBegin) == 1
  {
    var open, tail := [BindWorldBuffer, BindBegin], GUIEvents();
    CountOnceAt(open, 1, BindBegin);
    CountOnlyIn(updates, open, cams + tail, BindBegin);
    assert updates + open + (cams + tail) == updates + open + cams + tail;
  }

  /** The output manager binds the GUI and ends once each, for any updates
      and camera calls that do neither. */
  lemma FrameEndsOnceOf(updates: seq<Event>, cams: seq<Event>)
    requires BindGUI !in updates && BindEnd !in updates
    requires BindGUI !in cams && BindEnd !in cams
    ensures var t := updates + [BindWorldBuffer, BindBegin] + cams + GUIEvents();
            Count(t, BindGUI) == 1 && Count(t, BindEnd) == 1
  {
    var front, tail := updates + [BindWorldBuffer, BindBegin] + cams, GUIEvents();
    assert front + tail + [] == front + tail;
    CountOnceAt(tail, 0, BindGUI);
    CountOnlyIn(front, tail, [], BindGUI);
    CountOnceAt(tail, 4, BindEnd);
    CountOnlyIn(front, tail, [], BindEnd);
  }

  /** The output manager begins, binds the GUI and ends in that order, for
      any updates and camera calls. */
  lemma FrameOrderOf(updates: seq<Event>, cams: seq<Event>)
    ensures var t := updates + [BindWorldBuffer, BindBegin] + cams + GUIEvents();
            Before(t, BindBegin, BindGUI) && Before(t, BindGUI, BindEnd)
  {
    var open, tail := [BindWorldBuffer, BindBegin], GUIEvents();
    assert updates + open + cams + tail == (updates + open) + (cams + tail);
    BeforeAcross(updates + open, cams + tail, BindBegin, BindGUI);
    assert updates + open + cams + tail + [] == updates + open + cams + tail;
    BeforeWithin(updates + open + cams, tail, [], BindGUI, BindEnd) by {
      BeforeAt(tail, 0, 4, BindGUI, BindEnd);
    }
  }

  /** A frame starts with the buffer updates and ends with the back-buffer
      pass; the output manager's begin phase, GUI bind and end phase happen
      once each, in that order. */
  lemma FrameBrackets(w: World, aa: Display.AntiAliasing)
    ensures FrameEvents(w, aa)[0] == UpdateWorldBuffer
    ensures FrameEvents(w, aa)[|FrameEvents(w, aa)| - 1] == BackBufferPass
    ensures Count(FrameEvents(w, aa), BindBegin) == 1
    ensures Count(FrameEvents(w, aa), BindGUI) == 1
    ensures Count(FrameEvents(w, aa), BindEnd) == 1
    ensures Before(FrameEvents(w, aa), BindBegin, BindGUI) && Before(FrameEvents(w, aa), BindGUI, BindEnd)
  {
    var cams := CamerasEvents(w.cameras, aa);
    CamerasEventsCover(w.cameras, aa);
    CameraUpdatesCover(w.cameras);
    ModelUpdatesCover(w.models);
    assert BindBegin !in cams && BindGUI !in cams && BindEnd !in cams;
    FrameBeginsOnceOf(UpdateEvents(w), cams);
    FrameEndsOnceOf(UpdateEvents(w), cams);
    FrameOrderOf(UpdateEvents(w), cams);
  }

  /** Within a frame the forward phase is opened once per Active camera. */
  lemma FrameForwardPhases(w: World, aa: Display.AntiAliasing)
    ensures Count(FrameEvents(w, aa), BindBeginForward) == ActiveCount(w.cameras)
  {
    var updates, open := UpdateEvents(w), [BindWorldBuffer, BindBegin];
    CameraUpdatesCover(w.cameras);
    ModelUpdatesCover(w.models);
    CamerasEventsCover(w.cameras, aa);
    assert BindBeginForward !in updates + open;
    AppendAssoc(updates, open, CamerasEvents(w.cameras, aa));
    CountOnlyIn(updates + open, CamerasEvents(w.cameras, aa), GUIEvents(), BindBeginForward);
  }

  /** Within a frame a camera is rendered, and has its buffer updated, iff it
      is Active, and a model's buffer is updated iff it is Active. */
  lemma FrameCoverage(w: World, aa: Display.AntiAliasing)
    ensures forall id :: BindCameraBuffer(id) in FrameEvents(w, aa) <==> HasActiveCamera(w.cameras, id)
    ensures forall id :: UpdateCameraBuffer(id) in FrameEvents(w, aa) <==> HasActiveCamera(w.cameras, id)
    ensures forall id :: UpdateModelBuffer(id) in FrameEvents(w, aa) <==> HasActiveModel(w.models, id)
  {
    CamerasEventsCover(w.cameras, aa);
    CameraUpdatesCover(w.cameras);
    ModelUpdatesCover(w.models);
    FrameMembersOf(CameraUpdates(w.cameras), ModelUpdates(w.models), CamerasEvents(w.cameras, aa));
  }

  /** Which calls of a frame name a camera or a model, for any pieces of the
      right kinds. */
  lemma FrameMembersOf(cu: seq<Event>, mu: seq<Event>, cams: seq<Event>)
    requires forall e :: e in cu ==> e.UpdateCameraBuffer?
    requires forall e :: e in mu ==> e.UpdateModelBuffer?
    requires forall e :: e in cams ==> !FrameLevel(e)
    ensures var t := [UpdateWorldBuffer] + cu + mu + [BindWorldBuffer, BindBegin] + cams + GUIEvents();
            forall id :: && (BindCameraBuffer(id) in t <==> BindCameraBuffer(id) in cams)
                         && (UpdateCameraBuffer(id) in t <==> UpdateCameraBuffer(id) in cu)
                         && (UpdateModelBuffer(id) in t <==> UpdateModelBuffer(id) in mu)
  {
  }
}
