/**
 * The depth pass: it writes the depth of the models of a scene, first the
 * opaque ones with a vertex shader only, then the transparent ones whose
 * base colour is opaque enough to cast a shadow, with a pixel shader that
 * clips on alpha. RenderOccluders does the same for the models that occlude
 * light. Every call the pass issues to the device context is an event of its
 * trace.
 */
module DepthPasses {
  import opened Common
  import opened Matrices
  import opened PipelineStates
  import Rendering
  import BoundingVolumes

  /** A model of the scene as the pass reads it. */
  datatype DepthModel = DepthModel(
    id: nat,
    state: Rendering.State,
    transparent: bool,
    /** The alpha channel of the material's base colour. */
    alpha: real,
    occludesLight: bool,
    objectToWorld: Matrix,
    aabb: BoundingVolumes.AABB)

  datatype DepthShader = OpaqueVS | TransparentVS | TransparentPS

  datatype Stage = VertexStage | PixelStage

  datatype DepthEvent =
    | BindCameraBuffer(worldToCamera: Matrix, cameraToProjection: Matrix)
    | BindVertexShader(vs: DepthShader)
    /** None stands for binding no pixel shader. */
    | BindPixelShader(ps: Option<DepthShader>)
    | BindModelBuffer(stage: Stage, model: nat)
    | BindBaseColorSRV(model: nat)
    | BindMesh(model: nat)
    | Draw(model: nat)
    | BindNoHullShader | BindNoDomainShader | BindNoGeometryShader
    | BindCullCounterClockwise
    | BindDepthReadWrite(test: DepthComparison)

  /** Whether a model passes the filter of a phase: Active, an occluder when
      only occluders are rendered, and either opaque (first phase) or
      transparent with an alpha of at least the threshold (second phase). */
  predicate Selected(m: DepthModel, occluders: bool, transparentPhase: bool, threshold: real)
  {
    m.state == Rendering.Active && (!occluders || m.occludesLight) &&
    if transparentPhase then m.transparent && !(m.alpha < threshold) else !m.transparent
  }

  /** The calls of RenderOpaque / RenderTransparent for one model: nothing if
      the model's box is culled against object_to_world * world_to_projection. */
  function ModelEvents(m: DepthModel, transparentPhase: bool, worldToProjection: Matrix,
                       cull: (Matrix, BoundingVolumes.AABB) -> bool): seq<DepthEvent>
  {
    if cull(m.objectToWorld + worldToProjection, m.aabb) then []
    else if transparentPhase then
      [BindModelBuffer(VertexStage, m.id), BindModelBuffer(PixelStage, m.id), BindBaseColorSRV(m.id),
       BindMesh(m.id), Draw(m.id)]
    else [BindModelBuffer(VertexStage, m.id), BindMesh(m.id), Draw(m.id)]
  }

  /** The calls of one phase over the models in scene order. */
  function PhaseEvents(models: seq<DepthModel>, occluders: bool, transparentPhase: bool, threshold: real,
                       worldToProjection: Matrix, cull: (Matrix, BoundingVolumes.AABB) -> bool): seq<DepthEvent>
  {
    if models == [] then []
    else
      var m := models[|models| - 1];
      PhaseEvents(models[..|models| - 1], occluders, transparentPhase, threshold, worldToProjection, cull)
      + (if Selected(m, occluders, transparentPhase, threshold)
         then ModelEvents(m, transparentPhase, worldToProjection, cull) else [])
  }

  /** The calls of Render (occluders false) or RenderOccluders (true). */
  function RenderEvents(models: seq<DepthModel>, occluders: bool, threshold: real,
                        worldToCamera: Matrix, cameraToProjection: Matrix,
                        cull: (Matrix, BoundingVolumes.AABB) -> bool): seq<DepthEvent>
  {
    var worldToProjection := worldToCamera + cameraToProjection;
    [BindCameraBuffer([Transposed(worldToCamera)], [Transposed(cameraToProjection)]),
     BindVertexShader(OpaqueVS), BindPixelShader(None)]
    + PhaseEvents(models, occluders, false, threshold, worldToProjection, cull)
    + [BindVertexShader(TransparentVS), BindPixelShader(Some(TransparentPS))]
    + PhaseEvents(models, occluders, true, threshold, worldToProjection, cull)
  }

  /** The events that belong to drawing one model. */
  predicate ModelLevel(e: DepthEvent)
  {
    e.BindModelBuffer? || e.BindBaseColorSRV? || e.BindMesh? || e.Draw?
  }

  /** One model's events only bind model data and draw, and they draw the
      model iff it is not culled. */
  lemma ModelEventsDraw(m: DepthModel, transparentPhase: bool, worldToProjection: Matrix,
                        cull: (Matrix, BoundingVolumes.AABB) -> bool, id: nat)
    ensures var e := ModelEvents(m, transparentPhase, worldToProjection, cull);
      (forall x :: x in e ==> ModelLevel(x)) &&
      (Draw(id) in e <==> m.id == id && !cull(m.objectToWorld + worldToProjection, m.aabb))
  {
  }

  /** A phase binds no shader and no camera: it only binds model data and
      draws. */
  lemma {:induction false} PhaseIsModelLevel(models: seq<DepthModel>, occluders: bool, transparentPhase: bool,
                                             threshold: real, worldToProjection: Matrix,
                                             cull: (Matrix, BoundingVolumes.AABB) -> bool)
    ensures forall e :: e in PhaseEvents(models, occluders, transparentPhase, threshold, worldToProjection, cull) ==>
      ModelLevel(e)
  {
    if models != [] {
      var n := |models| - 1;
      PhaseIsModelLevel(models[..n], occluders, transparentPhase, threshold, worldToProjection, cull);
      ModelEventsDraw(models[n], transparentPhase, worldToProjection, cull, 0);
    }
  }

  /** A model is drawn in a phase iff it passes the phase's filter and is
      not culled. */
  lemma {:induction false} PhaseDraws(models: seq<DepthModel>, occluders: bool, transparentPhase: bool,
                                      threshold: real, worldToProjection: Matrix,
                                      cull: (Matrix, BoundingVolumes.AABB) -> bool, id: nat)
    ensures Draw(id) in PhaseEvents(models, occluders, transparentPhase, threshold, worldToProjection, cull) <==>
      exists i :: 0 <= i < |models| && models[i].id == id &&
        Selected(models[i], occluders, transparentPhase, threshold) &&
        !cull(models[i].objectToWorld + worldToProjection, models[i].aabb)
  {
    if models != [] {
      var n := |models| - 1;
      var front := models[..n];
      PhaseDraws(front, occluders, transparentPhase, threshold, worldToProjection, cull, id);
      ModelEventsDraw(models[n], transparentPhase, worldToProjection, cull, id);
      forall i | 0 <= i < n
        ensures front[i] == models[i]
      {
      }
    }
  }

  /** Render binds the opaque vertex shader and no pixel shader, runs the
      opaque phase, binds the transparent shaders and runs the transparent
      phase; neither phase binds a shader. */
  lemma RenderLayout(models: seq<DepthModel>, occluders: bool, threshold: real,
                     worldToCamera: Matrix, cameraToProjection: Matrix,
                     cull: (Matrix, BoundingVolumes.AABB) -> bool)
    ensures var t := RenderEvents(models, occluders, threshold, worldToCamera, cameraToProjection, cull);
      var p := 3 + |PhaseEvents(models, occluders, false, threshold, worldToCamera + cameraToProjection, cull)|;
      p + 2 <= |t| &&
      t[1] == BindVertexShader(OpaqueVS) && t[2] == BindPixelShader(None) &&
      t[p] == BindVertexShader(TransparentVS) && t[p + 1] == BindPixelShader(Some(TransparentPS)) &&
      (forall e :: e in t[3..p] ==> ModelLevel(e)) && (forall e :: e in t[p + 2..] ==> ModelLevel(e))
  {
    var w2p := worldToCamera + cameraToProjection;
    var t := RenderEvents(models, occluders, threshold, worldToCamera, cameraToProjection, cull);
    var p := 3 + |PhaseEvents(models, occluders, false, threshold, w2p, cull)|;
    assert t[3..p] == PhaseEvents(models, occluders, false, threshold, w2p, cull);
    assert t[p + 2..] == PhaseEvents(models, occluders, true, threshold, w2p, cull);
    PhaseIsModelLevel(models, occluders, false, threshold, w2p, cull);
    PhaseIsModelLevel(models, occluders, true, threshold, w2p, cull);
  }

  /** Render's first phase draws the Active opaque models that survive
      culling. */
  lemma RenderOpaqueDraws(models: seq<DepthModel>, occluders: bool, threshold: real,
                          worldToCamera: Matrix, cameraToProjection: Matrix,
                          cull: (Matrix, BoundingVolumes.AABB) -> bool, id: nat)
    ensures var t := RenderEvents(models, occluders, threshold, worldToCamera, cameraToProjection, cull);
      var w2p := worldToCamera + cameraToProjection;
      var p := 3 + |PhaseEvents(models, occluders, false, threshold, w2p, cull)|;
      p <= |t| &&
      (Draw(id) in t[3..p] <==>
         exists i :: 0 <= i < |models| && models[i].id == id && Selected(models[i], occluders, false, threshold) &&
           !cull(models[i].objectToWorld + w2p, models[i].aabb))
  {
    var w2p := worldToCamera + cameraToProjection;
    var t := RenderEvents(models, occluders, threshold, worldToCamera, cameraToProjection, cull);
    var p := 3 + |PhaseEvents(models, occluders, false, threshold, w2p, cull)|;
    assert t[3..p] == PhaseEvents(models, occluders, false, threshold, w2p, cull);
    PhaseDraws(models, occluders, false, threshold, w2p, cull, id);
  }

  /** Render's second phase, after the two shader binds, draws the Active
      transparent models whose alpha reaches the threshold and that survive
      culling. */
  lemma RenderTransparentDraws(models: seq<DepthModel>, occluders: bool, threshold: real,
                               worldToCamera: Matrix, cameraToProjection: Matrix,
                               cull: (Matrix, BoundingVolumes.AABB) -> bool, id: nat)
    ensures var t := RenderEvents(models, occluders, threshold, worldToCamera, cameraToProjection, cull);
      var w2p := worldToCamera + cameraToProjection;
      var p := 3 + |PhaseEvents(models, occluders, false, threshold, w2p, cull)|;
      p + 2 <= |t| &&
      (Draw(id) in t[p + 2..] <==>
         exists i :: 0 <= i < |models| && models[i].id == id && Selected(models[i], occluders, true, threshold) &&
           !cull(models[i].objectToWorld + w2p, models[i].aabb))
  {
    var w2p := worldToCamera + cameraToProjection;
    var t := RenderEvents(models, occluders, threshold, worldToCamera, cameraToProjection, cull);
    var p := 3 + |PhaseEvents(models, occluders, false, threshold, w2p, cull)|;
    assert t[p + 2..] == PhaseEvents(models, occluders, true, threshold, w2p, cull);
    PhaseDraws(models, occluders, true, threshold, w2p, cull, id);
  }

  /** RenderOccluders draws, in each phase, only models that Render draws in
      that phase. */
  lemma OccludersAreRendered(models: seq<DepthModel>, transparentPhase: bool, threshold: real,
                             worldToProjection: Matrix, cull: (Matrix, BoundingVolumes.AABB) -> bool, id: nat)
    requires Draw(id) in PhaseEvents(models, true, transparentPhase, threshold, worldToProjection, cull)
    ensures Draw(id) in PhaseEvents(models, false, transparentPhase, threshold, worldToProjection, cull)
  {
    PhaseDraws(models, true, transparentPhase, threshold, worldToProjection, cull, id);
    PhaseDraws(models, false, transparentPhase, threshold, worldToProjection, cull, id);
  }

  /** The depth comparison of the pass's fixed state: greater (inverted
      Z-buffer) unless DISABLE_INVERTED_Z_BUFFER is defined. */
  function DepthPassComparison(macros: Macros): (c: DepthComparison)
    ensures KeepsLargerDepth(c) <==> !macros.disableInvertedZBuffer
  {
    if macros.disableInvertedZBuffer then Less else Greater
  }

  class DepthPass {
    /** Every call the pass has issued, oldest first. */
    var trace: seq<DepthEvent>
    /** TRANSPARENCY_SHADOW_THRESHOLD. */
    const threshold: real

    constructor (threshold: real)
      ensures this.threshold == threshold && trace == []
    {
      this.threshold := threshold;
      trace := [];
    }

    method BindOpaqueShaders()
      modifies this
      ensures trace == old(trace) + [BindVertexShader(OpaqueVS), BindPixelShader(None)]
    {
      trace := trace + [BindVertexShader(OpaqueVS), BindPixelShader(None)];
    }

    method BindTransparentShaders()
      modifies this
      ensures trace == old(trace) + [BindVertexShader(TransparentVS), BindPixelShader(Some(TransparentPS))]
    {
      trace := trace + [BindVertexShader(TransparentVS), BindPixelShader(Some(TransparentPS))];
    }

    /** No hull, domain or geometry shader, counter-clockwise culling and a
        depth test that keeps the larger depth unless the build disables the
        inverted Z-buffer. */
    method BindFixedState(macros: Macros)
      modifies this
      ensures trace == old(trace) + [BindNoHullShader, BindNoDomainShader, BindNoGeometryShader,
                                     BindCullCounterClockwise, BindDepthReadWrite(DepthPassComparison(macros))]
    {
      var test := if macros.disableInvertedZBuffer then Less else Greater;
      trace := trace + [BindNoHullShader, BindNoDomainShader, BindNoGeometryShader,
                        BindCullCounterClockwise, BindDepthReadWrite(test)];
    }

    /** The camera buffer receives both matrices transposed. */
    method BindCamera(worldToCamera: Matrix, cameraToProjection: Matrix)
      modifies this
      ensures trace == old(trace) + [BindCameraBuffer([Transposed(worldToCamera)], [Transposed(cameraToProjection)])]
    {
      trace := trace + [BindCameraBuffer([Transposed(worldToCamera)], [Transposed(cameraToProjection)])];
    }

    method Render(models: seq<DepthModel>, worldToCamera: Matrix, cameraToProjection: Matrix,
                  cull: (Matrix, BoundingVolumes.AABB) -> bool)
      modifies this
      ensures trace == old(trace) + RenderEvents(models, false, threshold, worldToCamera, cameraToProjection, cull)
    {
      RenderScene(models, false, worldToCamera, cameraToProjection, cull);
    }

    method RenderOccluders(models: seq<DepthModel>, worldToCamera: Matrix, cameraToProjection: Matrix,
                           cull: (Matrix, BoundingVolumes.AABB) -> bool)
      modifies this
      ensures trace == old(trace) + RenderEvents(models, true, threshold, worldToCamera, cameraToProjection, cull)
    {
      RenderScene(models, true, worldToCamera, cameraToProjection, cull);
    }

    /** The common body of Render and RenderOccluders, which differ only in
        the occluder test of their filters. */
    method RenderScene(models: seq<DepthModel>, occluders: bool, worldToCamera: Matrix,
                       cameraToProjection: Matrix, cull: (Matrix, BoundingVolumes.AABB) -> bool)
      modifies this
      ensures trace == old(trace) + RenderEvents(models, occluders, threshold, worldToCamera, cameraToProjection, cull)
    {
      BindCamera(worldToCamera, cameraToProjection);
      var worldToProjection := worldToCamera + cameraToProjection;
      BindOpaqueShaders();
      ProcessModels(models, occluders, false, worldToProjection, cull);
      BindTransparentShaders();
      ghost var t3 := trace;
      ProcessModels(models, occluders, true, worldToProjection, cull);
      assert trace == t3 + PhaseEvents(models, occluders, true, threshold, worldToProjection, cull);
    }

    /** One scene.ForEach< Model > of a phase, with its filter. */
    method ProcessModels(models: seq<DepthModel>, occluders: bool, transparentPhase: bool,
                         worldToProjection: Matrix, cull: (Matrix, BoundingVolumes.AABB) -> bool)
      modifies this
      ensures trace == old(trace) + PhaseEvents(models, occluders, transparentPhase, threshold, worldToProjection, cull)
    {
      var i := 0;
      while i < |models|
        invariant 0 <= i <= |models|
        invariant trace == old(trace) + PhaseEvents(models[..i], occluders, transparentPhase, threshold, worldToProjection, cull)
      {
        assert models[..i + 1][..i] == models[..i];
        var m := models[i];
        if m.state != Rendering.Active || (occluders && !m.occludesLight) {
        } else if !transparentPhase {
          if !m.transparent {
            RenderOpaque(m, worldToProjection, cull);
          }
        } else if m.transparent && !(m.alpha < threshold) {
          RenderTransparent(m, worldToProjection, cull);
        }
        i := i + 1;
      }
      assert models[..i] == models;
    }

    method RenderOpaque(m: DepthModel, worldToProjection: Matrix, cull: (Matrix, BoundingVolumes.AABB) -> bool)
      modifies this
      ensures trace == old(trace) + ModelEvents(m, false, worldToProjection, cull)
    {
      var objectToProjection := m.objectToWorld + worldToProjection;
      if cull(objectToProjection, m.aabb) {
        return;
      }
      trace := trace + [BindModelBuffer(VertexStage, m.id), BindMesh(m.id), Draw(m.id)];
    }

    method RenderTransparent(m: DepthModel, worldToProjection: Matrix, cull: (Matrix, BoundingVolumes.AABB) -> bool)
      modifies this
      ensures trace == old(trace) + ModelEvents(m, true, worldToProjection, cull)
    {
      var objectToProjection := m.objectToWorld + worldToProjection;
      if cull(objectToProjection, m.aabb) {
        return;
      }
      trace := trace + [BindModelBuffer(VertexStage, m.id), BindModelBuffer(PixelStage, m.id),
                        BindBaseColorSRV(m.id), BindMesh(m.id), Draw(m.id)];
    }
  }
}
