/**
 * The shading normal pass: it draws the opaque and then the transparent
 * models of a camera's pass buffer with a pixel shader that outputs shading
 * normals, switching to the tangent-space normal mapping (TSNM) variant for
 * materials with a normal map when the camera asks for it. The pass caches
 * the index of the pixel shader it bound last and binds a shader only when
 * the index changes. Every call the pass issues to the device context is an
 * event of its trace.
 */
module ShadingNormalPasses {
  import opened Common
  import opened Matrices
  import BoundingVolumes

  /** The camera render modes this pass distinguishes. */
  datatype RenderMode = NoRenderMode | ShadingNormal | TSNMShadingNormal | OtherMode(name: string)

  /** PSIndex: the two pixel shaders, and Count for "none bound". */
  datatype PSIndex = ShadingNormalPS | TSNMShadingNormalPS | Count

  datatype Material = Material(normalSRV: Option<nat>)

  /** A model node of the pass buffer as the pass reads it. */
  datatype ModelNode = ModelNode(id: nat, objectToWorld: Matrix, worldToObject: Matrix,
                                 aabb: BoundingVolumes.AABB, material: Material)

  datatype ShadingEvent =
    | BindVertexShader | BindCullCounterClockwise | BindDepthDefault | BindOpaqueBlend
    | BindLinearWrapSampler
    /** The scene buffer receives view_to_projection transposed. */
    | BindSceneData(viewToProjection: Matrix)
    /** The model buffer receives object_to_view transposed, world_to_object
        as the normal transform and the identity texture transform. */
    | BindModelData(objectToView: Matrix, normalToView: Matrix, textureTransform: Matrix)
    | BindPixelShader(index: PSIndex)
    | BindNormalSRV(srv: nat)
    | BindMesh(model: nat)
    | Draw(model: nat)

  /** The events of a pass and the bound pixel shader index after them. */
  datatype Outcome = Outcome(events: seq<ShadingEvent>, bound: PSIndex)

  /** The shader a material is drawn with. */
  function ShaderFor(mode: RenderMode, m: Material): PSIndex
  {
    if mode == TSNMShadingNormal && m.normalSRV.Some? then TSNMShadingNormalPS else ShadingNormalPS
  }

  /** BindPS(index): a bind only when the index differs from the bound one. */
  function ShaderBind(bound: PSIndex, index: PSIndex): seq<ShadingEvent>
  {
    if bound != index then [BindPixelShader(index)] else []
  }

  /** BindPS(material): the shader, and for the TSNM shader the normal map. */
  function MaterialEvents(mode: RenderMode, bound: PSIndex, m: Material): seq<ShadingEvent>
  {
    ShaderBind(bound, ShaderFor(mode, m)) + NormalMap(mode, m)
  }

  predicate Culled(m: ModelNode, worldToProjection: Matrix, cull: (Matrix, BoundingVolumes.AABB) -> bool)
  {
    cull(m.objectToWorld + worldToProjection, m.aabb)
  }

  /** The model buffer update of a model: object_to_view transposed,
      world_to_object and the identity texture transform. */
  function ModelData(m: ModelNode, worldToView: Matrix): seq<ShadingEvent>
  {
    [BindModelData([Transposed(m.objectToWorld + worldToView)], m.worldToObject, [])]
  }

  /** The normal map bound along with the TSNM shader. */
  function NormalMap(mode: RenderMode, material: Material): seq<ShadingEvent>
  {
    if ShaderFor(mode, material) == TSNMShadingNormalPS then [BindNormalSRV(material.normalSRV.value)] else []
  }

  function ModelDraw(m: ModelNode): seq<ShadingEvent>
  {
    [BindMesh(m.id), Draw(m.id)]
  }

  /** One iteration of ProcessModels: nothing for a culled model; otherwise
      its data, its shader, its mesh and its draw. */
  function ModelStep(mode: RenderMode, bound: PSIndex, m: ModelNode, worldToProjection: Matrix,
                     worldToView: Matrix, cull: (Matrix, BoundingVolumes.AABB) -> bool): Outcome
  {
    if Culled(m, worldToProjection, cull) then Outcome([], bound)
    else
      Outcome(ModelData(m, worldToView) + MaterialEvents(mode, bound, m.material) + ModelDraw(m),
              ShaderFor(mode, m.material))
  }

  /** ProcessModels over a list, from the bound index `bound`. */
  function ModelsOutcome(mode: RenderMode, bound: PSIndex, models: seq<ModelNode>, worldToProjection: Matrix,
                         worldToView: Matrix, cull: (Matrix, BoundingVolumes.AABB) -> bool): Outcome
  {
    if models == [] then Outcome([], bound)
    else
      var front := ModelsOutcome(mode, bound, models[..|models| - 1], worldToProjection, worldToView, cull);
      var last := ModelStep(mode, front.bound, models[|models| - 1], worldToProjection, worldToView, cull);
      Outcome(front.events + last.events, last.bound)
  }

  /** The fixed state Render binds before any model. */
  function HeadEvents(mode: RenderMode, viewToProjection: Matrix): seq<ShadingEvent>
  {
    [BindVertexShader, BindCullCounterClockwise, BindDepthDefault, BindOpaqueBlend]
    + (if mode != ShadingNormal then [BindLinearWrapSampler] else [])
    + [BindSceneData([Transposed(viewToProjection)])]
  }

  /** Render: the fixed state from a reset cache, then the opaque models,
      then the transparent ones. */
  function RenderOutcome(mode: RenderMode, opaqueModels: seq<ModelNode>, transparentModels: seq<ModelNode>,
                         worldToView: Matrix, viewToProjection: Matrix,
                         cull: (Matrix, BoundingVolumes.AABB) -> bool): Outcome
  {
    var worldToProjection := worldToView + viewToProjection;
    var first := ModelsOutcome(mode, Count, opaqueModels, worldToProjection, worldToView, cull);
    var second := ModelsOutcome(mode, first.bound, transparentModels, worldToProjection, worldToView, cull);
    Outcome(HeadEvents(mode, viewToProjection) + first.events + second.events, second.bound)
  }

  //---------------------------------------------------------------------------
  // The bound pixel shader
  //---------------------------------------------------------------------------

  /** The pixel shaders bound by a sequence of events, in order. */
  function Shaders(t: seq<ShadingEvent>): seq<PSIndex>
  {
    if t == [] then []
    else Shaders(t[..|t| - 1]) + (if t[|t| - 1].BindPixelShader? then [t[|t| - 1].index] else [])
  }

  /** The pixel shader in effect after a sequence of events. */
  function LastShader(t: seq<ShadingEvent>): Option<PSIndex>
  {
    var s := Shaders(t);
    if s == [] then None else Some(s[|s| - 1])
  }

  lemma {:induction false} ShadersAppend(a: seq<ShadingEvent>, b: seq<ShadingEvent>)
    ensures Shaders(a + b) == Shaders(a) + Shaders(b)
  {
    if b != [] {
      ShadersAppend(a, b[..|b| - 1]);
      assert (a + b)[..|a + b| - 1] == a + b[..|b| - 1];
    } else {
      assert a + b == a;
    }
  }

  /** Events other than shader binds leave the bound shader as it was. */
  predicate KeepsShader(t: seq<ShadingEvent>)
  {
    forall e :: e in t ==> !e.BindPixelShader?
  }

  lemma {:induction false} ShadersWithoutBinds(t: seq<ShadingEvent>)
    requires KeepsShader(t)
    ensures Shaders(t) == []
  {
    if t != [] {
      ShadersWithoutBinds(t[..|t| - 1]);
      assert t[|t| - 1] in t;
    }
  }

  lemma ShadersAround(a: seq<ShadingEvent>, b: seq<ShadingEvent>, c: seq<ShadingEvent>)
    requires KeepsShader(a) && KeepsShader(c)
    ensures Shaders(a + b + c) == Shaders(b)
  {
    ShadersWithoutBinds(a);
    ShadersWithoutBinds(c);
    ShadersAppend(a, b);
    ShadersAppend(a + b, c);
  }

  lemma ShadersOfBind(bound: PSIndex, index: PSIndex)
    ensures Shaders(ShaderBind(bound, index)) == if bound != index then [index] else []
  {
    if bound != index {
      assert [BindPixelShader(index)][..0] == [];
    }
  }

  lemma LastShaderAppend(a: seq<ShadingEvent>, b: seq<ShadingEvent>)
    ensures LastShader(a + b) == if Shaders(b) == [] then LastShader(a) else LastShader(b)
  {
    ShadersAppend(a, b);
  }

  /** The shader binds of one model step: one bind, of the model's shader,
      exactly when the model is not culled and its shader is not the bound
      one. */
  lemma ModelStepShaders(mode: RenderMode, bound: PSIndex, m: ModelNode, worldToProjection: Matrix,
                         worldToView: Matrix, cull: (Matrix, BoundingVolumes.AABB) -> bool)
    ensures var o := ModelStep(mode, bound, m, worldToProjection, worldToView, cull);
      Shaders(o.events) == (if Culled(m, worldToProjection, cull) || bound == o.bound then [] else [o.bound])
  {
    if !Culled(m, worldToProjection, cull) {
      var index := ShaderFor(mode, m.material);
      var tail := NormalMap(mode, m.material) + ModelDraw(m);
      assert ModelData(m, worldToView) + MaterialEvents(mode, bound, m.material) + ModelDraw(m)
          == ModelData(m, worldToView) + ShaderBind(bound, index) + tail;
      assert KeepsShader(tail);
      ShadersAround(ModelData(m, worldToView), ShaderBind(bound, index), tail);
      ShadersOfBind(bound, index);
    }
  }

  /** A sequence of shader binds that never repeats the shader bound just
      before it, starting from `before` and ending with `after` bound. */
  predicate Alternates(s: seq<PSIndex>, before: PSIndex, after: PSIndex)
  {
    (forall k :: 0 < k < |s| ==> s[k] != s[k - 1]) &&
    (if s == [] then after == before else s[0] != before && s[|s| - 1] == after)
  }

  lemma AlternatesSnoc(s: seq<PSIndex>, before: PSIndex, middle: PSIndex, x: PSIndex)
    requires Alternates(s, before, middle) && x != middle
    ensures Alternates(s + [x], before, x)
  {
  }

  /** The cache never binds a shader twice in a row: successive binds differ,
      the first differs from the index bound before, and the index afterwards
      is the last one bound (or the one before, if nothing was bound). */
  lemma {:induction false} NoRedundantBinds(mode: RenderMode, bound: PSIndex, models: seq<ModelNode>,
                                            worldToProjection: Matrix, worldToView: Matrix,
                                            cull: (Matrix, BoundingVolumes.AABB) -> bool)
    ensures var o := ModelsOutcome(mode, bound, models, worldToProjection, worldToView, cull);
      Alternates(Shaders(o.events), bound, o.bound)
  {
    if models != [] {
      var front := ModelsOutcome(mode, bound, models[..|models| - 1], worldToProjection, worldToView, cull);
      var last := ModelStep(mode, front.bound, models[|models| - 1], worldToProjection, worldToView, cull);
      NoRedundantBinds(mode, bound, models[..|models| - 1], worldToProjection, worldToView, cull);
      ModelStepShaders(mode, front.bound, models[|models| - 1], worldToProjection, worldToView, cull);
      ShadersAppend(front.events, last.events);
      if Shaders(last.events) == [] {
        assert Shaders(front.events + last.events) == Shaders(front.events);
      } else {
        AlternatesSnoc(Shaders(front.events), bound, front.bound, last.bound);
      }
    }
  }

  /** The shader in effect agrees with the cached index, whenever that index
      names a shader. */
  predicate CacheAgrees(t: seq<ShadingEvent>, bound: PSIndex)
  {
    bound != Count ==> LastShader(t) == Some(bound)
  }

  /** The draw at position k is of one of the models, with the shader its
      material calls for in effect. */
  predicate DrawMatches(t: seq<ShadingEvent>, k: nat, mode: RenderMode, models: seq<ModelNode>)
    requires k < |t|
  {
    exists i :: 0 <= i < |models| && t[k] == Draw(models[i].id) &&
      LastShader(t[..k]) == Some(ShaderFor(mode, models[i].material))
  }

  predicate DrawsMatch(t: seq<ShadingEvent>, from: nat, mode: RenderMode, models: seq<ModelNode>)
  {
    forall k :: from <= k < |t| && t[k].Draw? ==> DrawMatches(t, k, mode, models)
  }

  /** A matched draw stays matched when events follow it and models are
      added after the ones it matched. */
  lemma DrawMatchesGrow(t: seq<ShadingEvent>, u: seq<ShadingEvent>, k: nat, mode: RenderMode,
                        front: seq<ModelNode>, models: seq<ModelNode>, offset: nat)
    requires k < |t| && DrawMatches(t, k, mode, front)
    requires offset + |front| <= |models| && forall i :: 0 <= i < |front| ==> models[offset + i] == front[i]
    ensures DrawMatches(t + u, k, mode, models)
  {
    var i :| 0 <= i < |front| && t[k] == Draw(front[i].id) && LastShader(t[..k]) == Some(ShaderFor(mode, front[i].material));
    assert (t + u)[..k] == t[..k] && (t + u)[k] == t[k];
    assert models[offset + i] == front[i];
  }

  /** Matched draws of two stretches of events, over two lists of models,
      are matched over the joined list. */
  lemma DrawsMatchJoin(a: seq<ShadingEvent>, u: seq<ShadingEvent>, from: nat, mode: RenderMode,
                       first: seq<ModelNode>, second: seq<ModelNode>)
    requires DrawsMatch(a, from, mode, first) && DrawsMatch(a + u, |a|, mode, second)
    ensures DrawsMatch(a + u, from, mode, first + second)
  {
    var all := first + second;
    forall k | from <= k < |a + u| && (a + u)[k].Draw?
      ensures DrawMatches(a + u, k, mode, all)
    {
      if k < |a| {
        assert a[k] == (a + u)[k];
        DrawMatchesGrow(a, u, k, mode, first, all, 0);
      } else {
        DrawMatchesGrow(a + u, [], k, mode, second, all, |first|);
        assert a + u + [] == a + u;
      }
    }
  }

  /** The events of a model step, with the draw last and alone. */
  lemma StepDrawIsLast(mode: RenderMode, bound: PSIndex, m: ModelNode, worldToProjection: Matrix,
                       worldToView: Matrix, cull: (Matrix, BoundingVolumes.AABB) -> bool)
    requires !Culled(m, worldToProjection, cull)
    ensures var e := ModelStep(mode, bound, m, worldToProjection, worldToView, cull).events;
      |e| > 0 && e == e[..|e| - 1] + [Draw(m.id)] && forall j :: 0 <= j < |e| - 1 ==> !e[j].Draw?
  {
    var e := ModelStep(mode, bound, m, worldToProjection, worldToView, cull).events;
    assert e == ModelData(m, worldToView) + MaterialEvents(mode, bound, m.material) + [BindMesh(m.id)] + [Draw(m.id)];
  }

  /** A model step keeps the cache in agreement with the shader in effect. */
  lemma StepKeepsCache(mode: RenderMode, pre: seq<ShadingEvent>, bound: PSIndex, m: ModelNode,
                       worldToProjection: Matrix, worldToView: Matrix,
                       cull: (Matrix, BoundingVolumes.AABB) -> bool)
    requires CacheAgrees(pre, bound)
    ensures var o := ModelStep(mode, bound, m, worldToProjection, worldToView, cull);
      CacheAgrees(pre + o.events, o.bound)
  {
    var o := ModelStep(mode, bound, m, worldToProjection, worldToView, cull);
    ModelStepShaders(mode, bound, m, worldToProjection, worldToView, cull);
    LastShaderAppend(pre, o.events);
  }

  /** Events that end with the only draw among them, with a model's shader
      in effect at the end, match that draw. */
  lemma LastDrawMatches(pre: seq<ShadingEvent>, e: seq<ShadingEvent>, mode: RenderMode, m: ModelNode)
    requires |e| > 0 && e == e[..|e| - 1] + [Draw(m.id)] && forall j :: 0 <= j < |e| - 1 ==> !e[j].Draw?
    requires LastShader(pre + e) == Some(ShaderFor(mode, m.material))
    ensures DrawsMatch(pre + e, |pre|, mode, [m])
  {
    var t := pre + e;
    var k := |t| - 1;
    assert t[..k] + [Draw(m.id)] == t;
    ShadersAppend(t[..k], [Draw(m.id)]);
    assert Shaders([Draw(m.id)]) == [];
    assert DrawMatches(t, k, mode, [m]) by {
      assert t[k] == Draw([m][0].id);
    }
    forall j | |pre| <= j < |t| && t[j].Draw?
      ensures j == k
    {
      if j < k {
        assert false;
      }
    }
  }

  /** The draw of a model step happens with the model's shader in effect. */
  lemma StepDrawMatches(mode: RenderMode, pre: seq<ShadingEvent>, bound: PSIndex, m: ModelNode,
                        worldToProjection: Matrix, worldToView: Matrix,
                        cull: (Matrix, BoundingVolumes.AABB) -> bool)
    requires CacheAgrees(pre, bound)
    ensures var o := ModelStep(mode, bound, m, worldToProjection, worldToView, cull);
      DrawsMatch(pre + o.events, |pre|, mode, [m])
  {
    var o := ModelStep(mode, bound, m, worldToProjection, worldToView, cull);
    if !Culled(m, worldToProjection, cull) {
      StepKeepsCache(mode, pre, bound, m, worldToProjection, worldToView, cull);
      StepDrawIsLast(mode, bound, m, worldToProjection, worldToView, cull);
      LastDrawMatches(pre, o.events, mode, m);
    } else {
      assert pre + o.events == pre;
    }
  }

  /** ProcessModels keeps the cache in agreement with the shader in effect. */
  lemma {:induction false} CacheStaysRight(mode: RenderMode, pre: seq<ShadingEvent>, bound: PSIndex,
                                           models: seq<ModelNode>, worldToProjection: Matrix,
                                           worldToView: Matrix, cull: (Matrix, BoundingVolumes.AABB) -> bool)
    requires CacheAgrees(pre, bound)
    ensures var o := ModelsOutcome(mode, bound, models, worldToProjection, worldToView, cull);
      CacheAgrees(pre + o.events, o.bound)
  {
    if models == [] {
      assert pre + [] == pre;
    } else {
      var n := |models| - 1;
      var front := ModelsOutcome(mode, bound, models[..n], worldToProjection, worldToView, cull);
      var last := ModelStep(mode, front.bound, models[n], worldToProjection, worldToView, cull);
      CacheStaysRight(mode, pre, bound, models[..n], worldToProjection, worldToView, cull);
      StepKeepsCache(mode, pre + front.events, front.bound, models[n], worldToProjection, worldToView, cull);
      assert pre + (front.events + last.events) == pre + front.events + last.events;
    }
  }

  /** Every draw of ProcessModels happens with the shader its model's
      material calls for, given that the cached index was right when it
      started. */
  lemma {:induction false} DrawsUseTheirShader(mode: RenderMode, pre: seq<ShadingEvent>, bound: PSIndex,
                                               models: seq<ModelNode>, worldToProjection: Matrix,
                                               worldToView: Matrix, cull: (Matrix, BoundingVolumes.AABB) -> bool)
    requires CacheAgrees(pre, bound)
    ensures var o := ModelsOutcome(mode, bound, models, worldToProjection, worldToView, cull);
      DrawsMatch(pre + o.events, |pre|, mode, models)
  {
    if models == [] {
      assert pre + [] == pre;
    } else {
      var n := |models| - 1;
      var front := ModelsOutcome(mode, bound, models[..n], worldToProjection, worldToView, cull);
      var last := ModelStep(mode, front.bound, models[n], worldToProjection, worldToView, cull);
      var middle := pre + front.events;
      DrawsUseTheirShader(mode, pre, bound, models[..n], worldToProjection, worldToView, cull);
      CacheStaysRight(mode, pre, bound, models[..n], worldToProjection, worldToView, cull);
      StepDrawMatches(mode, middle, front.bound, models[n], worldToProjection, worldToView, cull);
      DrawsMatchJoin(middle, last.events, |pre|, mode, models[..n], [models[n]]);
      assert models[..n] + [models[n]] == models;
      assert pre + (front.events + last.events) == middle + last.events;
    }
  }

  /** Within a Render, every draw happens with the shader its model's
      material calls for: the reset to Count makes the first model bind its
      shader, and the cache stays right across both lists. */
  lemma RenderDrawsUseTheirShader(mode: RenderMode, opaqueModels: seq<ModelNode>,
                                  transparentModels: seq<ModelNode>, worldToView: Matrix,
                                  viewToProjection: Matrix, cull: (Matrix, BoundingVolumes.AABB) -> bool)
    ensures DrawsMatch(RenderOutcome(mode, opaqueModels, transparentModels, worldToView, viewToProjection, cull).events,
                       0, mode, opaqueModels + transparentModels)
  {
    var w2p := worldToView + viewToProjection;
    var head := HeadEvents(mode, viewToProjection);
    var first := ModelsOutcome(mode, Count, opaqueModels, w2p, worldToView, cull);
    var second := ModelsOutcome(mode, first.bound, transparentModels, w2p, worldToView, cull);
    var t := RenderOutcome(mode, opaqueModels, transparentModels, worldToView, viewToProjection, cull).events;
    var all := opaqueModels + transparentModels;
    var middle := head + first.events;
    DrawsUseTheirShader(mode, head, Count, opaqueModels, w2p, worldToView, cull);
    CacheStaysRight(mode, head, Count, opaqueModels, w2p, worldToView, cull);
    DrawsUseTheirShader(mode, middle, first.bound, transparentModels, w2p, worldToView, cull);
    assert t == middle + second.events;
    DrawsMatchJoin(middle, second.events, |head|, mode, opaqueModels, transparentModels);
    forall k | 0 <= k < |head| && t[k].Draw?
      ensures false
    {
      assert false;
    }
  }

  //---------------------------------------------------------------------------
  // What is drawn
  //---------------------------------------------------------------------------

  /** The events that belong to drawing one model. */
  predicate ModelLevel(e: ShadingEvent)
  {
    e.BindModelData? || e.BindPixelShader? || e.BindNormalSRV? || e.BindMesh? || e.Draw?
  }

  /** One model step only binds model data and shaders and draws, and it
      draws its model iff the model is not culled. */
  lemma StepEvents(mode: RenderMode, bound: PSIndex, m: ModelNode, worldToProjection: Matrix,
                   worldToView: Matrix, cull: (Matrix, BoundingVolumes.AABB) -> bool, id: nat)
    ensures var e := ModelStep(mode, bound, m, worldToProjection, worldToView, cull).events;
      (forall x :: x in e ==> ModelLevel(x)) &&
      (Draw(id) in e <==> m.id == id && !Culled(m, worldToProjection, cull))
  {
    if !Culled(m, worldToProjection, cull) {
      var e := ModelStep(mode, bound, m, worldToProjection, worldToView, cull).events;
      var front := ModelData(m, worldToView) + ShaderBind(bound, ShaderFor(mode, m.material))
                   + NormalMap(mode, m.material);
      assert forall x :: x in front ==> ModelLevel(x) && !x.Draw?;
      assert e == front + [BindMesh(m.id), Draw(m.id)];
    }
  }

  /** ProcessModels only binds model data and shaders and draws. */
  lemma {:induction false} ModelsAreModelLevel(mode: RenderMode, bound: PSIndex, models: seq<ModelNode>,
                                               worldToProjection: Matrix, worldToView: Matrix,
                                               cull: (Matrix, BoundingVolumes.AABB) -> bool)
    ensures forall e :: e in ModelsOutcome(mode, bound, models, worldToProjection, worldToView, cull).events ==>
      ModelLevel(e)
  {
    if models != [] {
      var n := |models| - 1;
      var front := ModelsOutcome(mode, bound, models[..n], worldToProjection, worldToView, cull);
      ModelsAreModelLevel(mode, bound, models[..n], worldToProjection, worldToView, cull);
      StepEvents(mode, front.bound, models[n], worldToProjection, worldToView, cull, 0);
    }
  }

  /** ProcessModels draws a model iff it is not culled. */
  lemma {:induction false} ModelsDrawn(mode: RenderMode, bound: PSIndex, models: seq<ModelNode>,
                                       worldToProjection: Matrix, worldToView: Matrix,
                                       cull: (Matrix, BoundingVolumes.AABB) -> bool, id: nat)
    ensures Draw(id) in ModelsOutcome(mode, bound, models, worldToProjection, worldToView, cull).events <==>
      exists i :: 0 <= i < |models| && models[i].id == id && !Culled(models[i], worldToProjection, cull)
  {
    if models != [] {
      var n := |models| - 1;
      var front := ModelsOutcome(mode, bound, models[..n], worldToProjection, worldToView, cull);
      ModelsDrawn(mode, bound, models[..n], worldToProjection, worldToView, cull, id);
      StepEvents(mode, front.bound, models[n], worldToProjection, worldToView, cull, id);
      forall i | 0 <= i < n
        ensures models[..n][i] == models[i]
      {
      }
    }
  }

  /** Render binds the sampler iff the mode is not ShadingNormal. */
  lemma RenderBindsSampler(mode: RenderMode, opaqueModels: seq<ModelNode>, transparentModels: seq<ModelNode>,
                           worldToView: Matrix, viewToProjection: Matrix,
                           cull: (Matrix, BoundingVolumes.AABB) -> bool)
    ensures var t := RenderOutcome(mode, opaqueModels, transparentModels, worldToView, viewToProjection, cull).events;
      BindLinearWrapSampler in t <==> mode != ShadingNormal
  {
    var w2p := worldToView + viewToProjection;
    var head := HeadEvents(mode, viewToProjection);
    var first := ModelsOutcome(mode, Count, opaqueModels, w2p, worldToView, cull);
    var second := ModelsOutcome(mode, first.bound, transparentModels, w2p, worldToView, cull);
    ModelsAreModelLevel(mode, Count, opaqueModels, w2p, worldToView, cull);
    ModelsAreModelLevel(mode, first.bound, transparentModels, w2p, worldToView, cull);
    assert BindLinearWrapSampler in head <==> mode != ShadingNormal;
  }

  /** Render draws the opaque models that survive culling before the
      transparent ones that survive culling, and draws nothing else. */
  lemma RenderDraws(mode: RenderMode, opaqueModels: seq<ModelNode>, transparentModels: seq<ModelNode>,
                    worldToView: Matrix, viewToProjection: Matrix,
                    cull: (Matrix, BoundingVolumes.AABB) -> bool, id: nat)
    ensures var t := RenderOutcome(mode, opaqueModels, transparentModels, worldToView, viewToProjection, cull).events;
      var h := |HeadEvents(mode, viewToProjection)|;
      var p := h + |ModelsOutcome(mode, Count, opaqueModels, worldToView + viewToProjection, worldToView, cull).events|;
      h <= p <= |t| &&
      (Draw(id) in t[h..p] <==>
         exists i :: 0 <= i < |opaqueModels| && opaqueModels[i].id == id &&
           !Culled(opaqueModels[i], worldToView + viewToProjection, cull)) &&
      (Draw(id) in t[p..] <==>
         exists i :: 0 <= i < |transparentModels| && transparentModels[i].id == id &&
           !Culled(transparentModels[i], worldToView + viewToProjection, cull))
  {
    var w2p := worldToView + viewToProjection;
    var head := HeadEvents(mode, viewToProjection);
    var first := ModelsOutcome(mode, Count, opaqueModels, w2p, worldToView, cull);
    var second := ModelsOutcome(mode, first.bound, transparentModels, w2p, worldToView, cull);
    var t := RenderOutcome(mode, opaqueModels, transparentModels, worldToView, viewToProjection, cull).events;
    assert t == head + first.events + second.events;
    assert t[..|head|] == head;
    assert t[|head|..|head| + |first.events|] == first.events;
    assert t[|head| + |first.events|..] == second.events;
    ModelsDrawn(mode, Count, opaqueModels, w2p, worldToView, cull, id);
    ModelsDrawn(mode, first.bound, transparentModels, w2p, worldToView, cull, id);
  }

  class ShadingNormalPass {
    var renderMode: RenderMode
    var boundPS: PSIndex
    /** Every call the pass has issued, oldest first. */
    var trace: seq<ShadingEvent>

    constructor ()
      ensures renderMode == NoRenderMode && boundPS == Count && trace == []
    {
      renderMode, boundPS, trace := NoRenderMode, Count, [];
    }

    /** BindPS(PSIndex): binds only a shader other than the bound one. */
    method BindPS(index: PSIndex)
      modifies this
      ensures boundPS == index && renderMode == old(renderMode)
      ensures trace == old(trace) + (if old(boundPS) != index then [BindPixelShader(index)] else [])
    {
      if boundPS != index {
        trace := trace + [BindPixelShader(index)];
        boundPS := index;
      }
    }

    /** BindPS(const Material *): the TSNM shader and the normal map iff the
        mode is TSNMShadingNormal and the material has a normal map,
        otherwise the plain shader. */
    method BindMaterialPS(material: Material)
      modifies this
      ensures renderMode == old(renderMode)
      ensures boundPS == (if renderMode == TSNMShadingNormal && material.normalSRV.Some?
                          then TSNMShadingNormalPS else ShadingNormalPS)
      ensures trace == old(trace) + MaterialEvents(renderMode, old(boundPS), material)
    {
      if renderMode == TSNMShadingNormal && material.normalSRV.Some? {
        BindPS(TSNMShadingNormalPS);
        trace := trace + [BindNormalSRV(material.normalSRV.value)];
      } else {
        BindPS(ShadingNormalPS);
      }
    }

    method Render(mode: RenderMode, opaqueModels: seq<ModelNode>, transparentModels: seq<ModelNode>,
                  worldToView: Matrix, viewToProjection: Matrix, cull: (Matrix, BoundingVolumes.AABB) -> bool)
      modifies this
      ensures renderMode == mode
      ensures var o := RenderOutcome(mode, opaqueModels, transparentModels, worldToView, viewToProjection, cull);
        trace == old(trace) + o.events && boundPS == o.bound
    {
      BindHead(mode, viewToProjection);
      var worldToProjection := worldToView + viewToProjection;
      ghost var first := ModelsOutcome(mode, Count, opaqueModels, worldToProjection, worldToView, cull);
      ghost var second := ModelsOutcome(mode, first.bound, transparentModels, worldToProjection, worldToView, cull);
      ghost var head := trace;
      ProcessModels(opaqueModels, worldToProjection, worldToView, cull);
      assert trace == head + first.events;
      ProcessModels(transparentModels, worldToProjection, worldToView, cull);
      assert trace == head + first.events + second.events;
    }

    /** The start of Render: the mode is taken from the camera, the cache is
        reset, the fixed state is bound, the sampler only for a mode other
        than ShadingNormal, and the scene data. */
    method BindHead(mode: RenderMode, viewToProjection: Matrix)
      modifies this
      ensures renderMode == mode && boundPS == Count
      ensures trace == old(trace) + HeadEvents(mode, viewToProjection)
    {
      renderMode := mode;
      boundPS := Count;
      trace := trace + [BindVertexShader, BindCullCounterClockwise, BindDepthDefault, BindOpaqueBlend];
      if renderMode != ShadingNormal {
        trace := trace + [BindLinearWrapSampler];
      }
      trace := trace + [BindSceneData([Transposed(viewToProjection)])];
    }

    method ProcessModels(models: seq<ModelNode>, worldToProjection: Matrix, worldToView: Matrix,
                         cull: (Matrix, BoundingVolumes.AABB) -> bool)
      modifies this
      ensures renderMode == old(renderMode)
      ensures var o := ModelsOutcome(renderMode, old(boundPS), models, worldToProjection, worldToView, cull);
        trace == old(trace) + o.events && boundPS == o.bound
    {
      var i := 0;
      while i < |models|
        invariant 0 <= i <= |models| && renderMode == old(renderMode)
        invariant var o := ModelsOutcome(renderMode, old(boundPS), models[..i], worldToProjection, worldToView, cull);
          trace == old(trace) + o.events && boundPS == o.bound
      {
        assert models[..i + 1][..i] == models[..i];
        ProcessModel(models[i], worldToProjection, worldToView, cull);
        i := i + 1;
      }
      assert models[..i] == models;
    }

    /** One iteration of ProcessModels: a culled model causes no bind and no
        draw. */
    method ProcessModel(m: ModelNode, worldToProjection: Matrix, worldToView: Matrix,
                        cull: (Matrix, BoundingVolumes.AABB) -> bool)
      modifies this
      ensures renderMode == old(renderMode)
      ensures var o := ModelStep(renderMode, old(boundPS), m, worldToProjection, worldToView, cull);
        trace == old(trace) + o.events && boundPS == o.bound
    {
      if cull(m.objectToWorld + worldToProjection, m.aabb) {
        return;
      }
      trace := trace + [BindModelData([Transposed(m.objectToWorld + worldToView)], m.worldToObject, [])];
      BindMaterialPS(m.material);
      trace := trace + [BindMesh(m.id), Draw(m.id)];
    }
  }
}
