/**
 * The bounding volume pass: a wireframe cube around the bounding box of every
 * Active omni light, spot light and model that survives frustum culling, red
 * for lights and green for models. Every call the pass issues to the device
 * context is an event of its trace.
 */
module BoundingVolumePasses {
  import opened Common
  import opened Matrices
  import opened PipelineStates
  import Rendering
  import MathTransform
  import BoundingVolumes
  import DepthPasses

  type AABB = BoundingVolumes.AABB

  /** An omni light as the pass reads it: it is culled by its sphere and
      drawn by its box. */
  datatype OmniLightNode = OmniLightNode(state: Rendering.State, objectToWorld: Matrix,
                                         sphere: BoundingVolumes.BoundingSphere, aabb: AABB)

  /** A spot light or a model as the pass reads it. */
  datatype BoxNode = BoxNode(state: Rendering.State, objectToWorld: Matrix, aabb: AABB)

  datatype VolumeEvent =
    | BindColor(color: Vec4)
    /** The model buffer receives box_to_view transposed. */
    | BindBoxToView(boxToView: Matrix)
    | DrawLines(vertexCount: nat, startVertex: nat)
    | BindLineListTopology | BindLineCubeVS | BindNoHullShader | BindNoDomainShader
    | BindNoGeometryShader | BindWireframe | BindLineCubePS
    | BindDepthReadWrite(test: DepthComparison) | BindOpaqueBlend

  /** The colours in linear space. */
  const LIGHT_COLOR := Vec4(1.0, 0.0, 0.0, 1.0)
  const MODEL_COLOR := Vec4(0.0, 1.0, 0.0, 1.0)

  /** The line cube spans [-1/2, 1/2] on every axis: 12 edges of two
      vertices. */
  const LINE_CUBE_VERTICES: nat := 24

  function Half(v: Vec3): Vec3 { Vec3(v.x / 2.0, v.y / 2.0, v.z / 2.0) }

  /** AABB::Diagonal: the extent of the box on every axis. */
  function Diagonal(b: AABB): (d: Vec3)
    ensures Add(b.min, d) == b.max
  {
    Sub(b.max, b.min)
  }

  /** AABB::Centroid: the centre of the box, half a diagonal from either
      corner. */
  function Centroid(b: AABB): (c: Vec3)
    ensures Sub(c, Half(Diagonal(b))) == b.min && Add(c, Half(Diagonal(b))) == b.max
  {
    Vec3((b.min.x + b.max.x) / 2.0, (b.min.y + b.max.y) / 2.0, (b.min.z + b.max.z) / 2.0)
  }

  /** box_to_view: the unit line cube scaled by the diagonal and moved to the
      centroid, then taken from object to world to view space. */
  function BoxToView(objectToWorld: Matrix, aabb: AABB, worldToView: Matrix): Matrix
  {
    MathTransform.ObjectToParentOf(Centroid(aabb), Vec3(0.0, 0.0, 0.0), Diagonal(aabb)) + (objectToWorld + worldToView)
  }

  function BoxDraw(objectToWorld: Matrix, aabb: AABB, worldToView: Matrix): seq<VolumeEvent>
  {
    [BindBoxToView([Transposed(BoxToView(objectToWorld, aabb, worldToView))]), DrawLines(LINE_CUBE_VERTICES, 0)]
  }

  predicate OmniVisible(l: OmniLightNode, worldToProjection: Matrix,
                        cullSphere: (Matrix, BoundingVolumes.BoundingSphere) -> bool)
  {
    l.state == Rendering.Active && !cullSphere(l.objectToWorld + worldToProjection, l.sphere)
  }

  predicate BoxVisible(n: BoxNode, worldToProjection: Matrix, cullBox: (Matrix, AABB) -> bool)
  {
    n.state == Rendering.Active && !cullBox(n.objectToWorld + worldToProjection, n.aabb)
  }

  /** The calls of the omni light loop. */
  function OmniEvents(lights: seq<OmniLightNode>, worldToProjection: Matrix, worldToView: Matrix,
                      cullSphere: (Matrix, BoundingVolumes.BoundingSphere) -> bool): seq<VolumeEvent>
  {
    if lights == [] then []
    else
      var l := lights[|lights| - 1];
      OmniEvents(lights[..|lights| - 1], worldToProjection, worldToView, cullSphere)
      + (if OmniVisible(l, worldToProjection, cullSphere) then BoxDraw(l.objectToWorld, l.aabb, worldToView) else [])
  }

  /** The calls of the spot light loop and of the model loop. */
  function BoxEvents(nodes: seq<BoxNode>, worldToProjection: Matrix, worldToView: Matrix,
                     cullBox: (Matrix, AABB) -> bool): seq<VolumeEvent>
  {
    if nodes == [] then []
    else
      var n := nodes[|nodes| - 1];
      BoxEvents(nodes[..|nodes| - 1], worldToProjection, worldToView, cullBox)
      + (if BoxVisible(n, worldToProjection, cullBox) then BoxDraw(n.objectToWorld, n.aabb, worldToView) else [])
  }

  /** The calls of Render. */
  function RenderEvents(omniLights: seq<OmniLightNode>, spotLights: seq<BoxNode>, models: seq<BoxNode>,
                        worldToProjection: Matrix, worldToView: Matrix,
                        cullSphere: (Matrix, BoundingVolumes.BoundingSphere) -> bool,
                        cullBox: (Matrix, AABB) -> bool): seq<VolumeEvent>
  {
    [BindColor(LIGHT_COLOR)]
    + OmniEvents(omniLights, worldToProjection, worldToView, cullSphere)
    + BoxEvents(spotLights, worldToProjection, worldToView, cullBox)
    + [BindColor(MODEL_COLOR)]
    + BoxEvents(models, worldToProjection, worldToView, cullBox)
  }

  /** How many omni lights are Active and not culled. */
  function VisibleOmniCount(lights: seq<OmniLightNode>, worldToProjection: Matrix,
                            cullSphere: (Matrix, BoundingVolumes.BoundingSphere) -> bool): nat
  {
    if lights == [] then 0
    else VisibleOmniCount(lights[..|lights| - 1], worldToProjection, cullSphere)
         + (if OmniVisible(lights[|lights| - 1], worldToProjection, cullSphere) then 1 else 0)
  }

  /** How many spot lights or models are Active and not culled. */
  function VisibleBoxCount(nodes: seq<BoxNode>, worldToProjection: Matrix, cullBox: (Matrix, AABB) -> bool): nat
  {
    if nodes == [] then 0
    else VisibleBoxCount(nodes[..|nodes| - 1], worldToProjection, cullBox)
         + (if BoxVisible(nodes[|nodes| - 1], worldToProjection, cullBox) then 1 else 0)
  }

  /** n pairs of a box matrix and a 24-vertex line-list draw, and nothing
      else. */
  predicate DrawPairs(t: seq<VolumeEvent>, n: nat)
  {
    |t| == 2 * n &&
    forall k :: 0 <= k < |t| ==>
      if k % 2 == 0 then t[k].BindBoxToView? else t[k] == DrawLines(LINE_CUBE_VERTICES, 0)
  }

  lemma DrawPairsAppend(a: seq<VolumeEvent>, n: nat, b: seq<VolumeEvent>, m: nat)
    requires DrawPairs(a, n) && DrawPairs(b, m)
    ensures DrawPairs(a + b, n + m)
  {
    forall k | |a| <= k < |a| + |b|
      ensures (a + b)[k] == b[k - |a|] && (k % 2 == 0 <==> (k - |a|) % 2 == 0)
    {
    }
  }

  /** Each visible omni light costs exactly one box matrix and one draw. */
  lemma {:induction false} OmniDrawPairs(lights: seq<OmniLightNode>, worldToProjection: Matrix, worldToView: Matrix,
                                         cullSphere: (Matrix, BoundingVolumes.BoundingSphere) -> bool)
    ensures DrawPairs(OmniEvents(lights, worldToProjection, worldToView, cullSphere),
                      VisibleOmniCount(lights, worldToProjection, cullSphere))
  {
    if lights != [] {
      var l := lights[|lights| - 1];
      OmniDrawPairs(lights[..|lights| - 1], worldToProjection, worldToView, cullSphere);
      if OmniVisible(l, worldToProjection, cullSphere) {
        DrawPairsAppend(OmniEvents(lights[..|lights| - 1], worldToProjection, worldToView, cullSphere),
                        VisibleOmniCount(lights[..|lights| - 1], worldToProjection, cullSphere),
                        BoxDraw(l.objectToWorld, l.aabb, worldToView), 1);
      } else {
        assert OmniEvents(lights, worldToProjection, worldToView, cullSphere)
            == OmniEvents(lights[..|lights| - 1], worldToProjection, worldToView, cullSphere) + [];
      }
    }
  }

  /** Each visible spot light or model costs exactly one box matrix and one
      draw. */
  lemma {:induction false} BoxDrawPairs(nodes: seq<BoxNode>, worldToProjection: Matrix, worldToView: Matrix,
                                        cullBox: (Matrix, AABB) -> bool)
    ensures DrawPairs(BoxEvents(nodes, worldToProjection, worldToView, cullBox),
                      VisibleBoxCount(nodes, worldToProjection, cullBox))
  {
    if nodes != [] {
      var n := nodes[|nodes| - 1];
      BoxDrawPairs(nodes[..|nodes| - 1], worldToProjection, worldToView, cullBox);
      if BoxVisible(n, worldToProjection, cullBox) {
        DrawPairsAppend(BoxEvents(nodes[..|nodes| - 1], worldToProjection, worldToView, cullBox),
                        VisibleBoxCount(nodes[..|nodes| - 1], worldToProjection, cullBox),
                        BoxDraw(n.objectToWorld, n.aabb, worldToView), 1);
      } else {
        assert BoxEvents(nodes, worldToProjection, worldToView, cullBox)
            == BoxEvents(nodes[..|nodes| - 1], worldToProjection, worldToView, cullBox) + [];
      }
    }
  }

  /** Render binds the light colour first and the model colour once, after
      every light and before every model; in between it draws exactly one
      cube per visible light and after it one per visible model. */
  lemma RenderShape(omniLights: seq<OmniLightNode>, spotLights: seq<BoxNode>, models: seq<BoxNode>,
                    worldToProjection: Matrix, worldToView: Matrix,
                    cullSphere: (Matrix, BoundingVolumes.BoundingSphere) -> bool,
                    cullBox: (Matrix, AABB) -> bool)
    ensures var t := RenderEvents(omniLights, spotLights, models, worldToProjection, worldToView, cullSphere, cullBox);
      var q := 1 + |OmniEvents(omniLights, worldToProjection, worldToView, cullSphere)|
                 + |BoxEvents(spotLights, worldToProjection, worldToView, cullBox)|;
      q < |t| && t[0] == BindColor(LIGHT_COLOR) && t[q] == BindColor(MODEL_COLOR) &&
      DrawPairs(t[1..q], VisibleOmniCount(omniLights, worldToProjection, cullSphere)
                         + VisibleBoxCount(spotLights, worldToProjection, cullBox)) &&
      DrawPairs(t[q + 1..], VisibleBoxCount(models, worldToProjection, cullBox))
  {
    var omni := OmniEvents(omniLights, worldToProjection, worldToView, cullSphere);
    var spot := BoxEvents(spotLights, worldToProjection, worldToView, cullBox);
    var model := BoxEvents(models, worldToProjection, worldToView, cullBox);
    var t := RenderEvents(omniLights, spotLights, models, worldToProjection, worldToView, cullSphere, cullBox);
    var q := 1 + |omni| + |spot|;
    assert t[1..q] == omni + spot;
    assert t[q + 1..] == model;
    OmniDrawPairs(omniLights, worldToProjection, worldToView, cullSphere);
    BoxDrawPairs(spotLights, worldToProjection, worldToView, cullBox);
    BoxDrawPairs(models, worldToProjection, worldToView, cullBox);
    DrawPairsAppend(omni, VisibleOmniCount(omniLights, worldToProjection, cullSphere),
                    spot, VisibleBoxCount(spotLights, worldToProjection, cullBox));
  }

  /** The depth comparison of the pass's fixed state as written: it tests the
      misspelled DISSABLE_INVERTED_Z_BUFFER. */
  function BoundingVolumeComparisonAsWritten(macros: Macros): (c: DepthComparison)
    ensures KeepsLargerDepth(c) <==> !macros.dissableInvertedZBuffer
    ensures c == LessEqual || c == GreaterEqual
  {
    if macros.dissableInvertedZBuffer then LessEqual else GreaterEqual
  }

  /** A build that disables the inverted Z-buffer with the engine's macro:
      the depth pass then keeps the smaller depth, but the bounding volume
      pass as written still keeps the larger one. */
  lemma ComparisonMismatchAsWritten()
    ensures var macros := Macros(true, false);
      !KeepsLargerDepth(DepthPasses.DepthPassComparison(macros)) &&
      KeepsLargerDepth(BoundingVolumeComparisonAsWritten(macros))
  {
  }

  /** The depth comparison with the engine's DISABLE_INVERTED_Z_BUFFER macro:
      less-equal when it is defined, greater-equal otherwise. */
  function BoundingVolumeComparison(macros: Macros): (c: DepthComparison)
    ensures KeepsLargerDepth(c) <==> KeepsLargerDepth(DepthPasses.DepthPassComparison(macros))
  {
    if macros.disableInvertedZBuffer then LessEqual else GreaterEqual
  }

  class BoundingVolumePass {
    /** Every call the pass has issued, oldest first. */
    var trace: seq<VolumeEvent>

    constructor ()
      ensures trace == []
    {
      trace := [];
    }

    method BindColorData(color: Vec4)
      modifies this
      ensures trace == old(trace) + [BindColor(color)]
    {
      trace := trace + [BindColor(color)];
    }

    method BindLightColorData()
      modifies this
      ensures trace == old(trace) + [BindColor(LIGHT_COLOR)]
    {
      BindColorData(Vec4(1.0, 0.0, 0.0, 1.0));
    }

    method BindModelColorData()
      modifies this
      ensures trace == old(trace) + [BindColor(MODEL_COLOR)]
    {
      BindColorData(Vec4(0.0, 1.0, 0.0, 1.0));
    }

    /** The fixed pipeline state as written: the depth test follows the
        misspelled macro (BoundingVolumeComparisonAsWritten). */
    method BindFixedState(macros: Macros)
      modifies this
      ensures trace == old(trace) + [BindLineListTopology, BindLineCubeVS, BindNoHullShader, BindNoDomainShader,
                                     BindNoGeometryShader, BindWireframe, BindLineCubePS,
                                     BindDepthReadWrite(BoundingVolumeComparisonAsWritten(macros)), BindOpaqueBlend]
    {
      var test := if macros.dissableInvertedZBuffer then LessEqual else GreaterEqual;
      trace := trace + [BindLineListTopology, BindLineCubeVS, BindNoHullShader, BindNoDomainShader,
                        BindNoGeometryShader, BindWireframe, BindLineCubePS, BindDepthReadWrite(test), BindOpaqueBlend];
    }

    method Render(omniLights: seq<OmniLightNode>, spotLights: seq<BoxNode>, models: seq<BoxNode>,
                  worldToProjection: Matrix, worldToView: Matrix,
                  cullSphere: (Matrix, BoundingVolumes.BoundingSphere) -> bool,
                  cullBox: (Matrix, AABB) -> bool)
      modifies this
      ensures trace == old(trace) + RenderEvents(omniLights, spotLights, models, worldToProjection, worldToView,
                                                 cullSphere, cullBox)
    {
      BindLightColorData();
      ghost var t1 := trace;
      ProcessOmniLights(omniLights, worldToProjection, worldToView, cullSphere);
      ghost var t2 := trace;
      ProcessBoxes(spotLights, worldToProjection, worldToView, cullBox);
      ghost var t3 := trace;
      BindModelColorData();
      ghost var t4 := trace;
      ProcessBoxes(models, worldToProjection, worldToView, cullBox);
      assert trace == t4 + BoxEvents(models, worldToProjection, worldToView, cullBox);
    }

    /** The loop over omni lights: each Active light whose bounding sphere
        survives culling gets its bounding box drawn. */
    method ProcessOmniLights(omniLights: seq<OmniLightNode>, worldToProjection: Matrix, worldToView: Matrix,
                             cullSphere: (Matrix, BoundingVolumes.BoundingSphere) -> bool)
      modifies this
      ensures trace == old(trace) + OmniEvents(omniLights, worldToProjection, worldToView, cullSphere)
    {
      var i := 0;
      while i < |omniLights|
        invariant 0 <= i <= |omniLights|
        invariant trace == old(trace) + OmniEvents(omniLights[..i], worldToProjection, worldToView, cullSphere)
      {
        assert omniLights[..i + 1][..i] == omniLights[..i];
        var l := omniLights[i];
        if l.state == Rendering.Active && !cullSphere(l.objectToWorld + worldToProjection, l.sphere) {
          DrawBox(l.objectToWorld, l.aabb, worldToView);
        }
        i := i + 1;
      }
      assert omniLights[..i] == omniLights;
    }

    /** The loop over spot lights and the loop over models. */
    method ProcessBoxes(nodes: seq<BoxNode>, worldToProjection: Matrix, worldToView: Matrix,
                        cullBox: (Matrix, AABB) -> bool)
      modifies this
      ensures trace == old(trace) + BoxEvents(nodes, worldToProjection, worldToView, cullBox)
    {
      var i := 0;
      while i < |nodes|
        invariant 0 <= i <= |nodes|
        invariant trace == old(trace) + BoxEvents(nodes[..i], worldToProjection, worldToView, cullBox)
      {
        assert nodes[..i + 1][..i] == nodes[..i];
        var n := nodes[i];
        if n.state == Rendering.Active && !cullBox(n.objectToWorld + worldToProjection, n.aabb) {
          DrawBox(n.objectToWorld, n.aabb, worldToView);
        }
        i := i + 1;
      }
      assert nodes[..i] == nodes;
    }

    /** The box transform takes the diagonal as its scale and the centroid as
        its translation; its object-to-parent matrix, followed by
        object_to_view, goes to the model buffer, and the line cube is drawn. */
    method DrawBox(objectToWorld: Matrix, aabb: AABB, worldToView: Matrix)
      modifies this
      ensures trace == old(trace) + BoxDraw(objectToWorld, aabb, worldToView)
    {
      var boxToParent := BoxTransformMatrix(aabb);
      var boxToView := boxToParent + (objectToWorld + worldToView);
      trace := trace + [BindBoxToView([Transposed(boxToView)]), DrawLines(24, 0)];
    }
  }

  /** The object-to-parent matrix of a default transform once its scale is
      the box's diagonal and its translation the box's centroid. */
  method BoxTransformMatrix(aabb: AABB) returns (m: Matrix)
    ensures m == MathTransform.ObjectToParentOf(Centroid(aabb), Vec3(0.0, 0.0, 0.0), Diagonal(aabb))
  {
    var boxTransform := new MathTransform.Transform(Vec3(0.0, 0.0, 0.0), Vec3(0.0, 0.0, 0.0), Vec3(1.0, 1.0, 1.0));
    boxTransform.SetScale(Diagonal(aabb));
    boxTransform.SetTranslation(Centroid(aabb));
    m := boxTransform.GetObjectToParentMatrix();
  }
}
