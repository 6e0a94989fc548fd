/**
 * Axis-aligned bounding boxes, bounding spheres and view frustums with their
 * enclosing (full coverage) and overlapping (partial or full coverage) tests.
 *
 * XMVector3Less and XMVector3LessOrEqual are true only when all three lanes
 * compare true; the box-sphere tests below keep that reading (see Findings in
 * the README for what it does to them).
 */
module BoundingVolumes {
  import opened Common

  datatype AABB = AABB(min: Vec3, max: Vec3)

  datatype BoundingSphere = BoundingSphere(centroid: Vec3, radius: real)

  /** Whether box `inner` lies inside box `outer` on every axis. */
  predicate BoxContains(outer: AABB, inner: AABB)
  {
    AllLessOrEqual(outer.min, inner.min) && AllLessOrEqual(inner.max, outer.max)
  }

  /** Whether two boxes share at least one point. */
  predicate BoxesIntersect(a: AABB, b: AABB)
  {
    AllLessOrEqual(a.min, b.max) && AllLessOrEqual(b.min, a.max)
  }

  //---------------------------------------------------------------------------
  // AABB
  //---------------------------------------------------------------------------

  /** AABB(const BoundingSphere &): the box circumscribing the sphere. */
  function AABBOfSphere(s: BoundingSphere): (b: AABB)
    ensures b.max.x - b.min.x == 2.0 * s.radius
    ensures b.max.y - b.min.y == 2.0 * s.radius
    ensures b.max.z - b.min.z == 2.0 * s.radius
    ensures (b.min.x + b.max.x) / 2.0 == s.centroid.x
    ensures (b.min.y + b.max.y) / 2.0 == s.centroid.y
    ensures (b.min.z + b.max.z) / 2.0 == s.centroid.z
  {
    AABB(Sub(s.centroid, Splat(s.radius)), Add(s.centroid, Splat(s.radius)))
  }

  /** AABB::Encloses(const BoundingSphere &), as written: it rejects only when
      the sphere sticks out on all three axes at once, on the same side. */
  function EnclosesSphere(b: AABB, s: BoundingSphere): (r: bool)
    ensures r <==> (s.radius <= b.max.x - s.centroid.x || s.radius <= b.max.y - s.centroid.y ||
                    s.radius <= b.max.z - s.centroid.z) &&
                   (s.radius <= s.centroid.x - b.min.x || s.radius <= s.centroid.y - b.min.y ||
                    s.radius <= s.centroid.z - b.min.z)
  {
    var radius := Splat(s.radius);
    !AllLess(Sub(b.max, s.centroid), radius) && !AllLess(Sub(s.centroid, b.min), radius)
  }

  /** AABB::EnclosesStrict(const BoundingSphere &), as written. */
  function EnclosesSphereStrict(b: AABB, s: BoundingSphere): (r: bool)
    ensures r <==> (s.radius < b.max.x - s.centroid.x || s.radius < b.max.y - s.centroid.y ||
                    s.radius < b.max.z - s.centroid.z) &&
                   (s.radius < s.centroid.x - b.min.x || s.radius < s.centroid.y - b.min.y ||
                    s.radius < s.centroid.z - b.min.z)
  {
    var radius := Splat(s.radius);
    !AllLessOrEqual(Sub(b.max, s.centroid), radius) && !AllLessOrEqual(Sub(s.centroid, b.min), radius)
  }

  /** AABB::Overlaps(const BoundingSphere &), as written: the enclosing test
      with the negated radius. */
  function OverlapsSphere(b: AABB, s: BoundingSphere): (r: bool)
    ensures r <==> (s.centroid.x - s.radius <= b.max.x || s.centroid.y - s.radius <= b.max.y ||
                    s.centroid.z - s.radius <= b.max.z) &&
                   (b.min.x <= s.centroid.x + s.radius || b.min.y <= s.centroid.y + s.radius ||
                    b.min.z <= s.centroid.z + s.radius)
  {
    var radius := Splat(-s.radius);
    !AllLess(Sub(b.max, s.centroid), radius) && !AllLess(Sub(s.centroid, b.min), radius)
  }

  /** AABB::OverlapsStrict(const BoundingSphere &), as written. */
  function OverlapsSphereStrict(b: AABB, s: BoundingSphere): (r: bool)
    ensures r <==> (s.centroid.x - s.radius < b.max.x || s.centroid.y - s.radius < b.max.y ||
                    s.centroid.z - s.radius < b.max.z) &&
                   (b.min.x < s.centroid.x + s.radius || b.min.y < s.centroid.y + s.radius ||
                    b.min.z < s.centroid.z + s.radius)
  {
    var radius := Splat(-s.radius);
    !AllLessOrEqual(Sub(b.max, s.centroid), radius) && !AllLessOrEqual(Sub(s.centroid, b.min), radius)
  }

  /** The box built from a sphere encloses it, but not strictly: the sphere
      touches every face of its box. */
  lemma BoxOfSphereEnclosesIt(s: BoundingSphere)
    ensures EnclosesSphere(AABBOfSphere(s), s) && !EnclosesSphereStrict(AABBOfSphere(s), s)
    ensures OverlapsSphere(AABBOfSphere(s), s) <==> s.radius >= 0.0
  {
    var b := AABBOfSphere(s);
    assert b.max.x - s.centroid.x == s.radius && s.centroid.x - b.min.x == s.radius;
  }

  /** The strict tests are the stronger ones, and enclosing implies
      overlapping for a sphere of non-negative radius. */
  lemma AABBTestsOrdered(b: AABB, s: BoundingSphere)
    ensures EnclosesSphereStrict(b, s) ==> EnclosesSphere(b, s)
    ensures OverlapsSphereStrict(b, s) ==> OverlapsSphere(b, s)
    ensures s.radius >= 0.0 ==> (EnclosesSphere(b, s) ==> OverlapsSphere(b, s))
    ensures s.radius >= 0.0 ==> (EnclosesSphereStrict(b, s) ==> OverlapsSphereStrict(b, s))
  {
  }

  /** As written, Encloses accepts a sphere that sticks out of the box on one
      axis only: the box [0,10]^3 and the sphere of radius 2 around (1,5,5). */
  lemma EnclosesSphereAcceptsProtrudingSphere()
    ensures var b := AABB(Vec3(0.0, 0.0, 0.0), Vec3(10.0, 10.0, 10.0));
            var s := BoundingSphere(Vec3(1.0, 5.0, 5.0), 2.0);
            EnclosesSphere(b, s) && !BoxContains(b, AABBOfSphere(s))
  {
  }

  /** As written, Overlaps accepts a sphere far outside the box on one axis:
      the box [0,10]^3 and the sphere of radius 1 around (20,5,5). */
  lemma OverlapsSphereAcceptsDistantSphere()
    ensures var b := AABB(Vec3(0.0, 0.0, 0.0), Vec3(10.0, 10.0, 10.0));
            var s := BoundingSphere(Vec3(20.0, 5.0, 5.0), 1.0);
            OverlapsSphere(b, s) && !BoxesIntersect(b, AABBOfSphere(s))
  {
  }

  /** The evidently intended enclosing test: the sphere fits on every axis. */
  predicate EnclosesSphereIntended(b: AABB, s: BoundingSphere)
  {
    var radius := Splat(s.radius);
    AllLessOrEqual(radius, Sub(b.max, s.centroid)) && AllLessOrEqual(radius, Sub(s.centroid, b.min))
  }

  /** The evidently intended overlapping test: no axis separates the sphere. */
  predicate OverlapsSphereIntended(b: AABB, s: BoundingSphere)
  {
    var radius := Splat(-s.radius);
    AllLessOrEqual(radius, Sub(b.max, s.centroid)) && AllLessOrEqual(radius, Sub(s.centroid, b.min))
  }

  /** The intended tests compare the box with the sphere's own box, and they
      are at least as demanding as the tests as written. */
  lemma IntendedTestsUseSphereBox(b: AABB, s: BoundingSphere)
    ensures EnclosesSphereIntended(b, s) <==> BoxContains(b, AABBOfSphere(s))
    ensures OverlapsSphereIntended(b, s) <==> BoxesIntersect(b, AABBOfSphere(s))
    ensures EnclosesSphereIntended(b, s) ==> EnclosesSphere(b, s)
    ensures OverlapsSphereIntended(b, s) ==> OverlapsSphere(b, s)
  {
  }

  //---------------------------------------------------------------------------
  // Bounding sphere
  //---------------------------------------------------------------------------

  /** BoundingSphere(const AABB &), given the box's Centroid() and Radius():
      the largest of the three radius components becomes the radius. */
  function SphereOfAABB(centroid: Vec3, radius: Vec3): (s: BoundingSphere)
    ensures s.centroid == centroid
    ensures s.radius >= radius.x && s.radius >= radius.y && s.radius >= radius.z
    ensures s.radius == radius.x || s.radius == radius.y || s.radius == radius.z
  {
    BoundingSphere(centroid, Max(radius.x, Max(radius.y, radius.z)))
  }

  /** The corner of a box that takes max on the axes flagged true and min on
      the others (XMVectorPermute of MinPoint and MaxPoint). */
  function Corner(b: AABB, onMaxX: bool, onMaxY: bool, onMaxZ: bool): Vec3
  {
    Vec3(if onMaxX then b.max.x else b.min.x,
         if onMaxY then b.max.y else b.min.y,
         if onMaxZ then b.max.z else b.min.z)
  }

  /** BoundingSphere::Encloses(const AABB &) and EnclosesStrict: the sphere's
      point test (strict or not, passed in) applied to the corners in the
      source's order, stopping at the first failure. */
  function SphereEnclosesBox(b: AABB, enclosesPoint: Vec3 -> bool): (r: bool)
    ensures r <==> forall onMaxX: bool, onMaxY: bool, onMaxZ: bool ::
                     enclosesPoint(Corner(b, onMaxX, onMaxY, onMaxZ))
  {
    if !enclosesPoint(Corner(b, false, false, false)) then false
    else if !enclosesPoint(Corner(b, false, false, true)) then false
    else if !enclosesPoint(Corner(b, false, true, false)) then false
    else if !enclosesPoint(Corner(b, false, true, true)) then false
    else if !enclosesPoint(Corner(b, true, false, false)) then false
    else if !enclosesPoint(Corner(b, true, false, true)) then false
    else if !enclosesPoint(Corner(b, true, true, false)) then false
    else if !enclosesPoint(Corner(b, true, true, true)) then false
    else true
  }

  /** The k-th of the six points one radius away from the sphere's centre, in
      the order -x, +x, -y, +y, -z, +z. */
  function Extreme(s: BoundingSphere, k: nat): Vec3
    requires k < 6
  {
    var p, r := s.centroid, s.radius;
    match k
    case 0 => Vec3(p.x - r, p.y, p.z)
    case 1 => Vec3(p.x + r, p.y, p.z)
    case 2 => Vec3(p.x, p.y - r, p.z)
    case 3 => Vec3(p.x, p.y + r, p.z)
    case 4 => Vec3(p.x, p.y, p.z - r)
    case 5 => Vec3(p.x, p.y, p.z + r)
  }

  /** BoundingSphere::Encloses(const BoundingSphere &) and EnclosesStrict: the
      point test applied to the six points one radius away from the other
      sphere's centre along -x, +x, -y, +y, -z, +z. */
  function SphereEnclosesSphere(other: BoundingSphere, enclosesPoint: Vec3 -> bool): (b: bool)
    ensures b <==> forall k :: 0 <= k < 6 ==> enclosesPoint(Extreme(other, k))
  {
    var p := other.centroid;
    var r := other.radius;
    assert Extreme(other, 0) == Vec3(p.x - r, p.y, p.z);
    assert Extreme(other, 1) == Vec3(p.x + r, p.y, p.z);
    assert Extreme(other, 2) == Vec3(p.x, p.y - r, p.z);
    assert Extreme(other, 3) == Vec3(p.x, p.y + r, p.z);
    assert Extreme(other, 4) == Vec3(p.x, p.y, p.z - r);
    assert Extreme(other, 5) == Vec3(p.x, p.y, p.z + r);
    if !enclosesPoint(Vec3(p.x - r, p.y, p.z)) then false
    else if !enclosesPoint(Vec3(p.x + r, p.y, p.z)) then false
    else if !enclosesPoint(Vec3(p.x, p.y - r, p.z)) then false
    else if !enclosesPoint(Vec3(p.x, p.y + r, p.z)) then false
    else if !enclosesPoint(Vec3(p.x, p.y, p.z - r)) then false
    else if !enclosesPoint(Vec3(p.x, p.y, p.z + r)) then false
    else true
  }

  //---------------------------------------------------------------------------
  // Bounding frustum
  //---------------------------------------------------------------------------

  /** An XMMATRIX, row by row (row-vector convention: p' = p T). */
  datatype Matrix4 = Matrix4(r0: Vec4, r1: Vec4, r2: Vec4, r3: Vec4)

  function Transpose(m: Matrix4): Matrix4
  {
    Matrix4(Vec4(m.r0.x, m.r1.x, m.r2.x, m.r3.x),
            Vec4(m.r0.y, m.r1.y, m.r2.y, m.r3.y),
            Vec4(m.r0.z, m.r1.z, m.r2.z, m.r3.z),
            Vec4(m.r0.w, m.r1.w, m.r2.w, m.r3.w))
  }

  /** (x, y, z, 1) T: the homogeneous image of point p under transform T. */
  function TransformPoint(t: Matrix4, p: Vec3): Vec4
  {
    Add4(Add4(Scale4(p.x, t.r0), Scale4(p.y, t.r1)), Add4(Scale4(p.z, t.r2), t.r3))
  }

  /** XMPlaneDotCoord: n . p + d for the plane (n, d). */
  function DotCoord(plane: Vec4, p: Vec3): real
  {
    plane.x * p.x + plane.y * p.y + plane.z * p.z + plane.w
  }

  /** The six inward-facing planes, left, right, bottom, top, near, far, read
      off the rows of the transposed transform before normalisation. */
  function ExtractPlanes(transform: Matrix4): (planes: seq<Vec4>)
    ensures |planes| == 6
  {
    var c := Transpose(transform);
    [Add4(c.r3, c.r0), Sub4(c.r3, c.r0), Add4(c.r3, c.r1), Sub4(c.r3, c.r1), c.r2, Sub4(c.r3, c.r2)]
  }

  /** Each extracted plane measures one clip-space bound of the transformed
      point: w + x, w - x, w + y, w - y, z and w - z. */
  lemma ExtractedPlanesMeasureClipBounds(transform: Matrix4, p: Vec3)
    ensures var q := TransformPoint(transform, p);
            var planes := ExtractPlanes(transform);
            DotCoord(planes[0], p) == q.w + q.x && DotCoord(planes[1], p) == q.w - q.x &&
            DotCoord(planes[2], p) == q.w + q.y && DotCoord(planes[3], p) == q.w - q.y &&
            DotCoord(planes[4], p) == q.z && DotCoord(planes[5], p) == q.w - q.z
  {
  }

  /** XMPlaneNormalize, given the reciprocal length of the plane normal: the
      square root that produces it is not modelled. */
  function NormalizePlane(plane: Vec4, invLength: real): Vec4
  {
    Scale4(invLength, plane)
  }

  /** The planes a BoundingFrustum built from `transform` holds. */
  function FrustumPlanes(transform: Matrix4, invLength: Vec4 -> real): (planes: seq<Vec4>)
    ensures |planes| == 6
  {
    var raw := ExtractPlanes(transform);
    seq(6, i requires 0 <= i < 6 => NormalizePlane(raw[i], invLength(raw[i])))
  }

  /** The loop's continue condition: `value` is not below `bound` (strict:
      not at or below it). */
  predicate Passes(value: real, bound: real, strict: bool)
  {
    if strict then value > bound else value >= bound
  }

  predicate FrustumEnclosesPoint(planes: seq<Vec4>, p: Vec3, strict: bool)
  {
    forall i :: 0 <= i < |planes| ==> Passes(DotCoord(planes[i], p), 0.0, strict)
  }

  predicate FrustumEnclosesSphere(planes: seq<Vec4>, s: BoundingSphere, strict: bool)
  {
    forall i :: 0 <= i < |planes| ==> Passes(DotCoord(planes[i], s.centroid), s.radius, strict)
  }

  predicate FrustumOverlapsSphere(planes: seq<Vec4>, s: BoundingSphere, strict: bool)
  {
    forall i :: 0 <= i < |planes| ==> Passes(DotCoord(planes[i], s.centroid), -s.radius, strict)
  }

  /** `pointAlongNormal` is the box's MinPointAlongNormal (enclosing) or
      MaxPointAlongNormal (overlapping), whose bodies are not modelled. */
  predicate FrustumPassesBox(planes: seq<Vec4>, pointAlongNormal: Vec4 -> Vec3, strict: bool)
  {
    forall i :: 0 <= i < |planes| ==> Passes(DotCoord(planes[i], pointAlongNormal(planes[i])), 0.0, strict)
  }

  /** Positive scaling keeps a plane's verdict on every point. */
  lemma NormalizeKeepsSide(plane: Vec4, k: real, p: Vec3)
    requires k > 0.0
    ensures DotCoord(NormalizePlane(plane, k), p) >= 0.0 <==> DotCoord(plane, p) >= 0.0
    ensures DotCoord(NormalizePlane(plane, k), p) > 0.0 <==> DotCoord(plane, p) > 0.0
  {
    assert DotCoord(NormalizePlane(plane, k), p) == k * DotCoord(plane, p);
  }

  /** A point lies in the frustum of `transform` exactly when its image lies in
      the clip volume -w <= x <= w, -w <= y <= w, 0 <= z <= w, provided the
      normalisation scales every plane by a positive factor. */
  lemma {:induction false} FrustumEnclosesClipVolume(transform: Matrix4, invLength: Vec4 -> real, p: Vec3)
    requires forall i :: 0 <= i < 6 ==> invLength(ExtractPlanes(transform)[i]) > 0.0
    ensures var q := TransformPoint(transform, p);
            FrustumEnclosesPoint(FrustumPlanes(transform, invLength), p, false) <==>
            (-q.w <= q.x <= q.w && -q.w <= q.y <= q.w && 0.0 <= q.z <= q.w)
  {
    var raw := ExtractPlanes(transform);
    var planes := FrustumPlanes(transform, invLength);
    forall i | 0 <= i < 6
      ensures DotCoord(planes[i], p) >= 0.0 <==> DotCoord(raw[i], p) >= 0.0
    {
      NormalizeKeepsSide(raw[i], invLength(raw[i]), p);
    }
    ExtractedPlanesMeasureClipBounds(transform, p);
  }

  /** A point is a sphere of radius zero; enclosing implies overlapping for a
      sphere of non-negative radius; each strict test implies its plain one. */
  lemma FrustumTestsOrdered(planes: seq<Vec4>, s: BoundingSphere, strict: bool)
    ensures FrustumEnclosesSphere(planes, BoundingSphere(s.centroid, 0.0), strict)
            == FrustumEnclosesPoint(planes, s.centroid, strict)
    ensures s.radius >= 0.0 ==> (FrustumEnclosesSphere(planes, s, strict) ==> FrustumOverlapsSphere(planes, s, strict))
    ensures FrustumEnclosesSphere(planes, s, true) ==> FrustumEnclosesSphere(planes, s, false)
    ensures FrustumOverlapsSphere(planes, s, true) ==> FrustumOverlapsSphere(planes, s, false)
    ensures FrustumEnclosesPoint(planes, s.centroid, true) ==> FrustumEnclosesPoint(planes, s.centroid, false)
  {
  }

  /** A view frustum: six planes, normalised in place by the constructor. */
  class BoundingFrustum {
    const planes: array<Vec4>

    ghost predicate Valid()
      reads this
    {
      planes.Length == 6
    }

    /** BoundingFrustum(CXMMATRIX transform) */
    constructor (transform: Matrix4, invLength: Vec4 -> real)
      ensures Valid() && fresh(planes)
      ensures planes[..] == FrustumPlanes(transform, invLength)
    {
      var raw := ExtractPlanes(transform);
      planes := new Vec4[6](i requires 0 <= i < 6 => raw[i]);
      new;
      var i := 0;
      while i < planes.Length
        invariant 0 <= i <= planes.Length == 6
        invariant forall k :: 0 <= k < i ==> planes[k] == NormalizePlane(raw[k], invLength(raw[k]))
        invariant forall k :: i <= k < 6 ==> planes[k] == raw[k]
      {
        planes[i] := NormalizePlane(planes[i], invLength(planes[i]));
        i := i + 1;
      }
    }

    /** The loop every test shares: walk the planes in order and stop at the
        first one whose value does not pass. */
    method AllPlanesPass(value: Vec4 -> real, bound: real, strict: bool) returns (r: bool)
      requires Valid()
      ensures r <==> forall i :: 0 <= i < planes.Length ==> Passes(value(planes[i]), bound, strict)
    {
      var i := 0;
      while i < planes.Length
        invariant 0 <= i <= planes.Length
        invariant forall k :: 0 <= k < i ==> Passes(value(planes[k]), bound, strict)
      {
        if !Passes(value(planes[i]), bound, strict) {
          return false;
        }
        i := i + 1;
      }
      return true;
    }

    /** Encloses(FXMVECTOR point) (strict = false) and EnclosesStrict. */
    method EnclosesPoint(p: Vec3, strict: bool) returns (r: bool)
      requires Valid()
      ensures r == FrustumEnclosesPoint(planes[..], p, strict)
    {
      r := AllPlanesPass(plane => DotCoord(plane, p), 0.0, strict);
    }

    /** Encloses(const BoundingSphere &) and EnclosesStrict. */
    method EnclosesSphere(s: BoundingSphere, strict: bool) returns (r: bool)
      requires Valid()
      ensures r == FrustumEnclosesSphere(planes[..], s, strict)
    {
      r := AllPlanesPass(plane => DotCoord(plane, s.centroid), s.radius, strict);
    }

    /** Overlaps(const BoundingSphere &) and OverlapsStrict. */
    method OverlapsSphere(s: BoundingSphere, strict: bool) returns (r: bool)
      requires Valid()
      ensures r == FrustumOverlapsSphere(planes[..], s, strict)
    {
      r := AllPlanesPass(plane => DotCoord(plane, s.centroid), -s.radius, strict);
    }

    /** Encloses(const AABB &) and EnclosesStrict, given the box's
        MinPointAlongNormal; Overlaps(const AABB &) and OverlapsStrict, given
        its MaxPointAlongNormal. */
    method PassesBox(pointAlongNormal: Vec4 -> Vec3, strict: bool) returns (r: bool)
      requires Valid()
      ensures r == FrustumPassesBox(planes[..], pointAlongNormal, strict)
    {
      r := AllPlanesPass(plane => DotCoord(plane, pointAlongNormal(plane)), 0.0, strict);
    }

    /** operator==, as written: it leaves the loop early on the first
        differing plane and also returns false after the loop. */
    method EqualsAsWritten(other: BoundingFrustum) returns (r: bool)
      requires Valid() && other.Valid()
      ensures !r
    {
      var i := 0;
      while i < planes.Length
        invariant 0 <= i <= planes.Length
      {
        if planes[i] != other.planes[i] {
          return false;
        }
        i := i + 1;
      }
      return false;
    }

    /** The evidently intended operator==: true exactly when all six planes
        agree, so every frustum equals itself. */
    method Equals(other: BoundingFrustum) returns (r: bool)
      requires Valid() && other.Valid()
      ensures r <==> planes[..] == other.planes[..]
      ensures other == this ==> r
    {
      var i := 0;
      while i < planes.Length
        invariant 0 <= i <= planes.Length
        invariant forall k :: 0 <= k < i ==> planes[k] == other.planes[k]
      {
        if planes[i] != other.planes[i] {
          return false;
        }
        i := i + 1;
      }
      assert planes[..] == other.planes[..];
      return true;
    }
  }
}
