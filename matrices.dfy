/**
 * Matrices and quaternions as the engine builds them. Their arithmetic
 * (DirectXMath's XMMatrix* and XMQuaternion* routines) is not modelled: a
 * matrix is the sequence of elementary factors it was multiplied from, in
 * the order they apply (row-vector convention, as DirectXMath). A product is
 * the concatenation of its operands' factors, which makes it associative, and
 * two matrices are equal when they were built from the same factors in the
 * same order.
 */
module Matrices {
  import opened Common

  /** A rotation quaternion: the four lanes as given, or the result of
      XMQuaternionNormalize on given lanes. */
  datatype Quaternion = Raw(lanes: Vec4) | UnitOf(lanes: Vec4)

  /** XMQuaternionNormalize. Normalising a unit quaternion leaves it as it is. */
  function Normalize(q: Quaternion): (r: Quaternion)
    ensures r.UnitOf?
    ensures q.UnitOf? ==> r == q
  {
    match q
    case Raw(v) => UnitOf(v)
    case UnitOf(_) => q
  }

  datatype Factor =
    | Translation(offset: Vec3)
    | Scaling(factors: Vec3)
    /** Scaling by the reciprocals of the factors. */
    | InverseScaling(factors: Vec3)
    | RotationX(angle: real)
    | RotationY(angle: real)
    | RotationZ(angle: real)
    | RotationQuaternion(q: Quaternion)
    /** XMMatrixRotationQuaternion(XMQuaternionInverse(q)). */
    | InverseRotationQuaternion(q: Quaternion)
    /** The object-to-world matrix of the parent of a scene node (the
        identity for a root), which the scene graph keeps up to date. */
    | ParentToWorld(node: nat)
    /** Its inverse. */
    | WorldToParent(node: nat)
    /** XMMatrixTranspose of a matrix. */
    | Transposed(m: seq<Factor>)
    /** A matrix the model does not look into, named by what it stands for. */
    | Given(name: string)

  /** An XMMATRIX; the empty product is the identity. */
  type Matrix = seq<Factor>

  function Negate(v: Vec3): Vec3 { Vec3(-v.x, -v.y, -v.z) }

  /** The factors whose inverse the engine builds directly. */
  predicate Invertible(f: Factor)
  {
    !f.Transposed? && !f.Given?
  }

  function InverseFactor(f: Factor): (g: Factor)
    requires Invertible(f)
    ensures Invertible(g)
  {
    match f
    case Translation(t) => Translation(Negate(t))
    case Scaling(s) => InverseScaling(s)
    case InverseScaling(s) => Scaling(s)
    case RotationX(a) => RotationX(-a)
    case RotationY(a) => RotationY(-a)
    case RotationZ(a) => RotationZ(-a)
    case RotationQuaternion(q) => InverseRotationQuaternion(q)
    case InverseRotationQuaternion(q) => RotationQuaternion(q)
    case ParentToWorld(n) => WorldToParent(n)
    case WorldToParent(n) => ParentToWorld(n)
  }

  /** Inverting a factor twice gives it back. */
  lemma FactorInvolution(f: Factor)
    requires Invertible(f)
    ensures InverseFactor(InverseFactor(f)) == f
  {
    if f.Translation? {
      assert Negate(Negate(f.offset)) == f.offset;
    }
  }

  predicate AllInvertible(m: Matrix)
  {
    forall k :: 0 <= k < |m| ==> Invertible(m[k])
  }

  /** The inverse of a product of invertible factors: the factors in reverse
      order, each inverted. */
  function Inverse(m: Matrix): (r: Matrix)
    requires AllInvertible(m)
    ensures |r| == |m| && AllInvertible(r)
  {
    if |m| == 0 then [] else Inverse(m[1..]) + [InverseFactor(m[0])]
  }

  /** The inverse of a single factor. */
  lemma InverseOfOne(f: Factor)
    requires Invertible(f)
    ensures Inverse([f]) == [InverseFactor(f)]
  {
    assert [f][1..] == [];
  }

  /** The inverse of a product is the product of the inverses, in reverse
      order. */
  lemma {:induction false} InverseOfProduct(a: Matrix, b: Matrix)
    requires AllInvertible(a) && AllInvertible(b)
    ensures AllInvertible(a + b)
    ensures Inverse(a + b) == Inverse(b) + Inverse(a)
    decreases |a|
  {
    if |a| == 0 {
      assert a + b == b;
    } else {
      assert (a + b)[1..] == a[1..] + b;
      InverseOfProduct(a[1..], b);
    }
  }

  /** Inverting twice gives the matrix back, so being inverse is symmetric. */
  lemma {:induction false} InverseInvolution(m: Matrix)
    requires AllInvertible(m)
    ensures Inverse(Inverse(m)) == m
    decreases |m|
  {
    if |m| > 0 {
      var f := InverseFactor(m[0]);
      InverseOfProduct(Inverse(m[1..]), [f]);
      InverseInvolution(m[1..]);
      InverseOfOne(f);
      FactorInvolution(m[0]);
      assert m == [m[0]] + m[1..];
    }
  }

  /** Where the matrix takes the origin (its fourth row) when the model can
      tell: linear factors keep the origin where it is and a translation
      moves it by its offset. */
  function ImageOfOrigin(m: Matrix): Option<Vec3>
  {
    OriginAfter(Vec3(0.0, 0.0, 0.0), m)
  }

  /** The factors that fix the origin: scalings and rotations. The parent
      matrices of the scene graph move it, so they are not among them. */
  predicate Linear(f: Factor)
  {
    f.Scaling? || f.InverseScaling? || f.RotationX? || f.RotationY? || f.RotationZ?
    || f.RotationQuaternion? || f.InverseRotationQuaternion?
  }

  /** Where the factors take the point p, when p is the origin or only
      translations follow. */
  function OriginAfter(p: Vec3, m: Matrix): Option<Vec3>
    decreases |m|
  {
    if |m| == 0 then Some(p)
    else if m[0].Translation? then OriginAfter(Add(p, m[0].offset), m[1..])
    else if p == Vec3(0.0, 0.0, 0.0) && Linear(m[0]) then OriginAfter(p, m[1..])
    else None
  }

  /** Linear factors before a translation leave the origin where the
      translation puts it. */
  lemma {:induction false} OriginAfterLinear(lin: Matrix, t: Vec3)
    requires forall k :: 0 <= k < |lin| ==> Linear(lin[k])
    ensures ImageOfOrigin(lin + [Translation(t)]) == Some(t)
    decreases |lin|
  {
    if |lin| == 0 {
      assert lin + [Translation(t)] == [Translation(t)];
      assert [Translation(t)][1..] == [];
      assert Add(Vec3(0.0, 0.0, 0.0), t) == t;
      assert OriginAfter(Vec3(0.0, 0.0, 0.0), [Translation(t)]) == OriginAfter(t, []);
    } else {
      var m := lin + [Translation(t)];
      assert m[0] == lin[0] && m[1..] == lin[1..] + [Translation(t)];
      assert Linear(lin[0]);
      OriginAfterLinear(lin[1..], t);
      assert OriginAfter(Vec3(0.0, 0.0, 0.0), m) == OriginAfter(Vec3(0.0, 0.0, 0.0), m[1..]);
    }
  }

  /** Linear factors keep the origin where it is. */
  lemma {:induction false} LinearKeepsOrigin(lin: Matrix)
    requires forall k :: 0 <= k < |lin| ==> Linear(lin[k])
    ensures ImageOfOrigin(lin) == Some(Vec3(0.0, 0.0, 0.0))
    decreases |lin|
  {
    if |lin| > 0 {
      assert Linear(lin[0]);
      LinearKeepsOrigin(lin[1..]);
    }
  }
}
