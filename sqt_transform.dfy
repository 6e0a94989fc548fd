/**
 * The scale-rotation-translation transforms of the math library: a
 * translation, a rotation kept as a unit quaternion, and a scale that is
 * uniform (S1QTTransform) or per axis (SQTTransform). They hold no cached
 * matrices: every matrix getter builds its matrix from the components.
 */
module SqtTransform {
  import opened Common
  import opened Matrices

  /** The default rotation lanes of both constructors, in DirectXMath's
      (x, y, z, w) lane order. */
  const DEFAULT_ROTATION: Vec4 := Vec4(1.0, 0.0, 0.0, 0.0)

  /** GetAffineTransformationMatrix: scale, then rotation, then
      translation. */
  function AffineOf(t: Vec3, q: Quaternion, s: Vec3): Matrix
  {
    [Scaling(s), RotationQuaternion(q), Translation(t)]
  }

  /** GetInverseAffineTransformationMatrix: inverse translation, then inverse
      rotation, then inverse scale. */
  function InverseAffineOf(t: Vec3, q: Quaternion, s: Vec3): Matrix
  {
    [Translation(Negate(t)), InverseRotationQuaternion(q), InverseScaling(s)]
  }

  /** The two affine matrices are inverse of each other, and the affine
      matrix takes the object origin to the translation. */
  lemma AffineMatricesAgree(t: Vec3, q: Quaternion, s: Vec3)
    ensures AllInvertible(AffineOf(t, q, s)) && AllInvertible(InverseAffineOf(t, q, s))
    ensures InverseAffineOf(t, q, s) == Inverse(AffineOf(t, q, s))
    ensures AffineOf(t, q, s) == Inverse(InverseAffineOf(t, q, s))
    ensures ImageOfOrigin(AffineOf(t, q, s)) == Some(t)
  {
    var a, b, c := Scaling(s), RotationQuaternion(q), Translation(t);
    InverseOfOne(a);
    InverseOfOne(b);
    InverseOfOne(c);
    InverseOfProduct([a], [b]);
    assert [a] + [b] == [a, b];
    InverseOfProduct([a, b], [c]);
    assert [a, b] + [c] == AffineOf(t, q, s);
    InverseInvolution(AffineOf(t, q, s));
    OriginAfterLinear([a, b], t);
  }

  /** S1QTTransform3D: a uniform scale. */
  class S1QTTransform {
    var translation: Vec3
    var rotation: Quaternion
    var scale: real

    /** S1QTTransform3D(translation, rotation, scale), both overloads; the
        rotation is stored normalised. */
    constructor (t: Vec3, r: Vec4, s: real)
      ensures translation == t && rotation == Normalize(Raw(r)) && scale == s
    {
      translation := t;
      scale := s;
      rotation := Normalize(Raw(r));
    }

    /** The constructor with every argument defaulted. */
    constructor Default()
      ensures translation == Vec3(0.0, 0.0, 0.0)
      ensures rotation == UnitOf(DEFAULT_ROTATION) && scale == 1.0
    {
      translation := Vec3(0.0, 0.0, 0.0);
      scale := 1.0;
      rotation := Normalize(Raw(DEFAULT_ROTATION));
    }

    /** The defaulted copy constructor. */
    constructor Copy(other: S1QTTransform)
      ensures translation == other.translation && rotation == other.rotation && scale == other.scale
    {
      translation, rotation, scale := other.translation, other.rotation, other.scale;
    }

    /** The defaulted copy and move assignments. */
    method Assign(other: S1QTTransform)
      modifies this
      ensures translation == old(other.translation) && rotation == old(other.rotation)
      ensures scale == old(other.scale)
    {
      translation, rotation, scale := other.translation, other.rotation, other.scale;
    }

    method SetTranslationX(x: real)
      modifies this
      ensures translation == Vec3(x, old(translation).y, old(translation).z)
      ensures rotation == old(rotation) && scale == old(scale)
    {
      translation := translation.(x := x);
    }

    method SetTranslationY(y: real)
      modifies this
      ensures translation == Vec3(old(translation).x, y, old(translation).z)
      ensures rotation == old(rotation) && scale == old(scale)
    {
      translation := translation.(y := y);
    }

    method SetTranslationZ(z: real)
      modifies this
      ensures translation == Vec3(old(translation).x, old(translation).y, z)
      ensures rotation == old(rotation) && scale == old(scale)
    {
      translation := translation.(z := z);
    }

    /** SetTranslation(x, y, z) and its vector overloads. */
    method SetTranslation(t: Vec3)
      modifies this
      ensures translation == t && rotation == old(rotation) && scale == old(scale)
    {
      translation := t;
    }

    method AddTranslationX(x: real)
      modifies this
      ensures translation == Vec3(old(translation).x + x, old(translation).y, old(translation).z)
      ensures rotation == old(rotation) && scale == old(scale)
    {
      SetTranslationX(GetTranslation().x + x);
    }

    method AddTranslationY(y: real)
      modifies this
      ensures translation == Vec3(old(translation).x, old(translation).y + y, old(translation).z)
      ensures rotation == old(rotation) && scale == old(scale)
    {
      SetTranslationY(GetTranslation().y + y);
    }

    method AddTranslationZ(z: real)
      modifies this
      ensures translation == Vec3(old(translation).x, old(translation).y, old(translation).z + z)
      ensures rotation == old(rotation) && scale == old(scale)
    {
      SetTranslationZ(GetTranslation().z + z);
    }

    /** AddTranslation(x, y, z) and its vector overloads: SetTranslation of
        the sum. */
    method AddTranslation(t: Vec3)
      modifies this
      ensures translation == Add(old(translation), t)
      ensures rotation == old(rotation) && scale == old(scale)
    {
      SetTranslation(Add(GetTranslation(), t));
    }

    function GetTranslation(): Vec3
      reads this
    {
      translation
    }

    /** Both rotation setters store the normalised quaternion. */
    method SetRotation(r: Vec4)
      modifies this
      ensures rotation == Normalize(Raw(r)) && rotation.UnitOf?
      ensures translation == old(translation) && scale == old(scale)
    {
      rotation := Normalize(Raw(r));
    }

    /** The rotation about a direction by an angle; XMQuaternionRotationNormal
        is the parameter rotationNormal. */
    method SetRotationAroundDirection(direction: Vec3, angle: real, rotationNormal: (Vec3, real) -> Vec4)
      modifies this
      ensures rotation == Normalize(Raw(rotationNormal(direction, angle)))
      ensures translation == old(translation) && scale == old(scale)
    {
      SetRotation(rotationNormal(direction, angle));
    }

    function GetRotation(): Quaternion
      reads this
    {
      rotation
    }

    method SetScale(s: real)
      modifies this
      ensures scale == s && translation == old(translation) && rotation == old(rotation)
    {
      scale := s;
    }

    /** SetScale of the sum. */
    method AddScale(s: real)
      modifies this
      ensures scale == old(scale) + s
      ensures translation == old(translation) && rotation == old(rotation)
    {
      SetScale(GetScale() + s);
    }

    function GetScale(): real
      reads this
    {
      scale
    }

    function GetObjectToParentTranslationMatrix(): (m: Matrix)
      reads this
      ensures ImageOfOrigin(m) == Some(translation)
    {
      OriginAfterLinear([], translation);
      assert [] + [Translation(translation)] == [Translation(translation)];
      [Translation(translation)]
    }

    function GetParentToObjectTranslationMatrix(): (m: Matrix)
      reads this
      ensures AllInvertible(GetObjectToParentTranslationMatrix())
      ensures m == Inverse(GetObjectToParentTranslationMatrix())
    {
      InverseOfOne(Translation(translation));
      [Translation(Negate(translation))]
    }

    function GetObjectToParentRotationMatrix(): (m: Matrix)
      reads this
      ensures ImageOfOrigin(m) == Some(Vec3(0.0, 0.0, 0.0))
    {
      LinearKeepsOrigin([RotationQuaternion(rotation)]);
      [RotationQuaternion(rotation)]
    }

    /** The rotation by the inverse quaternion. */
    function GetParentToObjectRotationMatrix(): (m: Matrix)
      reads this
      ensures AllInvertible(GetObjectToParentRotationMatrix())
      ensures m == Inverse(GetObjectToParentRotationMatrix())
    {
      InverseOfOne(RotationQuaternion(rotation));
      [InverseRotationQuaternion(rotation)]
    }

    function GetObjectToParentScaleMatrix(): (m: Matrix)
      reads this
      ensures ImageOfOrigin(m) == Some(Vec3(0.0, 0.0, 0.0))
    {
      LinearKeepsOrigin([Scaling(Splat(scale))]);
      [Scaling(Splat(scale))]
    }

    function GetParentToObjectScaleMatrix(): (m: Matrix)
      reads this
      ensures AllInvertible(GetObjectToParentScaleMatrix())
      ensures m == Inverse(GetObjectToParentScaleMatrix())
    {
      InverseOfOne(Scaling(Splat(scale)));
      [InverseScaling(Splat(scale))]
    }

    /** The object-space origin, a constant whatever the state: the
        homogeneous point at zero. */
    function GetObjectOrigin(): (o: Vec4)
      ensures o.w == 1.0 && o.x == 0.0 && o.y == 0.0 && o.z == 0.0
    {
      Vec4(0.0, 0.0, 0.0, 1.0)
    }

    /** The object-space axes: unit directions (w = 0) along +x, +y and +z. */
    function GetObjectAxisX(): (a: Vec4)
      ensures a.w == 0.0 && a.x * a.x + a.y * a.y + a.z * a.z == 1.0 && a.x > 0.0
    {
      Vec4(1.0, 0.0, 0.0, 0.0)
    }

    function GetObjectAxisY(): (a: Vec4)
      ensures a.w == 0.0 && a.x * a.x + a.y * a.y + a.z * a.z == 1.0 && a.y > 0.0
    {
      Vec4(0.0, 1.0, 0.0, 0.0)
    }

    function GetObjectAxisZ(): (a: Vec4)
      ensures a.w == 0.0 && a.x * a.x + a.y * a.y + a.z * a.z == 1.0 && a.z > 0.0
    {
      Vec4(0.0, 0.0, 1.0, 0.0)
    }

    /** Scale, then rotation, then translation: the product of the three
        component matrices. */
    function GetObjectToParentMatrix(): (m: Matrix)
      reads this
      ensures m == GetObjectToParentScaleMatrix() + GetObjectToParentRotationMatrix()
                   + GetObjectToParentTranslationMatrix()
      ensures AllInvertible(m) && ImageOfOrigin(m) == Some(translation)
    {
      AffineMatricesAgree(translation, rotation, Splat(scale));
      AffineOf(translation, rotation, Splat(scale))
    }

    /** The inverse of the object-to-parent matrix. */
    function GetParentToObjectMatrix(): (m: Matrix)
      reads this
      ensures m == GetParentToObjectTranslationMatrix() + GetParentToObjectRotationMatrix()
                   + GetParentToObjectScaleMatrix()
      ensures m == Inverse(GetObjectToParentMatrix())
      ensures GetObjectToParentMatrix() == Inverse(m)
    {
      AffineMatricesAgree(translation, rotation, Splat(scale));
      InverseAffineOf(translation, rotation, Splat(scale))
    }

    /** The fourth row of the object-to-parent matrix: where it takes the
        object origin, which is the translation. */
    function GetParentOrigin(): (o: Vec3)
      reads this
      ensures Some(o) == ImageOfOrigin(GetObjectToParentMatrix())
      ensures o == translation
    {
      translation
    }
  }

  /** SQTTransform3D: a scale per axis. */
  class SQTTransform {
    var translation: Vec3
    var rotation: Quaternion
    var scale: Vec3

    /** SQTTransform3D(translation, rotation, scale), both overloads; the
        rotation is stored normalised. */
    constructor (t: Vec3, r: Vec4, s: Vec3)
      ensures translation == t && rotation == Normalize(Raw(r)) && scale == s
    {
      translation := t;
      scale := s;
      rotation := Normalize(Raw(r));
    }

    /** The constructor with every argument defaulted: unit scale on each
        axis. */
    constructor Default()
      ensures translation == Vec3(0.0, 0.0, 0.0)
      ensures rotation == UnitOf(DEFAULT_ROTATION) && scale == Vec3(1.0, 1.0, 1.0)
    {
      translation := Vec3(0.0, 0.0, 0.0);
      scale := Vec3(1.0, 1.0, 1.0);
      rotation := Normalize(Raw(DEFAULT_ROTATION));
    }

    /** SQTTransform3D(const S1QTTransform3D&): the translation and rotation
        carry over (normalising the stored unit quaternion again changes
        nothing) and the uniform scale is replicated on the three axes. */
    constructor FromS1QT(other: S1QTTransform)
      requires other.rotation.UnitOf?
      ensures translation == other.translation && rotation == other.rotation
      ensures scale == Splat(other.scale)
    {
      translation := other.translation;
      scale := Splat(other.scale);
      rotation := Normalize(Raw(other.rotation.lanes));
    }

    /** The defaulted copy constructor. */
    constructor Copy(other: SQTTransform)
      ensures translation == other.translation && rotation == other.rotation && scale == other.scale
    {
      translation, rotation, scale := other.translation, other.rotation, other.scale;
    }

    /** The defaulted copy and move assignments. */
    method Assign(other: SQTTransform)
      modifies this
      ensures translation == old(other.translation) && rotation == old(other.rotation)
      ensures scale == old(other.scale)
    {
      translation, rotation, scale := other.translation, other.rotation, other.scale;
    }

    method SetTranslationX(x: real)
      modifies this
      ensures translation == Vec3(x, old(translation).y, old(translation).z)
      ensures rotation == old(rotation) && scale == old(scale)
    {
      translation := translation.(x := x);
    }

    method SetTranslationY(y: real)
      modifies this
      ensures translation == Vec3(old(translation).x, y, old(translation).z)
      ensures rotation == old(rotation) && scale == old(scale)
    {
      translation := translation.(y := y);
    }

    method SetTranslationZ(z: real)
      modifies this
      ensures translation == Vec3(old(translation).x, old(translation).y, z)
      ensures rotation == old(rotation) && scale == old(scale)
    {
      translation := translation.(z := z);
    }

    /** SetTranslation(x, y, z) and its vector overloads. */
    method SetTranslation(t: Vec3)
      modifies this
      ensures translation == t && rotation == old(rotation) && scale == old(scale)
    {
      translation := t;
    }

    method AddTranslationX(x: real)
      modifies this
      ensures translation == Vec3(old(translation).x + x, old(translation).y, old(translation).z)
      ensures rotation == old(rotation) && scale == old(scale)
    {
      SetTranslationX(GetTranslation().x + x);
    }

    method AddTranslationY(y: real)
      modifies this
      ensures translation == Vec3(old(translation).x, old(translation).y + y, old(translation).z)
      ensures rotation == old(rotation) && scale == old(scale)
    {
      SetTranslationY(GetTranslation().y + y);
    }

    method AddTranslationZ(z: real)
      modifies this
      ensures translation == Vec3(old(translation).x, old(translation).y, old(translation).z + z)
      ensures rotation == old(rotation) && scale == old(scale)
    {
      SetTranslationZ(GetTranslation().z + z);
    }

    /** AddTranslation(x, y, z) and its vector overloads: SetTranslation of
        the sum. */
    method AddTranslation(t: Vec3)
      modifies this
      ensures translation == Add(old(translation), t)
      ensures rotation == old(rotation) && scale == old(scale)
    {
      SetTranslation(Add(GetTranslation(), t));
    }

    function GetTranslation(): Vec3
      reads this
    {
      translation
    }

    /** Both rotation setters store the normalised quaternion. */
    method SetRotation(r: Vec4)
      modifies this
      ensures rotation == Normalize(Raw(r)) && rotation.UnitOf?
      ensures translation == old(translation) && scale == old(scale)
    {
      rotation := Normalize(Raw(r));
    }

    /** The rotation about a direction by an angle; XMQuaternionRotationNormal
        is the parameter rotationNormal. */
    method SetRotationAroundDirection(direction: Vec3, angle: real, rotationNormal: (Vec3, real) -> Vec4)
      modifies this
      ensures rotation == Normalize(Raw(rotationNormal(direction, angle)))
      ensures translation == old(translation) && scale == old(scale)
    {
      SetRotation(rotationNormal(direction, angle));
    }

    function GetRotation(): Quaternion
      reads this
    {
      rotation
    }

    method SetScaleX(x: real)
      modifies this
      ensures scale == Vec3(x, old(scale).y, old(scale).z)
      ensures translation == old(translation) && rotation == old(rotation)
    {
      scale := scale.(x := x);
    }

    method SetScaleY(y: real)
      modifies this
      ensures scale == Vec3(old(scale).x, y, old(scale).z)
      ensures translation == old(translation) && rotation == old(rotation)
    {
      scale := scale.(y := y);
    }

    method SetScaleZ(z: real)
      modifies this
      ensures scale == Vec3(old(scale).x, old(scale).y, z)
      ensures translation == old(translation) && rotation == old(rotation)
    {
      scale := scale.(z := z);
    }

    /** SetScale(x, y, z) and its vector overloads. */
    method SetScale(s: Vec3)
      modifies this
      ensures scale == s && translation == old(translation) && rotation == old(rotation)
    {
      scale := s;
    }

    /** SetScale(s): the same factor on every axis. */
    method SetUniformScale(s: real)
      modifies this
      ensures scale == Vec3(s, s, s)
      ensures translation == old(translation) && rotation == old(rotation)
    {
      SetScale(Vec3(s, s, s));
    }

    method AddScaleX(x: real)
      modifies this
      ensures scale == Vec3(old(scale).x + x, old(scale).y, old(scale).z)
      ensures translation == old(translation) && rotation == old(rotation)
    {
      SetScaleX(GetScale().x + x);
    }

    method AddScaleY(y: real)
      modifies this
      ensures scale == Vec3(old(scale).x, old(scale).y + y, old(scale).z)
      ensures translation == old(translation) && rotation == old(rotation)
    {
      SetScaleY(GetScale().y + y);
    }

    method AddScaleZ(z: real)
      modifies this
      ensures scale == Vec3(old(scale).x, old(scale).y, old(scale).z + z)
      ensures translation == old(translation) && rotation == old(rotation)
    {
      SetScaleZ(GetScale().z + z);
    }

    /** AddScale(x, y, z) and its vector overloads: SetScale of the sum. */
    method AddScale(s: Vec3)
      modifies this
      ensures scale == Add(old(scale), s)
      ensures translation == old(translation) && rotation == old(rotation)
    {
      SetScale(Add(GetScale(), s));
    }

    /** AddScale(s): the same amount added on every axis. */
    method AddUniformScale(s: real)
      modifies this
      ensures scale == Vec3(old(scale).x + s, old(scale).y + s, old(scale).z + s)
      ensures translation == old(translation) && rotation == old(rotation)
    {
      AddScale(Vec3(s, s, s));
    }

    function GetScale(): Vec3
      reads this
    {
      scale
    }

    function GetObjectToParentTranslationMatrix(): (m: Matrix)
      reads this
      ensures ImageOfOrigin(m) == Some(translation)
    {
      OriginAfterLinear([], translation);
      assert [] + [Translation(translation)] == [Translation(translation)];
      [Translation(translation)]
    }

    function GetParentToObjectTranslationMatrix(): (m: Matrix)
      reads this
      ensures AllInvertible(GetObjectToParentTranslationMatrix())
      ensures m == Inverse(GetObjectToParentTranslationMatrix())
    {
      InverseOfOne(Translation(translation));
      [Translation(Negate(translation))]
    }

    function GetObjectToParentRotationMatrix(): (m: Matrix)
      reads this
      ensures ImageOfOrigin(m) == Some(Vec3(0.0, 0.0, 0.0))
    {
      LinearKeepsOrigin([RotationQuaternion(rotation)]);
      [RotationQuaternion(rotation)]
    }

    /** The rotation by the inverse quaternion. */
    function GetParentToObjectRotationMatrix(): (m: Matrix)
      reads this
      ensures AllInvertible(GetObjectToParentRotationMatrix())
      ensures m == Inverse(GetObjectToParentRotationMatrix())
    {
      InverseOfOne(RotationQuaternion(rotation));
      [InverseRotationQuaternion(rotation)]
    }

    function GetObjectToParentScaleMatrix(): (m: Matrix)
      reads this
      ensures ImageOfOrigin(m) == Some(Vec3(0.0, 0.0, 0.0))
    {
      LinearKeepsOrigin([Scaling(scale)]);
      [Scaling(scale)]
    }

    function GetParentToObjectScaleMatrix(): (m: Matrix)
      reads this
      ensures AllInvertible(GetObjectToParentScaleMatrix())
      ensures m == Inverse(GetObjectToParentScaleMatrix())
    {
      InverseOfOne(Scaling(scale));
      [InverseScaling(scale)]
    }

    /** The object-space origin, a constant whatever the state: the
        homogeneous point at zero. */
    function GetObjectOrigin(): (o: Vec4)
      ensures o.w == 1.0 && o.x == 0.0 && o.y == 0.0 && o.z == 0.0
    {
      Vec4(0.0, 0.0, 0.0, 1.0)
    }

    /** The object-space axes: unit directions (w = 0) along +x, +y and +z. */
    function GetObjectAxisX(): (a: Vec4)
      ensures a.w == 0.0 && a.x * a.x + a.y * a.y + a.z * a.z == 1.0 && a.x > 0.0
    {
      Vec4(1.0, 0.0, 0.0, 0.0)
    }

    function GetObjectAxisY(): (a: Vec4)
      ensures a.w == 0.0 && a.x * a.x + a.y * a.y + a.z * a.z == 1.0 && a.y > 0.0
    {
      Vec4(0.0, 1.0, 0.0, 0.0)
    }

    function GetObjectAxisZ(): (a: Vec4)
      ensures a.w == 0.0 && a.x * a.x + a.y * a.y + a.z * a.z == 1.0 && a.z > 0.0
    {
      Vec4(0.0, 0.0, 1.0, 0.0)
    }

    /** Scale, then rotation, then translation: the product of the three
        component matrices. */
    function GetObjectToParentMatrix(): (m: Matrix)
      reads this
      ensures m == GetObjectToParentScaleMatrix() + GetObjectToParentRotationMatrix()
                   + GetObjectToParentTranslationMatrix()
      ensures AllInvertible(m) && ImageOfOrigin(m) == Some(translation)
    {
      AffineMatricesAgree(translation, rotation, scale);
      AffineOf(translation, rotation, scale)
    }

    /** The inverse of the object-to-parent matrix. */
    function GetParentToObjectMatrix(): (m: Matrix)
      reads this
      ensures m == GetParentToObjectTranslationMatrix() + GetParentToObjectRotationMatrix()
                   + GetParentToObjectScaleMatrix()
      ensures m == Inverse(GetObjectToParentMatrix())
      ensures GetObjectToParentMatrix() == Inverse(m)
    {
      AffineMatricesAgree(translation, rotation, scale);
      InverseAffineOf(translation, rotation, scale)
    }

    /** The fourth row of the object-to-parent matrix: where it takes the
        object origin, which is the translation. */
    function GetParentOrigin(): (o: Vec3)
      reads this
      ensures Some(o) == ImageOfOrigin(GetObjectToParentMatrix())
      ensures o == translation
    {
      translation
    }
  }

  /** Widening a uniform-scale transform gives the per-axis transform with
      the same matrices. */
  method Widen(t: S1QTTransform) returns (w: SQTTransform)
    requires t.rotation.UnitOf?
    ensures fresh(w)
    ensures w.GetObjectToParentMatrix() == t.GetObjectToParentMatrix()
    ensures w.GetParentToObjectMatrix() == t.GetParentToObjectMatrix()
  {
    w := new SQTTransform.FromS1QT(t);
  }
}
