/**
 * The Euler-angle transform of the math library: a translation, a rotation
 * given as three angles (radians) and a per-axis scale, with the
 * object-to-parent and parent-to-object matrices cached behind two dirty
 * flags. Every mutator dirties both caches; each matrix getter refreshes only
 * its own cache, and only when it is dirty.
 */
module MathTransform {
  import opened Common
  import opened Matrices

  /** The rotation matrix of the angles: about z, then x, then y. */
  function RotationOf(r: Vec3): Matrix
  {
    [RotationZ(r.z), RotationX(r.x), RotationY(r.y)]
  }

  /** The inverse rotation: about -y, then -x, then -z. */
  function InverseRotationOf(r: Vec3): Matrix
  {
    [RotationY(-r.y), RotationX(-r.x), RotationZ(-r.z)]
  }

  /** Scale, then rotation, then translation. */
  function ObjectToParentOf(t: Vec3, r: Vec3, s: Vec3): Matrix
  {
    [Scaling(s)] + RotationOf(r) + [Translation(t)]
  }

  /** Inverse translation, then inverse rotation, then inverse scale. */
  function ParentToObjectOf(t: Vec3, r: Vec3, s: Vec3): Matrix
  {
    [Translation(Negate(t))] + InverseRotationOf(r) + [InverseScaling(s)]
  }

  /** The inverse rotation matrix is the inverse of the rotation matrix. */
  lemma RotationInverse(r: Vec3)
    ensures AllInvertible(RotationOf(r))
    ensures InverseRotationOf(r) == Inverse(RotationOf(r))
  {
    var z, x, y := RotationZ(r.z), RotationX(r.x), RotationY(r.y);
    InverseOfOne(z);
    InverseOfOne(x);
    InverseOfOne(y);
    InverseOfProduct([x], [y]);
    assert [x] + [y] == [x, y];
    InverseOfProduct([z], [x, y]);
    assert [z] + [x, y] == RotationOf(r);
  }

  /** The two cached matrices are inverse of each other, and the
      object-to-parent matrix takes the object origin to the translation. */
  lemma CachedMatricesAgree(t: Vec3, r: Vec3, s: Vec3)
    ensures AllInvertible(ObjectToParentOf(t, r, s)) && AllInvertible(ParentToObjectOf(t, r, s))
    ensures ParentToObjectOf(t, r, s) == Inverse(ObjectToParentOf(t, r, s))
    ensures ObjectToParentOf(t, r, s) == Inverse(ParentToObjectOf(t, r, s))
    ensures ImageOfOrigin(ObjectToParentOf(t, r, s)) == Some(t)
  {
    var head := [Scaling(s)] + RotationOf(r);
    RotationInverse(r);
    InverseOfOne(Scaling(s));
    InverseOfOne(Translation(t));
    InverseOfProduct([Scaling(s)], RotationOf(r));
    InverseOfProduct(head, [Translation(t)]);
    InverseInvolution(ObjectToParentOf(t, r, s));
    OriginAfterLinear(head, t);
  }

  class Transform {
    var translation: Vec3
    var rotation: Vec3
    var scale: Vec3
    var objectToParent: Matrix
    var parentToObject: Matrix
    var dirtyObjectToParent: bool
    var dirtyParentToObject: bool

    /** A cache that is not dirty holds the matrix of the current
        components. */
    ghost predicate Valid()
      reads this
    {
      (!dirtyObjectToParent ==> objectToParent == ObjectToParentOf(translation, rotation, scale)) &&
      (!dirtyParentToObject ==> parentToObject == ParentToObjectOf(translation, rotation, scale))
    }

    /** Both caches are dirty and still hold the matrices they held before. */
    ghost predicate DirtiedFrom(o: Matrix, p: Matrix)
      reads this
    {
      dirtyObjectToParent && dirtyParentToObject && objectToParent == o && parentToObject == p
    }

    /** Transform(translation, rotation, scale), both overloads; the defaults
        are no translation, no rotation and unit scale. */
    constructor (t: Vec3, r: Vec3, s: Vec3)
      ensures translation == t && rotation == r && scale == s
      ensures dirtyObjectToParent && dirtyParentToObject
      ensures Valid()
    {
      translation, rotation, scale := t, r, s;
      objectToParent, parentToObject := [], [];
      dirtyObjectToParent, dirtyParentToObject := true, true;
    }

    /** Marks both cached matrices dirty. */
    method SetDirty()
      modifies this
      ensures DirtiedFrom(old(objectToParent), old(parentToObject))
      ensures translation == old(translation) && rotation == old(rotation) && scale == old(scale)
      ensures Valid()
    {
      dirtyObjectToParent := true;
      dirtyParentToObject := true;
    }

    //-------------------------------------------------------------------------
    // Translation
    //-------------------------------------------------------------------------

    method SetTranslationX(x: real)
      modifies this
      ensures translation == Vec3(x, old(translation).y, old(translation).z)
      ensures rotation == old(rotation) && scale == old(scale)
      ensures DirtiedFrom(old(objectToParent), old(parentToObject)) && Valid()
    {
      translation := translation.(x := x);
      SetDirty();
    }

    method SetTranslationY(y: real)
      modifies this
      ensures translation == Vec3(old(translation).x, y, old(translation).z)
      ensures rotation == old(rotation) && scale == old(scale)
      ensures DirtiedFrom(old(objectToParent), old(parentToObject)) && Valid()
    {
      translation := translation.(y := y);
      SetDirty();
    }

    method SetTranslationZ(z: real)
      modifies this
      ensures translation == Vec3(old(translation).x, old(translation).y, z)
      ensures rotation == old(rotation) && scale == old(scale)
      ensures DirtiedFrom(old(objectToParent), old(parentToObject)) && Valid()
    {
      translation := translation.(z := z);
      SetDirty();
    }

    /** SetTranslation(x, y, z) and its vector overloads. */
    method SetTranslation(t: Vec3)
      modifies this
      ensures translation == t && rotation == old(rotation) && scale == old(scale)
      ensures DirtiedFrom(old(objectToParent), old(parentToObject)) && Valid()
    {
      translation := t;
      SetDirty();
    }

    method AddTranslationX(x: real)
      modifies this
      ensures translation == Vec3(old(translation).x + x, old(translation).y, old(translation).z)
      ensures rotation == old(rotation) && scale == old(scale)
      ensures DirtiedFrom(old(objectToParent), old(parentToObject)) && Valid()
    {
      translation := translation.(x := translation.x + x);
      SetDirty();
    }

    method AddTranslationY(y: real)
      modifies this
      ensures translation == Vec3(old(translation).x, old(translation).y + y, old(translation).z)
      ensures rotation == old(rotation) && scale == old(scale)
      ensures DirtiedFrom(old(objectToParent), old(parentToObject)) && Valid()
    {
      translation := translation.(y := translation.y + y);
      SetDirty();
    }

    method AddTranslationZ(z: real)
      modifies this
      ensures translation == Vec3(old(translation).x, old(translation).y, old(translation).z + z)
      ensures rotation == old(rotation) && scale == old(scale)
      ensures DirtiedFrom(old(objectToParent), old(parentToObject)) && Valid()
    {
      translation := translation.(z := translation.z + z);
      SetDirty();
    }

    /** AddTranslation(x, y, z) and its vector overloads: component-wise. */
    method AddTranslation(t: Vec3)
      modifies this
      ensures translation == Add(old(translation), t)
      ensures rotation == old(rotation) && scale == old(scale)
      ensures DirtiedFrom(old(objectToParent), old(parentToObject)) && Valid()
    {
      translation := Vec3(translation.x + t.x, translation.y + t.y, translation.z + t.z);
      SetDirty();
    }

    function GetTranslation(): Vec3
      reads this
    {
      translation
    }

    function GetObjectToParentTranslationMatrix(): (m: Matrix)
      reads this
      ensures ImageOfOrigin(m) == Some(translation)
    {
      OriginAfterLinear([], translation);
      assert [] + [Translation(translation)] == [Translation(translation)];
      [Translation(translation)]
    }

    function GetParentToObjectTranslationMatrix(): (m: Matrix)
      reads this
      ensures AllInvertible(GetObjectToParentTranslationMatrix())
      ensures m == Inverse(GetObjectToParentTranslationMatrix())
    {
      InverseOfOne(Translation(translation));
      [Translation(Negate(translation))]
    }

    //-------------------------------------------------------------------------
    // Rotation
    //-------------------------------------------------------------------------

    method SetRotationX(x: real)
      modifies this
      ensures rotation == Vec3(x, old(rotation).y, old(rotation).z)
      ensures translation == old(translation) && scale == old(scale)
      ensures DirtiedFrom(old(objectToParent), old(parentToObject)) && Valid()
    {
      rotation := rotation.(x := x);
      SetDirty();
    }

    method SetRotationY(y: real)
      modifies this
      ensures rotation == Vec3(old(rotation).x, y, old(rotation).z)
      ensures translation == old(translation) && scale == old(scale)
      ensures DirtiedFrom(old(objectToParent), old(parentToObject)) && Valid()
    {
      rotation := rotation.(y := y);
      SetDirty();
    }

    method SetRotationZ(z: real)
      modifies this
      ensures rotation == Vec3(old(rotation).x, old(rotation).y, z)
      ensures translation == old(translation) && scale == old(scale)
      ensures DirtiedFrom(old(objectToParent), old(parentToObject)) && Valid()
    {
      rotation := rotation.(z := z);
      SetDirty();
    }

    /** SetRotation(x, y, z) and its vector overloads. */
    method SetRotation(r: Vec3)
      modifies this
      ensures rotation == r && translation == old(translation) && scale == old(scale)
      ensures DirtiedFrom(old(objectToParent), old(parentToObject)) && Valid()
    {
      rotation := r;
      SetDirty();
    }

    /** SetRotationAroundDirection(normal, angle): the angles are read back
        from the rotation matrix with asinf and acosf, passed in as
        `anglesOf`. */
    method SetRotationAroundDirection(normal: Vec3, angle: real, anglesOf: (Vec3, real) -> Vec3)
      modifies this
      ensures rotation == anglesOf(normal, angle)
      ensures translation == old(translation) && scale == old(scale)
      ensures DirtiedFrom(old(objectToParent), old(parentToObject)) && Valid()
    {
      rotation := anglesOf(normal, angle);
      SetDirty();
    }

    method AddRotationX(x: real)
      modifies this
      ensures rotation == Vec3(old(rotation).x + x, old(rotation).y, old(rotation).z)
      ensures translation == old(translation) && scale == old(scale)
      ensures DirtiedFrom(old(objectToParent), old(parentToObject)) && Valid()
    {
      rotation := rotation.(x := rotation.x + x);
      SetDirty();
    }

    method AddRotationY(y: real)
      modifies this
      ensures rotation == Vec3(old(rotation).x, old(rotation).y + y, old(rotation).z)
      ensures translation == old(translation) && scale == old(scale)
      ensures DirtiedFrom(old(objectToParent), old(parentToObject)) && Valid()
    {
      rotation := rotation.(y := rotation.y + y);
      SetDirty();
    }

    method AddRotationZ(z: real)
      modifies this
      ensures rotation == Vec3(old(rotation).x, old(rotation).y, old(rotation).z + z)
      ensures translation == old(translation) && scale == old(scale)
      ensures DirtiedFrom(old(objectToParent), old(parentToObject)) && Valid()
    {
      rotation := rotation.(z := rotation.z + z);
      SetDirty();
    }

    /** AddRotation(x, y, z) and its vector overloads: component-wise. */
    method AddRotation(r: Vec3)
      modifies this
      ensures rotation == Add(old(rotation), r)
      ensures translation == old(translation) && scale == old(scale)
      ensures DirtiedFrom(old(objectToParent), old(parentToObject)) && Valid()
    {
      rotation := Vec3(rotation.x + r.x, rotation.y + r.y, rotation.z + r.z);
      SetDirty();
    }

    /** AddAndClampRotationX: ClampAngleRadians is passed in as `clamp`. */
    method AddAndClampRotationX(x: real, minAngle: real, maxAngle: real, clamp: (real, real, real) -> real)
      modifies this
      ensures rotation == Vec3(clamp(old(rotation).x + x, minAngle, maxAngle), old(rotation).y, old(rotation).z)
      ensures translation == old(translation) && scale == old(scale)
      ensures DirtiedFrom(old(objectToParent), old(parentToObject)) && Valid()
    {
      rotation := rotation.(x := clamp(rotation.x + x, minAngle, maxAngle));
      SetDirty();
    }

    method AddAndClampRotationY(y: real, minAngle: real, maxAngle: real, clamp: (real, real, real) -> real)
      modifies this
      ensures rotation == Vec3(old(rotation).x, clamp(old(rotation).y + y, minAngle, maxAngle), old(rotation).z)
      ensures translation == old(translation) && scale == old(scale)
      ensures DirtiedFrom(old(objectToParent), old(parentToObject)) && Valid()
    {
      rotation := rotation.(y := clamp(rotation.y + y, minAngle, maxAngle));
      SetDirty();
    }

    method AddAndClampRotationZ(z: real, minAngle: real, maxAngle: real, clamp: (real, real, real) -> real)
      modifies this
      ensures rotation == Vec3(old(rotation).x, old(rotation).y, clamp(old(rotation).z + z, minAngle, maxAngle))
      ensures translation == old(translation) && scale == old(scale)
      ensures DirtiedFrom(old(objectToParent), old(parentToObject)) && Valid()
    {
      rotation := rotation.(z := clamp(rotation.z + z, minAngle, maxAngle));
      SetDirty();
    }

    /** AddAndClampRotation(x, y, z, min, max) and its vector overloads: each
        angle is clamped after its own addition. */
    method AddAndClampRotation(r: Vec3, minAngle: real, maxAngle: real, clamp: (real, real, real) -> real)
      modifies this
      ensures rotation == Vec3(clamp(old(rotation).x + r.x, minAngle, maxAngle),
                               clamp(old(rotation).y + r.y, minAngle, maxAngle),
                               clamp(old(rotation).z + r.z, minAngle, maxAngle))
      ensures translation == old(translation) && scale == old(scale)
      ensures DirtiedFrom(old(objectToParent), old(parentToObject)) && Valid()
    {
      rotation := Vec3(clamp(rotation.x + r.x, minAngle, maxAngle),
                       clamp(rotation.y + r.y, minAngle, maxAngle),
                       clamp(rotation.z + r.z, minAngle, maxAngle));
      SetDirty();
    }

    function GetRotation(): Vec3
      reads this
    {
      rotation
    }

    function GetObjectToParentRotationMatrix(): (m: Matrix)
      reads this
      ensures ImageOfOrigin(m) == Some(Vec3(0.0, 0.0, 0.0))
    {
      LinearKeepsOrigin(RotationOf(rotation));
      RotationOf(rotation)
    }

    function GetParentToObjectRotationMatrix(): (m: Matrix)
      reads this
      ensures AllInvertible(GetObjectToParentRotationMatrix())
      ensures m == Inverse(GetObjectToParentRotationMatrix())
    {
      RotationInverse(rotation);
      InverseRotationOf(rotation)
    }

    //-------------------------------------------------------------------------
    // Scale
    //-------------------------------------------------------------------------

    method SetScaleX(x: real)
      modifies this
      ensures scale == Vec3(x, old(scale).y, old(scale).z)
      ensures translation == old(translation) && rotation == old(rotation)
      ensures DirtiedFrom(old(objectToParent), old(parentToObject)) && Valid()
    {
      scale := scale.(x := x);
      SetDirty();
    }

    method SetScaleY(y: real)
      modifies this
      ensures scale == Vec3(old(scale).x, y, old(scale).z)
      ensures translation == old(translation) && rotation == old(rotation)
      ensures DirtiedFrom(old(objectToParent), old(parentToObject)) && Valid()
    {
      scale := scale.(y := y);
      SetDirty();
    }

    method SetScaleZ(z: real)
      modifies this
      ensures scale == Vec3(old(scale).x, old(scale).y, z)
      ensures translation == old(translation) && rotation == old(rotation)
      ensures DirtiedFrom(old(objectToParent), old(parentToObject)) && Valid()
    {
      scale := scale.(z := z);
      SetDirty();
    }

    /** SetScale(x, y, z) and its vector overloads. */
    method SetScale(s: Vec3)
      modifies this
      ensures scale == s && translation == old(translation) && rotation == old(rotation)
      ensures DirtiedFrom(old(objectToParent), old(parentToObject)) && Valid()
    {
      scale := s;
      SetDirty();
    }

    /** SetScale(s): the same factor on every axis. */
    method SetUniformScale(s: real)
      modifies this
      ensures scale == Vec3(s, s, s) && translation == old(translation) && rotation == old(rotation)
      ensures DirtiedFrom(old(objectToParent), old(parentToObject)) && Valid()
    {
      SetScale(Vec3(s, s, s));
    }

    method AddScaleX(x: real)
      modifies this
      ensures scale == Vec3(old(scale).x + x, old(scale).y, old(scale).z)
      ensures translation == old(translation) && rotation == old(rotation)
      ensures DirtiedFrom(old(objectToParent), old(parentToObject)) && Valid()
    {
      scale := scale.(x := scale.x + x);
      SetDirty();
    }

    method AddScaleY(y: real)
      modifies this
      ensures scale == Vec3(old(scale).x, old(scale).y + y, old(scale).z)
      ensures translation == old(translation) && rotation == old(rotation)
      ensures DirtiedFrom(old(objectToParent), old(parentToObject)) && Valid()
    {
      scale := scale.(y := scale.y + y);
      SetDirty();
    }

    method AddScaleZ(z: real)
      modifies this
      ensures scale == Vec3(old(scale).x, old(scale).y, old(scale).z + z)
      ensures translation == old(translation) && rotation == old(rotation)
      ensures DirtiedFrom(old(objectToParent), old(parentToObject)) && Valid()
    {
      scale := scale.(z := scale.z + z);
      SetDirty();
    }

    /** AddScale(x, y, z) and its vector overloads: component-wise. */
    method AddScale(s: Vec3)
      modifies this
      ensures scale == Add(old(scale), s)
      ensures translation == old(translation) && rotation == old(rotation)
      ensures DirtiedFrom(old(objectToParent), old(parentToObject)) && Valid()
    {
      scale := Vec3(scale.x + s.x, scale.y + s.y, scale.z + s.z);
      SetDirty();
    }

    /** AddScale(s): the same amount added on every axis. */
    method AddUniformScale(s: real)
      modifies this
      ensures scale == Add(old(scale), Vec3(s, s, s))
      ensures translation == old(translation) && rotation == old(rotation)
      ensures DirtiedFrom(old(objectToParent), old(parentToObject)) && Valid()
    {
      AddScale(Vec3(s, s, s));
    }

    function GetScale(): Vec3
      reads this
    {
      scale
    }

    function GetObjectToParentScaleMatrix(): (m: Matrix)
      reads this
      ensures ImageOfOrigin(m) == Some(Vec3(0.0, 0.0, 0.0))
    {
      LinearKeepsOrigin([Scaling(scale)]);
      [Scaling(scale)]
    }

    /** The scaling by 1/x, 1/y and 1/z. */
    function GetParentToObjectScaleMatrix(): (m: Matrix)
      reads this
      ensures AllInvertible(GetObjectToParentScaleMatrix())
      ensures m == Inverse(GetObjectToParentScaleMatrix())
    {
      InverseOfOne(Scaling(scale));
      [InverseScaling(scale)]
    }

    //-------------------------------------------------------------------------
    // Object and parent space
    //-------------------------------------------------------------------------

    /** The object-space origin, a constant whatever the state: the
        homogeneous point at zero. */
    function GetObjectOrigin(): (o: Vec4)
      ensures o.w == 1.0 && o.x == 0.0 && o.y == 0.0 && o.z == 0.0
    {
      Vec4(0.0, 0.0, 0.0, 1.0)
    }

    /** The object-space axes: unit directions (w = 0) along +x, +y and +z. */
    function GetObjectAxisX(): (a: Vec4)
      ensures a.w == 0.0 && a.x * a.x + a.y * a.y + a.z * a.z == 1.0 && a.x > 0.0
    {
      Vec4(1.0, 0.0, 0.0, 0.0)
    }

    function GetObjectAxisY(): (a: Vec4)
      ensures a.w == 0.0 && a.x * a.x + a.y * a.y + a.z * a.z == 1.0 && a.y > 0.0
    {
      Vec4(0.0, 1.0, 0.0, 0.0)
    }

    function GetObjectAxisZ(): (a: Vec4)
      ensures a.w == 0.0 && a.x * a.x + a.y * a.y + a.z * a.z == 1.0 && a.z > 0.0
    {
      Vec4(0.0, 0.0, 1.0, 0.0)
    }

    /** The parent-space origin is the translation, which is where the
        object-to-parent matrix takes the object origin. */
    function GetParentOrigin(): (o: Vec3)
      reads this
      ensures Some(o) == ImageOfOrigin(ObjectToParentOf(translation, rotation, scale))
    {
      CachedMatricesAgree(translation, rotation, scale);
      translation
    }

    //-------------------------------------------------------------------------
    // Cached matrices
    //-------------------------------------------------------------------------

    /** Recomputes the object-to-parent matrix only if it is dirty, and then
        clears only its own flag. */
    method UpdateObjectToParentMatrix()
      requires Valid()
      modifies this
      ensures Valid() && !dirtyObjectToParent
      ensures objectToParent == ObjectToParentOf(translation, rotation, scale)
      ensures !old(dirtyObjectToParent) ==> objectToParent == old(objectToParent)
      ensures translation == old(translation) && rotation == old(rotation) && scale == old(scale)
      ensures dirtyParentToObject == old(dirtyParentToObject) && parentToObject == old(parentToObject)
    {
      if dirtyObjectToParent {
        objectToParent := GetObjectToParentScaleMatrix() + GetObjectToParentRotationMatrix()
                          + GetObjectToParentTranslationMatrix();
        dirtyObjectToParent := false;
      }
    }

    /** Recomputes the parent-to-object matrix only if it is dirty, and then
        clears only its own flag. */
    method UpdateParentToObjectMatrix()
      requires Valid()
      modifies this
      ensures Valid() && !dirtyParentToObject
      ensures parentToObject == ParentToObjectOf(translation, rotation, scale)
      ensures !old(dirtyParentToObject) ==> parentToObject == old(parentToObject)
      ensures translation == old(translation) && rotation == old(rotation) && scale == old(scale)
      ensures dirtyObjectToParent == old(dirtyObjectToParent) && objectToParent == old(objectToParent)
    {
      if dirtyParentToObject {
        parentToObject := GetParentToObjectTranslationMatrix() + GetParentToObjectRotationMatrix()
                          + GetParentToObjectScaleMatrix();
        dirtyParentToObject := false;
      }
    }

    method GetObjectToParentMatrix() returns (m: Matrix)
      requires Valid()
      modifies this
      ensures m == ObjectToParentOf(translation, rotation, scale) && m == objectToParent
      ensures Valid() && !dirtyObjectToParent
      ensures !old(dirtyObjectToParent) ==> m == old(objectToParent)
      ensures translation == old(translation) && rotation == old(rotation) && scale == old(scale)
      ensures dirtyParentToObject == old(dirtyParentToObject) && parentToObject == old(parentToObject)
    {
      UpdateObjectToParentMatrix();
      m := objectToParent;
    }

    method GetParentToObjectMatrix() returns (m: Matrix)
      requires Valid()
      modifies this
      ensures m == ParentToObjectOf(translation, rotation, scale) && m == parentToObject
      ensures Valid() && !dirtyParentToObject
      ensures !old(dirtyParentToObject) ==> m == old(parentToObject)
      ensures translation == old(translation) && rotation == old(rotation) && scale == old(scale)
      ensures dirtyObjectToParent == old(dirtyObjectToParent) && objectToParent == old(objectToParent)
    {
      UpdateParentToObjectMatrix();
      m := parentToObject;
    }
  }

  /** Reading a matrix twice with no mutation in between returns the same
      matrix, and the second read finds the cache clean; the other cache is
      never refreshed by it. */
  method ReadTwice(t: Transform) returns (first: Matrix, second: Matrix)
    requires t.Valid()
    modifies t
    ensures first == second
    ensures second == ObjectToParentOf(t.translation, t.rotation, t.scale)
    ensures t.dirtyParentToObject == old(t.dirtyParentToObject)
  {
    first := t.GetObjectToParentMatrix();
    second := t.GetObjectToParentMatrix();
  }

  /** After any mutator, both matrices are recomputed from the new components
      on their next read. */
  method MutateThenRead(t: Transform, s: real) returns (o: Matrix, p: Matrix)
    requires t.Valid()
    modifies t
    ensures o == ObjectToParentOf(old(t.translation), old(t.rotation), Vec3(s, s, s))
    ensures p == ParentToObjectOf(old(t.translation), old(t.rotation), Vec3(s, s, s))
    ensures AllInvertible(o) && p == Inverse(o)
  {
    t.SetUniformScale(s);
    o := t.GetObjectToParentMatrix();
    p := t.GetParentToObjectMatrix();
    CachedMatricesAgree(t.translation, t.rotation, t.scale);
  }
}
