/**
 * The transform of a scene node: a local Euler-angle transform (the
 * SETTransform3D it holds by value), the node that owns it, and the
 * object-to-world and world-to-object matrices cached behind two dirty
 * flags. Every mutator forwards to the local transform and then marks both
 * world matrices dirty; each world getter refreshes only its own cache and
 * needs an owner to do so.
 */
module SceneTransform {
  import opened Common
  import opened Matrices
  import MathTransform

  /** The SETTransform3D value: a translation, Euler angles and a per-axis
      scale, with the matrices of the Euler transform. */
  datatype Local = Local(translation: Vec3, rotation: Vec3, scale: Vec3)

  /** No translation, no rotation, unit scale. */
  const DEFAULT_LOCAL: Local := Local(Vec3(0.0, 0.0, 0.0), Vec3(0.0, 0.0, 0.0), Vec3(1.0, 1.0, 1.0))

  /** A node is named by its index in the scene's node storage (the slot a
      ProxyPtr refers to). */
  type NodeId = nat

  function LocalToParentOf(l: Local): Matrix
  {
    MathTransform.ObjectToParentOf(l.translation, l.rotation, l.scale)
  }

  function ParentToLocalOf(l: Local): Matrix
  {
    MathTransform.ParentToObjectOf(l.translation, l.rotation, l.scale)
  }

  /** The local matrix, then the object-to-world matrix of the owner's
      parent. */
  function ObjectToWorldOf(l: Local, owner: NodeId): Matrix
  {
    LocalToParentOf(l) + [ParentToWorld(owner)]
  }

  /** The world-to-object matrix of the owner's parent, then the inverse local
      matrix. */
  function WorldToObjectOf(l: Local, owner: NodeId): Matrix
  {
    [WorldToParent(owner)] + ParentToLocalOf(l)
  }

  /** The two world matrices are inverse of each other. */
  lemma WorldMatricesAgree(l: Local, owner: NodeId)
    ensures AllInvertible(ObjectToWorldOf(l, owner))
    ensures WorldToObjectOf(l, owner) == Inverse(ObjectToWorldOf(l, owner))
    ensures ObjectToWorldOf(l, owner) == Inverse(WorldToObjectOf(l, owner))
  {
    MathTransform.CachedMatricesAgree(l.translation, l.rotation, l.scale);
    InverseOfOne(ParentToWorld(owner));
    InverseOfProduct(LocalToParentOf(l), [ParentToWorld(owner)]);
    InverseInvolution(ObjectToWorldOf(l, owner));
  }

  class Transform {
    var local: Local
    var objectToWorld: Matrix
    var worldToObject: Matrix
    var dirtyObjectToWorld: bool
    var dirtyWorldToObject: bool
    var owner: Option<NodeId>

    /** With an owner, a world matrix whose flag is clear is the matrix of the
        current local transform and owner. */
    ghost predicate Valid()
      reads this
    {
      owner.Some? ==>
        (!dirtyObjectToWorld ==> objectToWorld == ObjectToWorldOf(local, owner.value)) &&
        (!dirtyWorldToObject ==> worldToObject == WorldToObjectOf(local, owner.value))
    }

    /** Both world matrices are dirty and still hold what they held. */
    ghost predicate DirtiedFrom(o: Matrix, w: Matrix)
      reads this
    {
      dirtyObjectToWorld && dirtyWorldToObject && objectToWorld == o && worldToObject == w
    }

    /** Transform(): the default local transform, both world matrices dirty,
        no owner. */
    constructor ()
      ensures local == DEFAULT_LOCAL && owner == None
      ensures dirtyObjectToWorld && dirtyWorldToObject && Valid()
    {
      local := DEFAULT_LOCAL;
      objectToWorld, worldToObject := [], [];
      dirtyObjectToWorld, dirtyWorldToObject := true, true;
      owner := None;
    }

    /** The copy constructor copies only the local transform: the copy has no
        owner and both its world matrices are dirty. */
    constructor Copy(other: Transform)
      ensures local == other.local && owner == None
      ensures dirtyObjectToWorld && dirtyWorldToObject && Valid()
    {
      local := other.local;
      objectToWorld, worldToObject := [], [];
      dirtyObjectToWorld, dirtyWorldToObject := true, true;
      owner := None;
    }

    /** The defaulted move constructor takes every field, caches and owner
        included. */
    constructor Move(other: Transform)
      requires other.Valid()
      ensures local == other.local && owner == other.owner
      ensures objectToWorld == other.objectToWorld && worldToObject == other.worldToObject
      ensures dirtyObjectToWorld == other.dirtyObjectToWorld
      ensures dirtyWorldToObject == other.dirtyWorldToObject
      ensures Valid()
    {
      local, owner := other.local, other.owner;
      objectToWorld, worldToObject := other.objectToWorld, other.worldToObject;
      dirtyObjectToWorld, dirtyWorldToObject := other.dirtyObjectToWorld, other.dirtyWorldToObject;
    }

    /** Copy assignment takes the local transform, keeps this transform's own
        owner, and marks both world matrices dirty. */
    method CopyAssign(other: Transform)
      modifies this
      ensures local == old(other.local) && owner == old(owner)
      ensures DirtiedFrom(old(objectToWorld), old(worldToObject)) && Valid()
    {
      local := other.local;
      SetDirty();
    }

    /** Move assignment takes the local transform and the owner, and marks both
        world matrices dirty. */
    method MoveAssign(other: Transform)
      modifies this
      ensures local == old(other.local) && owner == old(other.owner)
      ensures DirtiedFrom(old(objectToWorld), old(worldToObject)) && Valid()
    {
      local := other.local;
      owner := other.owner;
      SetDirty();
    }

    /** Marks both world matrices dirty. Marking the descendants is the scene
        graph's part and is not modelled. */
    method SetDirty()
      modifies this
      ensures local == old(local) && owner == old(owner)
      ensures DirtiedFrom(old(objectToWorld), old(worldToObject)) && Valid()
    {
      dirtyObjectToWorld := true;
      dirtyWorldToObject := true;
    }

    //-------------------------------------------------------------------------
    // Translation
    //-------------------------------------------------------------------------

    method SetTranslationX(x: real)
      modifies this
      ensures local == old(local).(translation := old(local).translation.(x := x))
      ensures owner == old(owner) && DirtiedFrom(old(objectToWorld), old(worldToObject)) && Valid()
    {
      local := local.(translation := local.translation.(x := x));
      SetDirty();
    }

    method SetTranslationY(y: real)
      modifies this
      ensures local == old(local).(translation := old(local).translation.(y := y))
      ensures owner == old(owner) && DirtiedFrom(old(objectToWorld), old(worldToObject)) && Valid()
    {
      local := local.(translation := local.translation.(y := y));
      SetDirty();
    }

    method SetTranslationZ(z: real)
      modifies this
      ensures local == old(local).(translation := old(local).translation.(z := z))
      ensures owner == old(owner) && DirtiedFrom(old(objectToWorld), old(worldToObject)) && Valid()
    {
      local := local.(translation := local.translation.(z := z));
      SetDirty();
    }

    /** SetTranslation(x, y, z) and its vector overloads. */
    method SetTranslation(t: Vec3)
      modifies this
      ensures local == old(local).(translation := t)
      ensures owner == old(owner) && DirtiedFrom(old(objectToWorld), old(worldToObject)) && Valid()
    {
      local := local.(translation := t);
      SetDirty();
    }

    method AddTranslationX(x: real)
      modifies this
      ensures local == old(local).(translation := old(local).translation.(x := old(local).translation.x + x))
      ensures owner == old(owner) && DirtiedFrom(old(objectToWorld), old(worldToObject)) && Valid()
    {
      local := local.(translation := local.translation.(x := local.translation.x + x));
      SetDirty();
    }

    method AddTranslationY(y: real)
      modifies this
      ensures local == old(local).(translation := old(local).translation.(y := old(local).translation.y + y))
      ensures owner == old(owner) && DirtiedFrom(old(objectToWorld), old(worldToObject)) && Valid()
    {
      local := local.(translation := local.translation.(y := local.translation.y + y));
      SetDirty();
    }

    method AddTranslationZ(z: real)
      modifies this
      ensures local == old(local).(translation := old(local).translation.(z := old(local).translation.z + z))
      ensures owner == old(owner) && DirtiedFrom(old(objectToWorld), old(worldToObject)) && Valid()
    {
      local := local.(translation := local.translation.(z := local.translation.z + z));
      SetDirty();
    }

    /** AddTranslation(x, y, z) and its vector overloads: component-wise. */
    method AddTranslation(t: Vec3)
      modifies this
      ensures local == old(local).(translation := Add(old(local).translation, t))
      ensures owner == old(owner) && DirtiedFrom(old(objectToWorld), old(worldToObject)) && Valid()
    {
      local := local.(translation := Add(local.translation, t));
      SetDirty();
    }

    //-------------------------------------------------------------------------
    // Rotation
    //-------------------------------------------------------------------------

    method SetRotationX(x: real)
      modifies this
      ensures local == old(local).(rotation := old(local).rotation.(x := x))
      ensures owner == old(owner) && DirtiedFrom(old(objectToWorld), old(worldToObject)) && Valid()
    {
      local := local.(rotation := local.rotation.(x := x));
      SetDirty();
    }

    method SetRotationY(y: real)
      modifies this
      ensures local == old(local).(rotation := old(local).rotation.(y := y))
      ensures owner == old(owner) && DirtiedFrom(old(objectToWorld), old(worldToObject)) && Valid()
    {
      local := local.(rotation := local.rotation.(y := y));
      SetDirty();
    }

    method SetRotationZ(z: real)
      modifies this
      ensures local == old(local).(rotation := old(local).rotation.(z := z))
      ensures owner == old(owner) && DirtiedFrom(old(objectToWorld), old(worldToObject)) && Valid()
    {
      local := local.(rotation := local.rotation.(z := z));
      SetDirty();
    }

    /** SetRotation(x, y, z) and its vector overloads. */
    method SetRotation(r: Vec3)
      modifies this
      ensures local == old(local).(rotation := r)
      ensures owner == old(owner) && DirtiedFrom(old(objectToWorld), old(worldToObject)) && Valid()
    {
      local := local.(rotation := r);
      SetDirty();
    }

    /** The local transform's angles for a rotation about a direction are
        the parameter anglesOf. */
    method SetRotationAroundDirection(direction: Vec3, angle: real, anglesOf: (Vec3, real) -> Vec3)
      modifies this
      ensures local == old(local).(rotation := anglesOf(direction, angle))
      ensures owner == old(owner) && DirtiedFrom(old(objectToWorld), old(worldToObject)) && Valid()
    {
      local := local.(rotation := anglesOf(direction, angle));
      SetDirty();
    }

    method AddRotationX(x: real)
      modifies this
      ensures local == old(local).(rotation := old(local).rotation.(x := old(local).rotation.x + x))
      ensures owner == old(owner) && DirtiedFrom(old(objectToWorld), old(worldToObject)) && Valid()
    {
      local := local.(rotation := local.rotation.(x := local.rotation.x + x));
      SetDirty();
    }

    method AddRotationY(y: real)
      modifies this
      ensures local == old(local).(rotation := old(local).rotation.(y := old(local).rotation.y + y))
      ensures owner == old(owner) && DirtiedFrom(old(objectToWorld), old(worldToObject)) && Valid()
    {
      local := local.(rotation := local.rotation.(y := local.rotation.y + y));
      SetDirty();
    }

    method AddRotationZ(z: real)
      modifies this
      ensures local == old(local).(rotation := old(local).rotation.(z := old(local).rotation.z + z))
      ensures owner == old(owner) && DirtiedFrom(old(objectToWorld), old(worldToObject)) && Valid()
    {
      local := local.(rotation := local.rotation.(z := local.rotation.z + z));
      SetDirty();
    }

    /** AddRotation(x, y, z) and its vector overloads: component-wise. */
    method AddRotation(r: Vec3)
      modifies this
      ensures local == old(local).(rotation := Add(old(local).rotation, r))
      ensures owner == old(owner) && DirtiedFrom(old(objectToWorld), old(worldToObject)) && Valid()
    {
      local := local.(rotation := Add(local.rotation, r));
      SetDirty();
    }

    /** AddRotationX(x, min, max): the local transform adds and clamps (the
        clamp is the parameter). */
    method AddAndClampRotationX(x: real, minAngle: real, maxAngle: real, clamp: (real, real, real) -> real)
      modifies this
      ensures local == old(local).(rotation := old(local).rotation.(x := clamp(old(local).rotation.x + x, minAngle, maxAngle)))
      ensures owner == old(owner) && DirtiedFrom(old(objectToWorld), old(worldToObject)) && Valid()
    {
      local := local.(rotation := local.rotation.(x := clamp(local.rotation.x + x, minAngle, maxAngle)));
      SetDirty();
    }

    method AddAndClampRotationY(y: real, minAngle: real, maxAngle: real, clamp: (real, real, real) -> real)
      modifies this
      ensures local == old(local).(rotation := old(local).rotation.(y := clamp(old(local).rotation.y + y, minAngle, maxAngle)))
      ensures owner == old(owner) && DirtiedFrom(old(objectToWorld), old(worldToObject)) && Valid()
    {
      local := local.(rotation := local.rotation.(y := clamp(local.rotation.y + y, minAngle, maxAngle)));
      SetDirty();
    }

    method AddAndClampRotationZ(z: real, minAngle: real, maxAngle: real, clamp: (real, real, real) -> real)
      modifies this
      ensures local == old(local).(rotation := old(local).rotation.(z := clamp(old(local).rotation.z + z, minAngle, maxAngle)))
      ensures owner == old(owner) && DirtiedFrom(old(objectToWorld), old(worldToObject)) && Valid()
    {
      local := local.(rotation := local.rotation.(z := clamp(local.rotation.z + z, minAngle, maxAngle)));
      SetDirty();
    }

    /** AddRotation with per-axis bounds (the overloads with one minimum and
        maximum pass the same bound on every axis). */
    method AddAndClampRotation(r: Vec3, minAngles: Vec3, maxAngles: Vec3, clamp: (real, real, real) -> real)
      modifies this
      ensures local == old(local).(rotation := Vec3(clamp(old(local).rotation.x + r.x, minAngles.x, maxAngles.x),
                                                    clamp(old(local).rotation.y + r.y, minAngles.y, maxAngles.y),
                                                    clamp(old(local).rotation.z + r.z, minAngles.z, maxAngles.z)))
      ensures owner == old(owner) && DirtiedFrom(old(objectToWorld), old(worldToObject)) && Valid()
    {
      local := local.(rotation := Vec3(clamp(local.rotation.x + r.x, minAngles.x, maxAngles.x),
                                       clamp(local.rotation.y + r.y, minAngles.y, maxAngles.y),
                                       clamp(local.rotation.z + r.z, minAngles.z, maxAngles.z)));
      SetDirty();
    }

    //-------------------------------------------------------------------------
    // Scale
    //-------------------------------------------------------------------------

    method SetScaleX(x: real)
      modifies this
      ensures local == old(local).(scale := old(local).scale.(x := x))
      ensures owner == old(owner) && DirtiedFrom(old(objectToWorld), old(worldToObject)) && Valid()
    {
      local := local.(scale := local.scale.(x := x));
      SetDirty();
    }

    method SetScaleY(y: real)
      modifies this
      ensures local == old(local).(scale := old(local).scale.(y := y))
      ensures owner == old(owner) && DirtiedFrom(old(objectToWorld), old(worldToObject)) && Valid()
    {
      local := local.(scale := local.scale.(y := y));
      SetDirty();
    }

    method SetScaleZ(z: real)
      modifies this
      ensures local == old(local).(scale := old(local).scale.(z := z))
      ensures owner == old(owner) && DirtiedFrom(old(objectToWorld), old(worldToObject)) && Valid()
    {
      local := local.(scale := local.scale.(z := z));
      SetDirty();
    }

    /** SetScale(s): the same factor on every axis. */
    method SetUniformScale(s: real)
      modifies this
      ensures local == old(local).(scale := Splat(s))
      ensures owner == old(owner) && DirtiedFrom(old(objectToWorld), old(worldToObject)) && Valid()
    {
      local := local.(scale := Splat(s));
      SetDirty();
    }

    /** SetScale(x, y, z) and its vector overloads. */
    method SetScale(s: Vec3)
      modifies this
      ensures local == old(local).(scale := s)
      ensures owner == old(owner) && DirtiedFrom(old(objectToWorld), old(worldToObject)) && Valid()
    {
      local := local.(scale := s);
      SetDirty();
    }

    method AddScaleX(x: real)
      modifies this
      ensures local == old(local).(scale := old(local).scale.(x := old(local).scale.x + x))
      ensures owner == old(owner) && DirtiedFrom(old(objectToWorld), old(worldToObject)) && Valid()
    {
      local := local.(scale := local.scale.(x := local.scale.x + x));
      SetDirty();
    }

    method AddScaleY(y: real)
      modifies this
      ensures local == old(local).(scale := old(local).scale.(y := old(local).scale.y + y))
      ensures owner == old(owner) && DirtiedFrom(old(objectToWorld), old(worldToObject)) && Valid()
    {
      local := local.(scale := local.scale.(y := local.scale.y + y));
      SetDirty();
    }

    method AddScaleZ(z: real)
      modifies this
      ensures local == old(local).(scale := old(local).scale.(z := old(local).scale.z + z))
      ensures owner == old(owner) && DirtiedFrom(old(objectToWorld), old(worldToObject)) && Valid()
    {
      local := local.(scale := local.scale.(z := local.scale.z + z));
      SetDirty();
    }

    /** AddScale(s): the same amount added on every axis. */
    method AddUniformScale(s: real)
      modifies this
      ensures local == old(local).(scale := Add(old(local).scale, Splat(s)))
      ensures owner == old(owner) && DirtiedFrom(old(objectToWorld), old(worldToObject)) && Valid()
    {
      local := local.(scale := Add(local.scale, Splat(s)));
      SetDirty();
    }

    /** AddScale(x, y, z) and its vector overloads: component-wise. */
    method AddScale(s: Vec3)
      modifies this
      ensures local == old(local).(scale := Add(old(local).scale, s))
      ensures owner == old(owner) && DirtiedFrom(old(objectToWorld), old(worldToObject)) && Valid()
    {
      local := local.(scale := Add(local.scale, s));
      SetDirty();
    }

    //-------------------------------------------------------------------------
    // Local and parent space
    //-------------------------------------------------------------------------

    /** Replaces the whole local transform. */
    method SetLocalTransform(l: Local)
      modifies this
      ensures local == l
      ensures owner == old(owner) && DirtiedFrom(old(objectToWorld), old(worldToObject)) && Valid()
    {
      local := l;
      SetDirty();
    }

    function GetTranslation(): Vec3 reads this { local.translation }
    function GetRotation(): Vec3 reads this { local.rotation }
    function GetScale(): Vec3 reads this { local.scale }

    /** Forwarded to the local transform: the object-space origin, the
        homogeneous point at zero. */
    function GetObjectOrigin(): (o: Vec4)
      ensures o.w == 1.0 && o.x == 0.0 && o.y == 0.0 && o.z == 0.0
    {
      Vec4(0.0, 0.0, 0.0, 1.0)
    }

    /** The object-space axes: unit directions (w = 0) along +x, +y and +z. */
    function GetObjectAxisX(): (a: Vec4)
      ensures a.w == 0.0 && a.x * a.x + a.y * a.y + a.z * a.z == 1.0 && a.x > 0.0
    {
      Vec4(1.0, 0.0, 0.0, 0.0)
    }

    function GetObjectAxisY(): (a: Vec4)
      ensures a.w == 0.0 && a.x * a.x + a.y * a.y + a.z * a.z == 1.0 && a.y > 0.0
    {
      Vec4(0.0, 1.0, 0.0, 0.0)
    }

    function GetObjectAxisZ(): (a: Vec4)
      ensures a.w == 0.0 && a.x * a.x + a.y * a.y + a.z * a.z == 1.0 && a.z > 0.0
    {
      Vec4(0.0, 0.0, 1.0, 0.0)
    }

    /** Forwarded to the local transform, whose matrix takes the object origin
        to its translation. */
    function GetObjectToParentMatrix(): (m: Matrix)
      reads this
      ensures AllInvertible(m) && ImageOfOrigin(m) == Some(local.translation)
    {
      MathTransform.CachedMatricesAgree(local.translation, local.rotation, local.scale);
      LocalToParentOf(local)
    }

    /** Forwarded to the local transform: the inverse of the object-to-parent
        matrix. */
    function GetParentToObjectMatrix(): (m: Matrix)
      reads this
      ensures m == Inverse(GetObjectToParentMatrix())
      ensures GetObjectToParentMatrix() == Inverse(m)
    {
      MathTransform.CachedMatricesAgree(local.translation, local.rotation, local.scale);
      ParentToLocalOf(local)
    }

    /** Forwarded: the local translation, where the object-to-parent matrix
        takes the object origin. */
    function GetParentOrigin(): (o: Vec3)
      reads this
      ensures Some(o) == ImageOfOrigin(GetObjectToParentMatrix())
      ensures o == local.translation
    {
      local.translation
    }

    //-------------------------------------------------------------------------
    // Owner and world space
    //-------------------------------------------------------------------------

    /** An owner-less transform has no world matrices, so it is consistent
        whatever its caches hold. */
    predicate HasOwner(): (r: bool)
      reads this
      ensures r <==> owner.Some?
      ensures !r ==> Valid()
    {
      owner.Some?
    }

    /** Stores the owner and marks both world matrices dirty. */
    method SetOwner(node: Option<NodeId>)
      modifies this
      ensures owner == node && HasOwner() == node.Some? && local == old(local)
      ensures DirtiedFrom(old(objectToWorld), old(worldToObject)) && Valid()
    {
      owner := node;
      SetDirty();
    }

    /** Refreshes the object-to-world matrix if it is dirty; needs an owner. */
    method UpdateObjectToWorldMatrix()
      requires HasOwner() && Valid()
      modifies this
      ensures local == old(local) && owner == old(owner)
      ensures objectToWorld == ObjectToWorldOf(local, owner.value)
      ensures !dirtyObjectToWorld && Valid()
      ensures !old(dirtyObjectToWorld) ==> objectToWorld == old(objectToWorld)
      ensures dirtyWorldToObject == old(dirtyWorldToObject) && worldToObject == old(worldToObject)
    {
      if dirtyObjectToWorld {
        objectToWorld := GetObjectToParentMatrix() + [ParentToWorld(owner.value)];
        dirtyObjectToWorld := false;
      }
    }

    /** Refreshes the world-to-object matrix if it is dirty; needs an owner. */
    method UpdateWorldToObjectMatrix()
      requires HasOwner() && Valid()
      modifies this
      ensures local == old(local) && owner == old(owner)
      ensures worldToObject == WorldToObjectOf(local, owner.value)
      ensures !dirtyWorldToObject && Valid()
      ensures !old(dirtyWorldToObject) ==> worldToObject == old(worldToObject)
      ensures dirtyObjectToWorld == old(dirtyObjectToWorld) && objectToWorld == old(objectToWorld)
    {
      if dirtyWorldToObject {
        worldToObject := [WorldToParent(owner.value)] + GetParentToObjectMatrix();
        dirtyWorldToObject := false;
      }
    }

    method GetObjectToWorldMatrix() returns (m: Matrix)
      requires HasOwner() && Valid()
      modifies this
      ensures local == old(local) && owner == old(owner)
      ensures m == ObjectToWorldOf(local, owner.value) && m == objectToWorld
      ensures !dirtyObjectToWorld && Valid()
      ensures !old(dirtyObjectToWorld) ==> m == old(objectToWorld)
      ensures dirtyWorldToObject == old(dirtyWorldToObject) && worldToObject == old(worldToObject)
    {
      UpdateObjectToWorldMatrix();
      m := objectToWorld;
    }

    method GetWorldToObjectMatrix() returns (m: Matrix)
      requires HasOwner() && Valid()
      modifies this
      ensures local == old(local) && owner == old(owner)
      ensures m == WorldToObjectOf(local, owner.value) && m == worldToObject
      ensures !dirtyWorldToObject && Valid()
      ensures !old(dirtyWorldToObject) ==> m == old(worldToObject)
      ensures dirtyObjectToWorld == old(dirtyObjectToWorld) && objectToWorld == old(objectToWorld)
    {
      UpdateWorldToObjectMatrix();
      m := worldToObject;
    }
  }

  /** After a mutation, both world matrices are rebuilt from the new local
      transform, and they are inverse of each other. */
  method MutateThenReadWorld(t: Transform, v: Vec3) returns (o: Matrix, w: Matrix)
    requires t.HasOwner() && t.Valid()
    modifies t
    ensures o == ObjectToWorldOf(old(t.local).(translation := v), old(t.owner).value)
    ensures AllInvertible(o) && w == Inverse(o)
  {
    t.SetTranslation(v);
    o := t.GetObjectToWorldMatrix();
    w := t.GetWorldToObjectMatrix();
    WorldMatricesAgree(t.local, t.owner.value);
  }

  /** Copy assignment leaves the target's owner in place, so its world
      matrices are rebuilt for its own node. */
  method CopyAssignThenRead(target: Transform, source: Transform) returns (o: Matrix)
    requires target.HasOwner() && target.Valid()
    modifies target
    ensures o == ObjectToWorldOf(old(source.local), old(target.owner).value)
  {
    target.CopyAssign(source);
    o := target.GetObjectToWorldMatrix();
  }
}
