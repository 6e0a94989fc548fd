/**
 * The world's model and light lists: lookup by name (the first match) and
 * by pointer, and removal of the first match, which keeps the order of the
 * rest.
 */
module Worlds {
  /** A model; only its name matters here. */
  class Model {
    const name: string

    constructor (name: string)
      ensures this.name == name
    {
      this.name := name;
    }
  }

  /** A point light; only its name matters here. */
  class PointLight {
    const name: string

    constructor (name: string)
      ensures this.name == name
    {
      this.name := name;
    }
  }

  /** The index of the first element satisfying f, or the length when there
      is none. */
  function FirstWhere<T>(s: seq<T>, f: T -> bool): (k: nat)
    ensures k <= |s|
    ensures forall i :: 0 <= i < k ==> !f(s[i])
    ensures k < |s| ==> f(s[k])
  {
    if |s| == 0 then 0 else if f(s[0]) then 0 else 1 + FirstWhere(s[1..], f)
  }

  /** A position with no match before it and a match at it (or the end) is
      the first match. */
  lemma FirstWhereIs<T>(s: seq<T>, f: T -> bool, k: nat)
    requires k <= |s| && (forall i :: 0 <= i < k ==> !f(s[i])) && (k < |s| ==> f(s[k]))
    ensures FirstWhere(s, f) == k
  {
  }

  /** The sequence without its first element satisfying f. */
  function RemoveFirst<T>(s: seq<T>, f: T -> bool): (r: seq<T>)
    ensures |r| == if exists i :: 0 <= i < |s| && f(s[i]) then |s| - 1 else |s|
    ensures forall x :: x in r ==> x in s
  {
    var k := FirstWhere(s, f);
    if k < |s| then s[..k] + s[k + 1..] else s
  }

  /** Without a match, removal changes nothing. */
  lemma RemoveFirstWithoutMatch<T>(s: seq<T>, f: T -> bool)
    requires forall i :: 0 <= i < |s| ==> !f(s[i])
    ensures RemoveFirst(s, f) == s
  {
  }

  /** Removing the first match takes out exactly that element and keeps the
      others in order. */
  lemma RemoveFirstKeepsOrder<T>(s: seq<T>, f: T -> bool, k: nat)
    requires k < |s| && f(s[k])
    ensures var j := FirstWhere(s, f); var r := RemoveFirst(s, f);
      j <= k && |r| == |s| - 1 &&
      (forall i :: 0 <= i < j ==> r[i] == s[i]) &&
      (forall i :: j <= i < |r| ==> r[i] == s[i + 1])
  {
    var j := FirstWhere(s, f);
    assert j <= k;
    assert RemoveFirst(s, f) == s[..j] + s[j + 1..];
  }

  /** Removal takes exactly one copy of the first match out of the multiset
      of elements. */
  lemma {:induction false} RemoveFirstMultiset<T>(s: seq<T>, f: T -> bool, k: nat)
    requires k < |s| && f(s[k])
    ensures var j := FirstWhere(s, f);
      multiset(RemoveFirst(s, f)) + multiset{s[j]} == multiset(s)
  {
    var j := FirstWhere(s, f);
    assert s == s[..j] + [s[j]] + s[j + 1..];
  }

  function Named(name: string): Model -> bool
  {
    (m: Model) => m.name == name
  }

  function LightNamed(name: string): PointLight -> bool
  {
    (l: PointLight) => l.name == name
  }

  class World {
    var models: seq<Model>
    var lights: seq<PointLight>

    constructor ()
      ensures models == [] && lights == []
    {
      models, lights := [], [];
    }

    /** The first model with the name, or null. */
    method GetModel(name: string) returns (r: Model?)
      ensures var k := FirstWhere(models, Named(name)); r == if k < |models| then models[k] else null
    {
      var i := 0;
      while i < |models|
        invariant i <= |models| && forall j :: 0 <= j < i ==> models[j].name != name
      {
        if models[i].name == name {
          FirstWhereIs(models, Named(name), i);
          return models[i];
        }
        i := i + 1;
      }
      FirstWhereIs(models, Named(name), i);
      r := null;
    }

    method HasModel(model: Model?) returns (b: bool)
      ensures b <==> model in models
    {
      var i := 0;
      while i < |models|
        invariant i <= |models| && model !in models[..i]
      {
        if models[i] == model {
          return true;
        }
        i := i + 1;
      }
      assert models[..i] == models;
      b := false;
    }

    /** Erases the first model with the name; the lights stay. */
    method RemoveModel(name: string)
      modifies this
      ensures models == RemoveFirst(old(models), Named(name)) && lights == old(lights)
    {
      var i := 0;
      while i < |models|
        invariant i <= |models| && forall j :: 0 <= j < i ==> models[j].name != name
      {
        if models[i].name == name {
          FirstWhereIs(models, Named(name), i);
          models := models[..i] + models[i + 1..];
          return;
        }
        i := i + 1;
      }
      FirstWhereIs(models, Named(name), i);
    }

    /** Erases the first occurrence of that same object; the lights stay. */
    method RemoveModelPointer(model: Model?)
      modifies this
      ensures models == RemoveFirst(old(models), m => m == model) && lights == old(lights)
    {
      var i := 0;
      while i < |models|
        invariant i <= |models| && forall j :: 0 <= j < i ==> models[j] != model
      {
        if models[i] == model {
          FirstWhereIs(models, m => m == model, i);
          models := models[..i] + models[i + 1..];
          return;
        }
        i := i + 1;
      }
      FirstWhereIs(models, m => m == model, i);
    }

    /** The first light with the name, or null. */
    method GetLight(name: string) returns (r: PointLight?)
      ensures var k := FirstWhere(lights, LightNamed(name)); r == if k < |lights| then lights[k] else null
    {
      var i := 0;
      while i < |lights|
        invariant i <= |lights| && forall j :: 0 <= j < i ==> lights[j].name != name
      {
        if lights[i].name == name {
          FirstWhereIs(lights, LightNamed(name), i);
          return lights[i];
        }
        i := i + 1;
      }
      FirstWhereIs(lights, LightNamed(name), i);
      r := null;
    }

    method HasLight(light: PointLight?) returns (b: bool)
      ensures b <==> light in lights
    {
      var i := 0;
      while i < |lights|
        invariant i <= |lights| && light !in lights[..i]
      {
        if lights[i] == light {
          return true;
        }
        i := i + 1;
      }
      assert lights[..i] == lights;
      b := false;
    }

    /** Erases the first light with the name; the models stay. */
    method RemoveLight(name: string)
      modifies this
      ensures lights == RemoveFirst(old(lights), LightNamed(name)) && models == old(models)
    {
      var i := 0;
      while i < |lights|
        invariant i <= |lights| && forall j :: 0 <= j < i ==> lights[j].name != name
      {
        if lights[i].name == name {
          FirstWhereIs(lights, LightNamed(name), i);
          lights := lights[..i] + lights[i + 1..];
          return;
        }
        i := i + 1;
      }
      FirstWhereIs(lights, LightNamed(name), i);
    }

    /** Erases the first occurrence of that same object; the models stay. */
    method RemoveLightPointer(light: PointLight?)
      modifies this
      ensures lights == RemoveFirst(old(lights), l => l == light) && models == old(models)
    {
      var i := 0;
      while i < |lights|
        invariant i <= |lights| && forall j :: 0 <= j < i ==> lights[j] != light
      {
        if lights[i] == light {
          FirstWhereIs(lights, l => l == light, i);
          lights := lights[..i] + lights[i + 1..];
          return;
        }
        i := i + 1;
      }
      FirstWhereIs(lights, l => l == light, i);
    }
  }
}
