/**
  Clients of the registry that exercise its retrieve-or-create behaviour on
  concrete objects and on any registry, using only the contracts of
  `ObjectModel`'s methods.
 */
module Scenarios {
  import opened Objects
  import opened Core
  import opened Registration

  /** A goblin registered as the only Monster: the first `Get` materialises
      it, a change made by the caller to the returned object is kept, and the
      second `Get` returns the same, changed object from the cache. */
  method GoblinScenario() returns (first: Option<Obj>, second: Option<Obj>)
    ensures first.Some? && second == first
    ensures second.value.fields == map["name" := Str("goblin"), "hp" := Int(1)]
  {
    var goblin := new Obj("Monster", map["name" := Str("goblin"), "hp" := Int(10)]);
    var om := new ObjectModel([goblin], Scalar(Str("default_ObjectModel")), CacheDict(map[]));
    RegisteredSingle(goblin);
    first := om.Get(Str("goblin"), "Monster");
    assert goblin.fields + goblin.fields == goblin.fields;
    assert first == Some(goblin) && goblin.fields["hp"] == Int(10);
    goblin.fields := goblin.fields["hp" := Int(1)];
    second := om.Get(Str("goblin"), "Monster");
  }

  /** A registry built from a goblin and then an orc, both Monsters. */
  method GoblinAndOrc() returns (om: ObjectModel, g: Obj, o: Obj)
    ensures fresh(om) && fresh(g) && fresh(o)
    ensures g.fields == map["name" := Str("goblin"), "hp" := Int(10)]
    ensures o.fields == map["name" := Str("orc"), "hp" := Int(30)]
    ensures om.models == ModelsDict(map["Monster" := Entry(g, map[Str("goblin") := g, Str("orc") := o])])
    ensures om.cache == CacheDict(map[])
  {
    g := new Obj("Monster", map["name" := Str("goblin"), "hp" := Int(10)]);
    o := new Obj("Monster", map["name" := Str("orc"), "hp" := Int(30)]);
    om := new ObjectModel([g, o], Scalar(Str("default_ObjectModel")), CacheDict(map[]));
    RegisteredSecondOfClass(g, o);
  }

  /** Two Monsters share one base object, the goblin registered first. Asking
      for the orc rewrites the goblin object with the orc's attributes; since
      the goblin's preset is that same object's attribute map, asking for the
      goblin afterwards returns the object still carrying the orc's name and
      hit points. */
  method SharedBaseScenario() returns (orc: Option<Obj>, goblin: Option<Obj>)
    ensures orc.Some? && goblin == orc
    ensures goblin.value.fields == map["name" := Str("orc"), "hp" := Int(30)]
  {
    var om, g, o := GoblinAndOrc();
    ghost var orcFields := o.fields;
    assert g.fields + orcFields == orcFields;
    orc := om.Get(Str("orc"), "Monster");
    assert o.fields == orcFields && g.fields == orcFields;
    assert om.cache == CacheDict(map[Str("orc") := g]);
    goblin := om.Get(Str("goblin"), "Monster");
    assert g.fields + g.fields == g.fields;
  }

  /** Two Monsters named `True` and `1`: Python finds the names equal, so the
      second registration replaces the first one's preset, and asking for `1`
      applies the second object's attributes to the base, the first object. */
  method BoolAndIntNames() returns (r: Option<Obj>)
    ensures r.Some? && r.value.tag == "Monster"
    ensures r.value.fields == map["name" := Int(1), "hp" := Int(30)]
  {
    var a := new Obj("Monster", map["name" := Bool(true), "hp" := Int(10)]);
    var b := new Obj("Monster", map["name" := Int(1), "hp" := Int(30)]);
    var om := new ObjectModel([a, b], Scalar(Str("default_ObjectModel")), CacheDict(map[]));
    RegisteredSameName(a, b);
    ghost var bFields := b.fields;
    assert a.fields + bFields == bFields;
    r := om.Get(Int(1), "Monster");
  }

  /** After `ClearModels` no class is known, so `Get` finds nothing and
      changes nothing further. */
  method ClearModelsThenGet(om: ObjectModel, objectName: Value, className: string)
    returns (r: Option<Obj>)
    modifies om
    ensures r == None
    ensures om.Current() == old(om.Current()).(models := ModelsDict(map[]))
  {
    om.ClearModels();
    r := om.Get(objectName, className);
  }

  /** Asking twice for an instance whose preset carries its own name returns
      the same object both times, and the second call changes nothing: the
      first call either finds the object in the cache or creates it and
      caches it under that name, where the second call finds it. */
  method GetTwice(om: ObjectModel, objectName: Value, className: string)
    returns (first: Option<Obj>, second: Option<Obj>)
    requires om.models.ModelsDict? && om.cache.CacheDict? && Consistent(om.models.models)
    requires om.Creatable(objectName, className)
    requires "name" in om.models.models[className].preset[Key(objectName)].fields
    requires PyEq(om.models.models[className].preset[Key(objectName)].fields["name"], objectName)
    modifies om, om.BaseOf(className)
    ensures first.Some? && second == first
    ensures second.value.tag == className
    ensures old(om.CacheHit(objectName, className)) ==>
      first == Some(old(om.cache.cache[Key(objectName)])) && unchanged(om) &&
      unchanged(old(om.BaseOf(className)))
    ensures !old(om.CacheHit(objectName, className)) ==> om.Created(objectName, className, first)
  {
    first := om.Get(objectName, className);
    KeyIdentifiesEqualNames(om.models.models[className].preset[Key(objectName)].fields["name"], objectName);
    second := om.Get(objectName, className);
  }

  /** Registering the objects one by one with `AddModel`, starting from an
      empty list, gives the registry the constructor builds from the list. */
  method RegisterOneByOne(baseObjects: seq<Obj>, name: Attr, cache: Attr)
    returns (om: ObjectModel)
    ensures fresh(om)
    ensures om.Current() == Snapshot(name, ModelsDict(Registered(baseObjects)), cache)
  {
    om := new ObjectModel([], name, cache);
    for i := 0 to |baseObjects|
      invariant fresh(om)
      invariant om.Current() == Snapshot(name, ModelsDict(Registered(baseObjects[..i])), cache)
    {
      om.AddModel(baseObjects[i]);
      assert baseObjects[..i + 1][..i] == baseObjects[..i];
    }
    assert baseObjects[..|baseObjects|] == baseObjects;
  }
}
