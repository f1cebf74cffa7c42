/**
  The ObjectModel registry: a store of prototype objects grouped by class
  name, from which named instances are materialised and cached.

  The registry has three attributes, `name`, `models` and `cache`, that the
  generic setters may overwrite with any value. `models` maps a class name to
  an entry holding the shared base object and the presets of that class;
  `cache` maps an instance name to the object last materialised or saved under
  it. Operations that meet a `models` or `cache` that is not a dictionary of
  the expected shape fail the way the Python code does: the ones that catch
  their exceptions change nothing, the ones that do not (`get`, `from_cache`)
  require a dictionary.
 */
module Core {
  import opened Objects

  /** One registered class: its base object, which `create` rewrites in place,
      and the presets by instance name (filed under `Key` of the name). A
      preset is the live attribute map of the object registered under that
      name, so the entry holds that object. */
  datatype Entry = Entry(base: Obj, preset: map<Name, Obj>)

  type Models = map<string, Entry>
  type Cache = map<Name, Obj>

  /** A value held by one of the registry's attributes. */
  datatype Attr =
    | Scalar(value: Value)
    | Names(names: seq<string>)
    | ModelsDict(models: Models)
    | CacheDict(cache: Cache)

  /** The attributes the generic setters and `to_dict` work on, in order. */
  const Whitelist: seq<string> := ["name", "models", "cache"]

  /** The values of the three whitelisted attributes of a registry. */
  datatype Snapshot = Snapshot(name: Attr, models: Attr, cache: Attr)

  /** Reading a whitelisted attribute by name; other names have no value. */
  function Lookup(s: Snapshot, attribute: string): (r: Option<Attr>)
    ensures r.Some? <==> attribute in Whitelist
  {
    if attribute == "name" then Some(s.name)
    else if attribute == "models" then Some(s.models)
    else if attribute == "cache" then Some(s.cache)
    else None
  }

  /** `setattr` restricted to the whitelist: the named attribute takes the
      value, every other attribute keeps its own, and a name outside the
      whitelist changes nothing. */
  function Assign(s: Snapshot, attribute: string, v: Attr): (t: Snapshot)
    ensures forall a ::
      Lookup(t, a) == (if a == attribute && attribute in Whitelist then Some(v) else Lookup(s, a))
    ensures attribute !in Whitelist ==> t == s
  {
    if attribute == "name" then s.(name := v)
    else if attribute == "models" then s.(models := v)
    else if attribute == "cache" then s.(cache := v)
    else s
  }

  /** Applying, in the order of `attrs`, every whitelisted attribute that
      `d` has a value for. */
  function AssignEach(s: Snapshot, d: map<string, Attr>, attrs: seq<string>): (t: Snapshot)
    ensures forall a ::
      Lookup(t, a) == (if a in attrs && a in Whitelist && a in d then Some(d[a]) else Lookup(s, a))
    decreases |attrs|
  {
    if attrs == [] then s
    else
      var init, last := attrs[..|attrs| - 1], attrs[|attrs| - 1];
      assert forall a :: a in attrs <==> a in init || a == last;
      var prev := AssignEach(s, d, init);
      if last in d then Assign(prev, last, d[last]) else prev
  }

  /** Registering one candidate object in a `models` dictionary: a named
      object of a new class becomes that class's base and only preset; a named
      object of a known class becomes (or replaces) the preset under its name;
      an object without a name changes nothing. */
  function WithModel(ms: Models, o: Obj): (r: Models)
    reads o
  {
    if !Named(o) then ms
    else if o.tag in ms then
      var e := ms[o.tag];
      ms[o.tag := e.(preset := e.preset[Key(NameOf(o)) := o])]
    else
      ms[o.tag := Entry(o, map[Key(NameOf(o)) := o])]
  }

  /** What registering one object does to the `models` dictionary. */
  lemma WithModelEffect(ms: Models, o: Obj)
    ensures !Named(o) ==> WithModel(ms, o) == ms
    ensures Named(o) && o.tag !in ms ==>
      var r := WithModel(ms, o);
      && r.Keys == ms.Keys + {o.tag}
      && r[o.tag] == Entry(o, map[Key(NameOf(o)) := o])
      && (forall t :: t in ms ==> r[t] == ms[t])
    ensures Named(o) && o.tag in ms ==>
      var r := WithModel(ms, o);
      && r.Keys == ms.Keys
      && r[o.tag].base == ms[o.tag].base
      && r[o.tag].preset.Keys == ms[o.tag].preset.Keys + {Key(NameOf(o))}
      && r[o.tag].preset[Key(NameOf(o))] == o
      && (forall n :: n in ms[o.tag].preset && n != Key(NameOf(o)) ==>
            r[o.tag].preset[n] == ms[o.tag].preset[n])
      && |r[o.tag].preset| <= |ms[o.tag].preset| + 1
      && (forall t :: t in ms && t != o.tag ==> r[t] == ms[t])
  {
  }

  /** The `models` dictionary built by registering `objs` one after the other,
      starting from an empty dictionary. */
  function Registered(objs: seq<Obj>): (r: Models)
    reads set o | o in objs
    decreases |objs|
  {
    if objs == [] then map[]
    else WithModel(Registered(objs[..|objs| - 1]), objs[|objs| - 1])
  }

  /** Every base object and every preset object is filed under its own class. */
  predicate Consistent(ms: Models) {
    forall t :: t in ms ==>
      && ms[t].base.tag == t
      && forall n :: n in ms[t].preset ==> ms[t].preset[n].tag == t
  }

  /** Registering an object files it under its own class. */
  lemma WithModelConsistent(ms: Models, o: Obj)
    requires Consistent(ms)
    ensures Consistent(WithModel(ms, o))
  {
  }

  /** Saving `o` in a cache attribute: stored under its current name when the
      attribute is a dictionary and `o` has a name; otherwise nothing changes. */
  function CachedUnder(c: Attr, o: Obj): (r: Attr)
    reads o
    ensures c.CacheDict? && Named(o) ==>
      && r.CacheDict?
      && r.cache.Keys == c.cache.Keys + {Key(NameOf(o))}
      && r.cache[Key(NameOf(o))] == o
      && forall n :: n in c.cache && n != Key(NameOf(o)) ==> r.cache[n] == c.cache[n]
    ensures !(c.CacheDict? && Named(o)) ==> r == c
  {
    if c.CacheDict? && Named(o) then CacheDict(c.cache[Key(NameOf(o)) := o]) else c
  }

  /** The class name Python reports for a cache lookup's result. */
  function ClassNameOf(target: Option<Obj>): (r: string) {
    match target
    case None => "NoneType"
    case Some(o) => o.tag
  }

  class ObjectModel {
    const attributes: seq<string> := Whitelist
    var name: Attr
    var models: Attr
    var cache: Attr

    function Current(): (r: Snapshot)
      reads this
    {
      Snapshot(name, models, cache)
    }

    /** Registers the base objects in order: the first object of a class
        becomes its base, every named object becomes the preset under its
        name, and an object without a name is skipped. */
    constructor (baseObjects: seq<Obj>, name: Attr, cache: Attr)
      ensures this.name == name && this.cache == cache
      ensures models == ModelsDict(Registered(baseObjects))
    {
      var ms: Models := map[];
      for i := 0 to |baseObjects|
        invariant ms == Registered(baseObjects[..i])
      {
        var item := baseObjects[i];
        ghost var before := ms;
        if "name" in item.fields {
          var itemName := item.fields["name"];
          if item.tag in ms {
            var e := ms[item.tag];
            ms := ms[item.tag := e.(preset := e.preset[Key(itemName) := item])];
          } else {
            ms := ms[item.tag := Entry(item, map[Key(itemName) := item])];
          }
        }
        // an item without a name is reported and skipped
        assert ms == WithModel(before, item);
        assert baseObjects[..i + 1][..i] == baseObjects[..i];
      }
      assert baseObjects[..|baseObjects|] == baseObjects;
      this.name := name;
      models := ModelsDict(ms);
      this.cache := cache;
    }

    // Getters and setters

    method SetName(name: Attr)
      modifies this
      ensures Current() == Assign(old(Current()), "name", name)
    {
      this.name := name;
    }

    function GetName(): (r: Attr)
      reads this
      ensures Lookup(Current(), "name") == Some(r)
    {
      name
    }

    method ClearName()
      modifies this
      ensures Current() == Assign(old(Current()), "name", Scalar(Nil))
    {
      name := Scalar(Nil);
    }

    method SetModels(modelsDict: Attr)
      modifies this
      ensures Current() == Assign(old(Current()), "models", modelsDict)
    {
      models := modelsDict;
    }

    function GetModels(): (r: Attr)
      reads this
      ensures Lookup(Current(), "models") == Some(r)
    {
      models
    }

    /** Unlike `ClearAttribute("models")`, leaves an empty dictionary. */
    method ClearModels()
      modifies this
      ensures Current() == Assign(old(Current()), "models", ModelsDict(map[]))
    {
      models := ModelsDict(map[]);
    }

    method SetCache(cacheDict: Attr)
      modifies this
      ensures Current() == Assign(old(Current()), "cache", cacheDict)
    {
      cache := cacheDict;
    }

    function GetCache(): (r: Attr)
      reads this
      ensures Lookup(Current(), "cache") == Some(r)
    {
      cache
    }

    /** Unlike `ClearAttribute("cache")`, leaves an empty dictionary. */
    method ClearCache()
      modifies this
      ensures Current() == Assign(old(Current()), "cache", CacheDict(map[]))
    {
      cache := CacheDict(map[]);
    }

    // Attribute methods

    /** The attribute list and the three whitelisted attributes, by name. */
    function ToDict(): (d: map<string, Attr>)
      reads this
      ensures d.Keys == {"attributes", "name", "models", "cache"}
      ensures d["attributes"] == Names(attributes)
      ensures forall a :: a in Whitelist ==> Lookup(Current(), a) == Some(d[a])
    {
      map["attributes" := Names(attributes), "name" := name, "models" := models, "cache" := cache]
    }

    /** `setattr(self, attribute, value)` for a whitelisted attribute. */
    method Store(attribute: string, value: Attr)
      requires attribute in Whitelist
      modifies this
      ensures Current() == Assign(old(Current()), attribute, value)
    {
      if attribute == "name" {
        name := value;
      } else if attribute == "models" {
        models := value;
      } else {
        cache := value;
      }
    }

    method SetAttribute(attributeName: string, attributeValue: Attr)
      modifies this
      ensures Current() == Assign(old(Current()), attributeName, attributeValue)
    {
      var i := 0;
      while i < |attributes|
        invariant 0 <= i <= |attributes|
        invariant attributeName !in attributes[..i]
        invariant Current() == old(Current())
      {
        if attributes[i] == attributeName {
          Store(attributes[i], attributeValue);
          break;
        }
        i := i + 1;
      }
    }

    method SetAttributes(attributeDict: map<string, Attr>)
      modifies this
      ensures Current() == AssignEach(old(Current()), attributeDict, attributes)
    {
      for i := 0 to |attributes|
        invariant Current() == AssignEach(old(Current()), attributeDict, attributes[..i])
      {
        if attributes[i] in attributeDict {
          Store(attributes[i], attributeDict[attributes[i]]);
        }
        assert attributes[..i + 1][..i] == attributes[..i];
      }
      assert attributes[..|attributes|] == attributes;
    }

    /** Sets a whitelisted attribute to None. */
    method ClearAttribute(attributeName: string)
      modifies this
      ensures Current() == Assign(old(Current()), attributeName, Scalar(Nil))
    {
      for i := 0 to |attributes|
        invariant Current() ==
          if attributeName in attributes[..i]
          then Assign(old(Current()), attributeName, Scalar(Nil))
          else old(Current())
      {
        if attributes[i] == attributeName {
          Store(attributes[i], Scalar(Nil));
        }
        assert attributes[..i + 1] == attributes[..i] + [attributes[i]];
      }
      assert attributes[..|attributes|] == attributes;
    }

    // Utility methods

    method ToCache(targetObject: Obj)
      modifies this
      ensures Current() == old(Current()).(cache := CachedUnder(old(cache), targetObject))
    {
      if cache.CacheDict? && "name" in targetObject.fields {
        cache := CacheDict(cache.cache[Key(targetObject.fields["name"]) := targetObject]);
      }
      // otherwise the object is reported as not saved
    }

    function FromCache(objectName: Value): (r: Option<Obj>)
      reads this
      requires cache.CacheDict?
      ensures r.Some? <==> exists n :: n in cache.cache && PyEq(n, objectName)
      ensures r.Some? ==> r.value == cache.cache[Key(objectName)]
    {
      if Key(objectName) in cache.cache then Some(cache.cache[Key(objectName)]) else None
    }

    // Primary methods

    /** The objects `Create` may rewrite: the base object of the class, if any. */
    function BaseOf(className: string): (r: set<Obj>)
      reads this
    {
      if models.ModelsDict? && className in models.models
      then {models.models[className].base} else {}
    }

    predicate Creatable(objectName: Value, className: string)
      reads this
    {
      models.ModelsDict? && className in models.models &&
      Key(objectName) in models.models[className].preset
    }

    /** What `Create(objectName, className)` does: on success the base object
        of the class takes the preset's attributes over its own, is saved in
        the cache under its new name and is returned; otherwise nothing
        changes and there is no result. */
    twostate predicate Created(objectName: Value, className: string, new r: Option<Obj>)
      reads this, BaseOf(className)
    {
      && models == old(models)
      && name == old(name)
      && if old(Creatable(objectName, className)) then
           var e := old(models.models[className]);
           && r == Some(e.base)
           && e.base.fields == old(e.base.fields) + old(e.preset[Key(objectName)].fields)
           && cache == CachedUnder(old(cache), e.base)
         else
           && r == None
           && cache == old(cache)
           && unchanged(BaseOf(className))
    }

    method Create(objectName: Value, className: string) returns (r: Option<Obj>)
      modifies this, BaseOf(className)
      ensures Created(objectName, className, r)
      ensures models.ModelsDict? && Consistent(models.models) && r.Some? ==>
        r.value.tag == className
    {
      if !models.ModelsDict? || className !in models.models {
        return None;
      }
      var newObject := models.models[className].base;
      var presets := models.models[className].preset;
      if Key(objectName) !in presets {
        return None;
      }
      var preset := presets[Key(objectName)].fields;
      var todo := preset.Keys;
      while todo != {}
        invariant todo <= preset.Keys
        invariant newObject.fields ==
          old(newObject.fields) + map k | k in preset && k !in todo :: preset[k]
        invariant unchanged(this)
        decreases todo
      {
        var k :| k in todo;
        newObject.fields := newObject.fields[k := preset[k]];
        todo := todo - {k};
      }
      assert (map k | k in preset && k !in todo :: preset[k]) == preset;
      ToCache(newObject);
      r := Some(newObject);
    }

    /** A cached object of the requested class is returned as it is. */
    predicate CacheHit(objectName: Value, className: string)
      reads this
    {
      && models.ModelsDict? && className in models.models
      && cache.CacheDict? && Key(objectName) in cache.cache
      && cache.cache[Key(objectName)].tag == className
    }

    method Get(objectName: Value, className: string) returns (r: Option<Obj>)
      requires models.ModelsDict?
      requires className in models.models ==> cache.CacheDict?
      modifies this, BaseOf(className)
      ensures className !in old(models.models) ==> r == None && unchanged(this)
      ensures old(CacheHit(objectName, className)) ==>
        r == Some(old(cache.cache[Key(objectName)])) && unchanged(this) &&
        unchanged(BaseOf(className))
      ensures className in old(models.models) && !old(CacheHit(objectName, className)) ==>
        Created(objectName, className, r)
      ensures Consistent(models.models) && r.Some? ==> r.value.tag == className
    {
      if className !in models.models {
        // reported: not in models
        return None;
      }
      var targetObject := FromCache(objectName);
      if ClassNameOf(targetObject) != className || targetObject == None {
        r := Create(objectName, className);
      } else {
        r := targetObject;
      }
    }

    method AddModel(targetObject: Obj)
      modifies this
      ensures name == old(name) && cache == old(cache)
      ensures models ==
        if old(models).ModelsDict?
        then ModelsDict(WithModel(old(models).models, targetObject))
        else old(models)
    {
      if !models.ModelsDict? {
        // the membership test fails on a non-dictionary: reported, nothing changes
        return;
      }
      var tag := targetObject.tag;
      if "name" !in targetObject.fields {
        // reading the name fails before any assignment: reported, nothing changes
        return;
      }
      var targetName := targetObject.fields["name"];
      var ms := models.models;
      if tag in ms {
        var e := ms[tag];
        models := ModelsDict(ms[tag := e.(preset := e.preset[Key(targetName) := targetObject])]);
      } else {
        models := ModelsDict(ms[tag := Entry(targetObject, map[Key(targetName) := targetObject])]);
      }
    }

    /** Replaces all registrations with the given dictionary. */
    method LoadModels(modelDict: Attr)
      modifies this
      ensures Current() == old(Current()).(models := modelDict)
    {
      ClearModels();
      SetModels(modelDict);
    }
  }

  /** Writing `ToDict()` back with `SetAttributes` changes nothing. */
  lemma SetAttributesOfToDict(om: ObjectModel)
    ensures AssignEach(om.Current(), om.ToDict(), om.attributes) == om.Current()
  {
  }
}
