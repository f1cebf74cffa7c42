/**
  What the constructor's registration loop builds from its list of base
  objects. `Registered(objs)` registers the objects one after the other, as
  `AddModel` would; the lemmas below say, for any list, which class entries
  exist, which object is the base of each, which object each preset refers
  to, and that every entry is filed under its objects' own class.
 */
module Registration {
  import opened Objects
  import opened Core

  /** There is one entry per class of a named object in the list, and no
      other: an object without a name is skipped, the others still register. */
  lemma {:induction false} RegisteredTags(objs: seq<Obj>)
    ensures forall i :: 0 <= i < |objs| && Named(objs[i]) ==> objs[i].tag in Registered(objs)
    ensures forall t :: t in Registered(objs) ==>
      exists i :: 0 <= i < |objs| && Named(objs[i]) && objs[i].tag == t
    decreases |objs|
  {
    if objs != [] {
      var init, last := objs[..|objs| - 1], objs[|objs| - 1];
      RegisteredTags(init);
      forall i | 0 <= i < |objs| && Named(objs[i])
        ensures objs[i].tag in Registered(objs)
      {
        if i < |init| {
          assert init[i] == objs[i];
        }
      }
      forall t | t in Registered(objs)
        ensures exists i :: 0 <= i < |objs| && Named(objs[i]) && objs[i].tag == t
      {
        if t in Registered(init) {
          var j :| 0 <= j < |init| && Named(init[j]) && init[j].tag == t;
          assert objs[j] == init[j];
        } else {
          assert objs[|objs| - 1] == last;
        }
      }
    }
  }

  /** The base of a class is the first named object of that class in the list. */
  lemma {:induction false} RegisteredBaseIsFirst(objs: seq<Obj>, i: int)
    requires 0 <= i < |objs| && Named(objs[i])
    requires forall j :: 0 <= j < i && Named(objs[j]) ==> objs[j].tag != objs[i].tag
    ensures objs[i].tag in Registered(objs)
    ensures Registered(objs)[objs[i].tag].base == objs[i]
    decreases |objs|
  {
    var init := objs[..|objs| - 1];
    if i == |objs| - 1 {
      RegisteredTags(init);
      forall j | 0 <= j < |init| && Named(init[j])
        ensures init[j].tag != objs[i].tag
      {
        assert init[j] == objs[j];
      }
    } else {
      assert init[i] == objs[i];
      RegisteredBaseIsFirst(init, i);
    }
  }

  /** The preset under a name is the last named object of the class that
      carries that name, or a name Python finds equal to it: a later
      registration overwrites an earlier one. */
  lemma {:induction false} RegisteredPresetIsLast(objs: seq<Obj>, i: int)
    requires 0 <= i < |objs| && Named(objs[i])
    requires forall j :: i < j < |objs| && Named(objs[j]) && objs[j].tag == objs[i].tag ==>
      !PyEq(NameOf(objs[j]), NameOf(objs[i]))
    ensures objs[i].tag in Registered(objs)
    ensures Key(NameOf(objs[i])) in Registered(objs)[objs[i].tag].preset
    ensures Registered(objs)[objs[i].tag].preset[Key(NameOf(objs[i]))] == objs[i]
    decreases |objs|
  {
    var init := objs[..|objs| - 1];
    if i < |objs| - 1 {
      assert init[i] == objs[i];
      RegisteredPresetIsLast(init, i);
    }
  }

  /** Every preset refers to an object of the list that has that class and
      carries that name (or one Python finds equal to it). */
  lemma {:induction false} RegisteredPresetsFromList(objs: seq<Obj>)
    ensures forall t, n :: t in Registered(objs) && n in Registered(objs)[t].preset ==>
      exists i :: 0 <= i < |objs| && objs[i] == Registered(objs)[t].preset[n] &&
        Named(objs[i]) && PyEq(NameOf(objs[i]), n) && objs[i].tag == t
    decreases |objs|
  {
    if objs != [] {
      var init, last := objs[..|objs| - 1], objs[|objs| - 1];
      var r, p := Registered(objs), Registered(init);
      RegisteredPresetsFromList(init);
      forall t, n | t in r && n in r[t].preset
        ensures exists i ::
          0 <= i < |objs| && objs[i] == r[t].preset[n] && Named(objs[i]) && PyEq(NameOf(objs[i]), n) && objs[i].tag == t
      {
        if Named(last) && t == last.tag && n == Key(NameOf(last)) {
          assert objs[|objs| - 1] == last;
        } else {
          assert t in p && n in p[t].preset && r[t].preset[n] == p[t].preset[n];
          var j :| 0 <= j < |init| && init[j] == p[t].preset[n] &&
            Named(init[j]) && PyEq(NameOf(init[j]), n) && init[j].tag == t;
          assert objs[j] == init[j];
        }
      }
    }
  }

  /** Registration files every object under its own class. */
  lemma {:induction false} RegisteredConsistent(objs: seq<Obj>)
    ensures Consistent(Registered(objs))
    decreases |objs|
  {
    if objs != [] {
      RegisteredConsistent(objs[..|objs| - 1]);
    }
  }
  /** One named object yields one class entry whose base is that object and
      whose only preset is that object under its name. */
  lemma RegisteredSingle(a: Obj)
    requires Named(a)
    ensures Registered([a]) == map[a.tag := Entry(a, map[Key(NameOf(a)) := a])]
  {
  }

  /** A second object of the same class under a name Python finds different
      adds a second preset and leaves the base alone. */
  lemma RegisteredSecondOfClass(a: Obj, b: Obj)
    requires Named(a) && Named(b) && a.tag == b.tag && !PyEq(NameOf(a), NameOf(b))
    ensures Registered([a, b]) == map[a.tag := Entry(a, map[Key(NameOf(a)) := a, Key(NameOf(b)) := b])]
  {
    assert [a, b][..1] == [a];
    RegisteredSingle(a);
  }

  /** A second object of the same class under the same name, or one Python
      finds equal to it (`1` after `True`), replaces the preset: there is
      still one preset, and the base is the first object. */
  lemma RegisteredSameName(a: Obj, b: Obj)
    requires Named(a) && Named(b) && a.tag == b.tag && PyEq(NameOf(a), NameOf(b))
    ensures Registered([a, b]) == map[a.tag := Entry(a, map[Key(NameOf(b)) := b])]
  {
    assert [a, b][..1] == [a];
    RegisteredSingle(a);
    KeyIdentifiesEqualNames(NameOf(a), NameOf(b));
    assert map[Key(NameOf(a)) := a][Key(NameOf(b)) := b] == map[Key(NameOf(b)) := b];
  }
}
