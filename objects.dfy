/**
  The objects a registry works with: Python values as they appear in object
  attributes, and the candidate objects themselves.

  A candidate object is a heap object with a class name (its type tag, the
  `__class__.__name__` of the Python object) and a mutable attribute
  dictionary (its `__dict__`). Registering an object, materialising an
  instance and caching it all work on these objects by reference.
 */
module Objects {

  datatype Option<+T> = None | Some(value: T)

  /** The attribute values an object can carry. Any of them may serve as an
      instance name: the registry keys presets and the cache by the value of
      an object's `name` attribute. */
  datatype Value = Nil | Bool(b: bool) | Int(i: int) | Str(s: string)

  /** Python's `==` on values: a bool equals the integer it stands for
      (`True == 1`, `False == 0`); otherwise values are equal only when they
      are the same value. */
  predicate PyEq(v: Value, w: Value) {
    match (v, w)
    case (Bool(b), Int(i)) => i == (if b then 1 else 0)
    case (Int(i), Bool(b)) => i == (if b then 1 else 0)
    case _ => v == w
  }

  /** A name as a dictionary key: bools are filed under their integers. */
  type Name = v: Value | !v.Bool? witness Nil

  /** The value a dictionary keyed by instance names files `v` under. Python
      dictionaries identify keys that are equal and hash alike, and `True`,
      `1` (and `False`, `0`) are such keys, so a bool is filed under its
      integer. */
  function Key(v: Value): (k: Name)
    ensures PyEq(v, k)
  {
    if v.Bool? then Int(if v.b then 1 else 0) else v
  }

  /** Two names select the same dictionary entry exactly when Python finds
      them equal. */
  lemma KeyIdentifiesEqualNames(v: Value, w: Value)
    ensures Key(v) == Key(w) <==> PyEq(v, w)
  {
  }

  /** A candidate object: a type tag fixed at creation and an attribute map
      that setattr updates in place. */
  class Obj {
    const tag: string
    var fields: map<string, Value>

    constructor (tag: string, fields: map<string, Value>)
      ensures this.tag == tag && this.fields == fields
    {
      this.tag := tag;
      this.fields := fields;
    }
  }

  /** The object has a `name` attribute (reading `obj.name` does not raise). */
  predicate Named(o: Obj)
    reads o
  {
    "name" in o.fields
  }

  function NameOf(o: Obj): (r: Value)
    reads o
    requires Named(o)
  {
    o.fields["name"]
  }
}
