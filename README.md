# ObjectModel registry in Dafny

This project models `ObjectModel`, the class in `src/SnSObjectModel/core/objectmodel.py`
that makes up the whole of the SnSObjectModel package. An `ObjectModel` is a
registry of prototype objects grouped by class name. It has three
attributes:

- `name`: the registry's name.
- `models`: a dictionary from a class name to an entry. The entry holds the
  `base` object of that class and a `preset` dictionary from an instance name
  to the attribute dictionary of the object registered under that name.
- `cache`: a flat dictionary from an instance name to the object last
  materialised or saved under it.

`create` writes a preset's attributes onto the class's single base object in
place, caches that object and returns it. `get` returns a cached object of the
requested class if there is one and falls back to `create` otherwise.

## How the model is built

- `objects.dfy` (module `Objects`) defines attribute values (`Value`: None, bool,
  int, str) and candidate objects. A candidate object is a heap object `Obj`
  with a constant class name `tag` and a mutable attribute map `fields`. An
  object is named when `"name"` is among its fields. Preset and cache
  dictionaries are keyed by `Name`, the value `Key` files an instance name
  under. Python's dictionaries treat `True` and `1`, and `False` and `0`, as
  the same key, so `Key` turns a bool into its integer and `PyEq` is Python's
  `==` on these values. When an equal key is already present, Python keeps the
  key it stored first and replaces only the value (`preset[1] = …` after
  `preset[True]` leaves the key `True`), where the model stores `Int(1)`; the
  difference shows only in the key type of the dictionaries `get_models`,
  `get_cache` and `to_dict` return, which Python finds equal either way.
- `objectmodel.dfy` (module `Core`) holds the class `ObjectModel`. Its fields
  `name`, `models` and `cache` are reassigned by its methods, as in the
  source. Each field holds an `Attr`, because the generic setters can store
  any value in any of them. An `Attr` is a scalar, the attribute-name list, a
  models dictionary or a cache dictionary.
  - Presets are stored as the object whose `__dict__` the source stores, so a
    preset is an alias and not a copy. `create` is a loop that writes the
    preset's attributes one by one onto the base object. Its contract is
    `base.fields == old(base.fields) + old(preset.fields)`.
  - The source's swallowed exceptions are modelled as `None` results or as
    "nothing changes".
  - The module also holds the pure functions the methods are specified by:
    - `WithModel` registers one object.
    - `Registered` is the constructor's fold over its list.
    - `Assign` and `AssignEach` are the whitelisted `setattr`.
    - `CachedUnder` is `to_cache`.
- `registration.dfy` (module `Registration`) proves by induction what the
  constructor builds from any list of base objects. The tags it holds are
  exactly the classes of the named objects. Each class's base is the first
  named object of that class. Each preset is the last object registered under
  that name. Every object is filed under its own class.
- `scenarios.dfy` (module `Scenarios`) has client methods that are verified
  against the class's contracts only:
  - the goblin scenario, in which a cached object is returned with the
    caller's changes;
  - two calls to `get` in a row returning the same object;
  - `get` finding nothing after `clear_models`;
  - registration by repeated `add_model` agreeing with the constructor;
  - the shared-base scenario;
  - two Monsters named `True` and then `1` sharing one preset.

### Behaviour worth noting

- **Presets are live.** A preset is not a snapshot taken at registration
  time. The code stores `item.__dict__` itself
  (`objectmodel.py:40`, `:45`, `:182`, `:187`). So the preset under the base
  object's own name is the base object's live attribute dictionary, and a
  `create` for another instance overwrites it.
  `Scenarios.SharedBaseScenario` shows the consequence. With a goblin and an
  orc registered, `get("orc")` followed by `get("goblin")` returns the object
  carrying the orc's name and hit points.
- **`create` caches under the object's new name.** It does not use the
  requested instance name. It calls `to_cache`, which uses the object's `name`
  attribute after the preset has been applied (`objectmodel.py:141`, `:160`).
- **`get` does not crash on a cache miss.** The code compares the class name of
  the cache lookup before testing it for `None` (`objectmodel.py:173`). A miss
  reports the class name `"NoneType"`, and the second test catches the case
  where the requested class is itself called `"NoneType"`. A miss therefore
  always reaches `create`.
- **Equal names share an entry.** Two objects of one class named `True` and
  `1` share one preset, the one registered last. `Scenarios.BoolAndIntNames`
  shows `get(1, "Monster")` applying the second object's attributes.

## Model

| member | source | states |
|---|---|---|
| `Objects.Key` | src/SnSObjectModel/core/objectmodel.py:40 | a name is filed under a key Python finds equal to it, and never under a bool |
| `Objects.KeyIdentifiesEqualNames` | src/SnSObjectModel/core/objectmodel.py:40 | two names select the same preset or cache entry exactly when Python's `==` finds them equal |
| `Core.Lookup` | src/SnSObjectModel/core/objectmodel.py:33 | exactly the three attributes `name`, `models`, `cache` can be read by name |
| `Core.Assign` | src/SnSObjectModel/core/objectmodel.py:108-116 | setting a whitelisted attribute changes that attribute alone; any other name changes nothing |
| `Core.AssignEach` | src/SnSObjectModel/core/objectmodel.py:119-127 | after applying a dictionary, each whitelisted attribute it has a key for holds that key's value and every other attribute keeps its value |
| `Core.WithModel` | src/SnSObjectModel/core/objectmodel.py:39-47 | one registration step, as the constructor's loop body and `add_model` (lines 181-189) perform it; its properties are stated by `Core.WithModelEffect` |
| `Core.Registered` | src/SnSObjectModel/core/objectmodel.py:37-47 | the constructor's loop as a left fold of `WithModel` from an empty dictionary; its properties are stated by the `Registration` lemmas |
| `Core.WithModelEffect` | src/SnSObjectModel/core/objectmodel.py:179-191 | registering a named object of a new class adds exactly one entry, with the object as base and as the only preset under its name, and leaves the other entries alone. For a known class it keeps the base and all other presets, sets the preset under the object's name, and grows the preset dictionary by at most one. An object without a name changes nothing |
| `Core.WithModelConsistent` | src/SnSObjectModel/core/objectmodel.py:179-191 | registration keeps every base and every preset filed under its own class |
| `Core.CachedUnder` | src/SnSObjectModel/core/objectmodel.py:139-143 | saving into a cache dictionary stores the object under its current name and leaves other names alone; an object without a name, or a cache attribute that is not a cache dictionary, is left unchanged (see "Left out" for a list-valued cache) |
| `Core.ClassNameOf` | src/SnSObjectModel/core/objectmodel.py:173 | `__class__.__name__` of a cache lookup's result: the object's class, or `"NoneType"` on a miss |
| `Core.SetAttributesOfToDict` | src/SnSObjectModel/core/objectmodel.py:93-127 | writing `to_dict()` back with `set_attributes` leaves the registry unchanged |
| `Core.ObjectModel.constructor` | src/SnSObjectModel/core/objectmodel.py:25-51 | `models` is the result of registering the base objects in list order, starting from an empty dictionary and skipping objects without a name; `name` and `cache` are the given values |
| `Core.ObjectModel.SetName` | src/SnSObjectModel/core/objectmodel.py:60-61 | same effect as `set_attribute("name", v)` |
| `Core.ObjectModel.GetName` | src/SnSObjectModel/core/objectmodel.py:63-64 | returns what reading the attribute `name` by name gives |
| `Core.ObjectModel.ClearName` | src/SnSObjectModel/core/objectmodel.py:66-67 | same effect as `clear_attribute("name")`: `name` becomes None, nothing else changes |
| `Core.ObjectModel.SetModels` | src/SnSObjectModel/core/objectmodel.py:69-70 | same effect as `set_attribute("models", d)` |
| `Core.ObjectModel.GetModels` | src/SnSObjectModel/core/objectmodel.py:72-73 | returns what reading the attribute `models` by name gives |
| `Core.ObjectModel.ClearModels` | src/SnSObjectModel/core/objectmodel.py:75-76 | `models` becomes an empty dictionary (not None), nothing else changes |
| `Core.ObjectModel.SetCache` | src/SnSObjectModel/core/objectmodel.py:78-79 | same effect as `set_attribute("cache", d)` |
| `Core.ObjectModel.GetCache` | src/SnSObjectModel/core/objectmodel.py:81-82 | returns what reading the attribute `cache` by name gives |
| `Core.ObjectModel.ClearCache` | src/SnSObjectModel/core/objectmodel.py:84-85 | `cache` becomes an empty dictionary (not None), nothing else changes |
| `Core.ObjectModel.ToDict` | src/SnSObjectModel/core/objectmodel.py:93-105 | the result has exactly the keys `attributes`, `name`, `models`, `cache`; it holds the attribute list and each whitelisted attribute's current value |
| `Core.ObjectModel.Store` | src/SnSObjectModel/core/objectmodel.py:115 | `setattr` on a whitelisted attribute changes that attribute alone |
| `Core.ObjectModel.SetAttribute` | src/SnSObjectModel/core/objectmodel.py:108-116 | the new state is `Assign(old state, name, value)`: only a whitelisted attribute of that name changes, and an unknown name is ignored |
| `Core.ObjectModel.SetAttributes` | src/SnSObjectModel/core/objectmodel.py:119-127 | the new state is `AssignEach(old state, d, attributes)`: whitelisted keys of `d` are applied and other keys are ignored |
| `Core.ObjectModel.ClearAttribute` | src/SnSObjectModel/core/objectmodel.py:131-134 | a whitelisted attribute becomes None; an unknown name is ignored |
| `Core.ObjectModel.ToCache` | src/SnSObjectModel/core/objectmodel.py:139-143 | only `cache` changes, and it changes as `CachedUnder` says |
| `Core.ObjectModel.FromCache` | src/SnSObjectModel/core/objectmodel.py:146-150 | returns an object exactly when the cache holds a name Python finds equal to the requested one, and that object is the one cached under it |
| `Core.ObjectModel.Create` | src/SnSObjectModel/core/objectmodel.py:155-164 | with an unknown class, a missing preset or a `models` that is not a dictionary, returns None and changes neither `models`, `cache` nor the base object. Otherwise it returns the very base object of the class, whose attributes become its old ones overridden by the preset's, and caches it under its updated name. `models` and `name` never change. A consistent registry returns an object of the requested class |
| `Core.ObjectModel.Get` | src/SnSObjectModel/core/objectmodel.py:167-176 | with an unknown class, returns None and changes nothing. With an object of the requested class cached under the name, returns that object and changes nothing. In every other case, including a cache miss, it does what `Create` does |
| `Core.ObjectModel.AddModel` | src/SnSObjectModel/core/objectmodel.py:179-191 | `models` becomes `WithModel(old models, target)`; when `models` is not a dictionary nothing changes; `name` and `cache` never change |
| `Core.ObjectModel.LoadModels` | src/SnSObjectModel/core/objectmodel.py:194-196 | `models` becomes the given value and nothing else changes |
| `Registration.RegisteredTags` | src/SnSObjectModel/core/objectmodel.py:35-51 | the classes registered from a list are exactly the classes of its named objects; unnamed objects are skipped without stopping the others |
| `Registration.RegisteredBaseIsFirst` | src/SnSObjectModel/core/objectmodel.py:37-47 | the base of a class is the first named object of that class in the list |
| `Registration.RegisteredPresetIsLast` | src/SnSObjectModel/core/objectmodel.py:37-47 | the preset under a name is the last object of that class registered under that name or one equal to it |
| `Registration.RegisteredPresetsFromList` | src/SnSObjectModel/core/objectmodel.py:37-47 | every preset is an object of the list that has that class and carries a name equal to the preset's key |
| `Registration.RegisteredConsistent` | src/SnSObjectModel/core/objectmodel.py:35-51 | a registry built by the constructor files every object under its own class |
| `Registration.RegisteredSingle` | src/SnSObjectModel/core/objectmodel.py:41-47 | one named object gives one entry: that object as base and as the only preset |
| `Registration.RegisteredSecondOfClass` | src/SnSObjectModel/core/objectmodel.py:39-40 | a second object of the class under a name Python finds different adds a second preset and keeps the base |
| `Registration.RegisteredSameName` | src/SnSObjectModel/core/objectmodel.py:39-40 | a second object of the class under an equal name (the same, or `1` after `True`) replaces that preset without adding one |
| `Scenarios.GoblinScenario` | src/SnSObjectModel/core/objectmodel.py:167-176 | `get` materialises the goblin, and after the caller changes its hit points a second `get` returns the same changed object |
| `Scenarios.BoolAndIntNames` | src/SnSObjectModel/core/objectmodel.py:37-47 | with Monsters named `True` and then `1`, `get(1, "Monster")` returns the first object carrying the second one's attributes |
| `Scenarios.SharedBaseScenario` | src/SnSObjectModel/core/objectmodel.py:155-176 | after `get("orc")`, `get("goblin")` returns the shared base object still carrying the orc's attributes, because presets are live |
| `Scenarios.ClearModelsThenGet` | src/SnSObjectModel/core/objectmodel.py:167-170 | after `clear_models`, `get` returns None for any class and leaves every attribute as `clear_models` left it |
| `Scenarios.GetTwice` | src/SnSObjectModel/core/objectmodel.py:167-176 | when the preset carries its own name, two calls to `get` in a row return the same object of the requested class, and together they have the effect of the first call alone: the second call changes nothing |
| `Scenarios.RegisterOneByOne` | src/SnSObjectModel/core/objectmodel.py:179-191 | calling `add_model` on each object in turn gives the registry the constructor builds from the list |

## Left out

- Logging with `print` (`objectmodel.py:49`, `:143`, `:163`, `:169`), `__str__` and `__repr__`, and the unused `import os`. These are output and presentation only.
- Mutable default arguments (`objectmodel.py:25`). The constructor takes its three arguments explicitly.
- General Python reflection. An object is a class name plus an attribute map whose values are None, booleans, integers or strings. Objects without a `__dict__`, and attribute values of other types, are not modelled.
- The registry's dictionaries are values here, not shared references. Suppose a caller keeps a dictionary it passed to `set_models`, `set_cache`, `load_models` or the constructor, or one it got from `get_models`, `get_cache` or `to_dict`. The model does not capture that the caller and the registry then change each other's dictionary in place. The objects themselves (base objects, presets, cached objects) are heap objects, and their sharing is modelled.
- Core.ObjectModel.AddModel: a `models` attribute that holds a dictionary of another shape (for example a cache dictionary stored with `set_attribute`) is treated like a non-dictionary. In Python such a dictionary would be read and written as a dictionary. The same holds for `Create` and `ToCache`.
- Core.ObjectModel.Create: a `models` entry that lacks its `base` or `preset` key (possible only through `set_models`/`load_models` with a hand-built dictionary) is not modelled. Every entry has both.
- Core.ObjectModel.Get: requires `models` to be a dictionary, and also `cache` when the class is registered. When `models` is None, a bool or an int (for example after `clear_attribute("models")`), the test at `objectmodel.py:168` raises an uncaught `TypeError`. When it is a string, the list of attribute names or a cache dictionary, that test is a substring, membership or key test and raises nothing; `get` then returns a cached object of the class or ends in `create`'s caught failure (None). These cases are not modelled, and neither are the same cases for `cache` in `from_cache`.
- Core.ObjectModel.FromCache: requires `cache` to be a dictionary. For None, a bool or an int the test at `objectmodel.py:147` raises an uncaught `TypeError`. For a string cache the test is a substring test when the name is a string, and raises an uncaught `TypeError` when the name is None, a bool or an int. For a list or a models dictionary it is a membership or key test. Where the test raises nothing, an absent name gives None, and a present one raises or returns what the string, list or dictionary holds. These cases are not modelled.
- Core.CachedUnder: a cache attribute that holds a list (for example after `set_cache(["a", "b"])`) is left unchanged. In Python, `self.cache[target_object.name] = target_object` (`objectmodel.py:141`) succeeds on a list when the name is an int or bool within the list's index range, and replaces that element with the object (`["a", "b"]` becomes `[o, "b"]` for a name `0`). An `Attr` list holds only attribute names, not objects, so this state is not modelled.
- Core.ObjectModel.ToCache: inherits that case from `CachedUnder`: on a list-valued cache and an int or bool name within range, the source writes the object into the list, and the model leaves the cache unchanged.
- Core.ObjectModel.Create: inherits the same case through its call to `to_cache` (`objectmodel.py:160`): the object is written into a list-valued cache by the source, while the model leaves the cache unchanged.
- `to_dict` returns the registry's own attribute list (`objectmodel.py:99`), so a caller that extends that list extends the whitelist of `set_attribute`, `set_attributes` and `clear_attribute`. The model keeps the whitelist constant (`const attributes`).
- Dictionary keys of other Python types: `Key` covers the bool/int identification among None, bools, integers and strings. Floats such as `1.0`, which Python also finds equal to `1`, are not attribute values here.
- The order in which `create` applies a preset's attributes. Python follows the dictionary's insertion order; the model takes the keys in any order. Keys are distinct, so the result is the same.
- `setup.py`, the packaging script. It has no registry logic.
