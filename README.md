# superdelegate, modelled in Dafny

superdelegate lets a Python class forward attribute reads and writes to one of
its fields. In the class body, `name = delegate_to('field')` places a marker.
When the class derives from `SuperDelegate`, its metaclass replaces every
marker in the class dictionary with a property. That property's getter reads
`getattr(getattr(self, 'field'), 'name')`. Its setter runs
`setattr(getattr(self, 'field'), 'name', value)`. A class that does not derive
from the base keeps the bare marker, and calling that marker raises
`BadDelegateSetup`.

The model has two modules:

- `SuperDelegate` (`superdelegate.dfy`), which mirrors `superdelegate/__init__.py`:
  - The host object model is an explicit store `map<ObjId, Obj>`. Each object has an attribute table of slots (value, writable or not) and a flag saying whether `setattr` may add new attributes (`__dict__`). `GetAttr` and `SetAttr` are the two primitives.
  - The marker `delegate_to` is the immutable datatype `DelegateTo(prop)`. Its `Call` always fails with `BadDelegateSetup`.
  - The property from `make_property` is the datatype `Accessor(delegateeName, key)`. Its getter `Get` is a pure two-step lookup. Its setter is specified by the pure `Set`, which gives the new store. `ObjectSpace.Setter` performs the same write, updating the store of class `ObjectSpace` in place.
  - `SuperDelegateMeta.__new__` is the method `MetaNew`. It collects the `(name, marker)` pairs of the class dictionary (`CollectDelegates`), then overwrites each marker entry in a loop. It is proved equal to the function `Rewritten`, which states what the rewrite means. `DefineClass(dct, derivesFromBase)` picks the rewritten or the unchanged dictionary. `InstanceGet` and `InstanceSet` are a reduced form of instance attribute access: a property of the class first, then the instance's own attributes, then a plain class attribute.
- `Scenarios` (`scenarios.dfy`) restates the situations of `superdelegate/tests.py` as lemmas over concrete class bodies and stores.

The base class `SuperDelegate` has an empty body. Rewriting it is `Rewritten` applied to a dictionary with no marker, which leaves it unchanged.

## Model

| member | source | states |
|---|---|---|
| SuperDelegate.DelegateTo.Call | superdelegate/__init__.py:8-9 | calling a marker, with any positional and keyword arguments, fails with BadDelegateSetup and never yields a value |
| SuperDelegate.GetAttr | superdelegate/__init__.py:13-14 | `getattr(target, name)` succeeds iff target is an object with attribute name, returns that attribute's value, and otherwise fails with AttributeError(name) |
| SuperDelegate.SetAttr | superdelegate/__init__.py:17-18 | `setattr(target, name, v)` fails only with AttributeError(name) or ReadOnlyAttribute(name); on success it changes only target's attribute name, now v and writable, and keeps every other object and the set of objects |
| SuperDelegate.SetAttrEffect | superdelegate/__init__.py:18 | a successful `setattr` on the delegatee makes the attribute read back as the written value and changes no other attribute of any object and no object's existence |
| SuperDelegate.SetAttrFailures | superdelegate/__init__.py:18 | `setattr` fails exactly on a non-object, on an attribute with no writable slot, and on a new name for an object without `__dict__`; the error is ReadOnlyAttribute(name) exactly in the second case and AttributeError(name) exactly in the other two |
| SuperDelegate.Accessor.Get | superdelegate/__init__.py:12-15 | the getter succeeds iff the instance has the field and the object in it has the key; it then returns that object's attribute; a missing field fails with AttributeError(field), a missing key with AttributeError(key) |
| SuperDelegate.Accessor.Set | superdelegate/__init__.py:16-18 | the setter fails with AttributeError(field) when the instance lacks the field; otherwise it is exactly `setattr(key)` on the object currently in the field |
| SuperDelegate.WriteThenRead | superdelegate/__init__.py:16-18 | after a successful write of v, the container's field still holds the same delegatee, the delegatee's attribute is v, and a read through the accessor returns v, unless the delegatee is the container itself and key is that same field |
| SuperDelegate.WriteReadOnly | superdelegate/__init__.py:12-18 | when the delegatee has the attribute, a write fails with ReadOnlyAttribute iff its slot is not writable, while reading it still succeeds with its value |
| SuperDelegate.ErrorsPropagate | superdelegate/__init__.py:12-18 | an error of the field lookup is what both getter and setter return, and an error of the forwarded lookup is what the getter returns, untranslated |
| SuperDelegate.AccessorsNeverRaiseBadSetup | superdelegate/__init__.py:11-19 | neither the getter nor the setter ever fails with BadDelegateSetup, which only calling a marker raises |
| SuperDelegate.ReassignedFieldIsFollowed | superdelegate/__init__.py:13-18 | after the container's field is reassigned to d2, reads and writes through the accessor go to d2 (no cached delegatee); for d2 other than the container, the read sees d2's earlier value |
| SuperDelegate.AccessorsDoNotInterfere | superdelegate/__init__.py:13-18 | a write through one accessor leaves what another accessor reads unchanged unless it wrote the other's field on the container or the other's key on the other's delegatee |
| SuperDelegate.ObjectSpace.WriteAttr | superdelegate/__init__.py:18 | `setattr` updates the store in place to the store SetAttr gives, and on failure leaves the store unchanged and returns the error |
| SuperDelegate.ObjectSpace.Setter | superdelegate/__init__.py:16-18 | the setter resolves the field now and writes the key on that object in place; the new store and outcome are those of Accessor.Set, and after success (outside the self-field alias) the getter reads the written value |
| SuperDelegate.Rewritten | superdelegate/__init__.py:23-25 | the rewrite keeps the key set, leaves no marker, maps each key holding Marker(f) to Accessor(f, key), leaves every other entry untouched, and changes an entry iff it was a marker |
| SuperDelegate.RewriteIdempotent | superdelegate/__init__.py:23-25 | rewriting an already rewritten dictionary changes nothing |
| SuperDelegate.SharedMarker | superdelegate/__init__.py:23-25 | one marker bound to several names yields one accessor per name, all on the marker's field, each forwarding its own name, so they are pairwise distinct |
| SuperDelegate.CollectDelegates | superdelegate/__init__.py:23 | the collected list holds exactly the (name, marker) entries of the dictionary, each name once |
| SuperDelegate.MetaNew | superdelegate/__init__.py:22-26 | overwriting each collected marker entry in a loop yields exactly the rewritten dictionary |
| SuperDelegate.DefineClass | superdelegate/__init__.py:26-29 | building a class keeps its key set; without the `SuperDelegate` base the dictionary is kept as declared; a name holds a marker afterwards iff the class lacks the base and the name was declared as a marker; non-marker entries are kept either way |
| SuperDelegate.InstanceGet | superdelegate/tests.py:49-54 | reading an attribute on an instance: a class property answers through its getter; otherwise the instance's own attribute; otherwise the plain class attribute, such as a surviving marker; otherwise AttributeError(name); never BadDelegateSetup |
| SuperDelegate.InstanceSet | superdelegate/tests.py:52-58 | writing an attribute on an instance: a class property takes the write through its setter, otherwise `setattr` on the instance; never BadDelegateSetup |
| SuperDelegate.DelegatedNameForwards | superdelegate/__init__.py:11-25 | in a class deriving from the base, reading or writing a delegated name on an instance is getattr or setattr of that same name on the object currently in the marker's field, or AttributeError(field) when the field is missing |
| SuperDelegate.UnrewrittenMarkerFails | superdelegate/__init__.py:4-9 | without the base, a marker survives class creation, reads back as the marker itself from an instance that does not shadow it, and calling it fails with BadDelegateSetup; with the base it is gone |
| Scenarios.MissingBaseScenario | superdelegate/tests.py:4-9 | class without the base: `iu.x` is the marker, and `iu.x('any args', even='keywords')` raises BadDelegateSetup |
| Scenarios.SharedMarkerScenario | superdelegate/tests.py:16 | `__getitem__ = __len__ = __iter__ = delegate_to('_lst')` yields three accessors on `_lst`, each forwarding its own name, and no `__setitem__` |
| Scenarios.PropertyDelegationScenario | superdelegate/tests.py:42-58 | `name` and `age` read through to the holder; writing age 14 is seen through the container and on the holder; `example._prop_holder.age` is 14; writing `name` (no setter) fails with ReadOnlyAttribute, the model's form of the AttributeError the test expects |
| Scenarios.MultipleDelegatesScenario | superdelegate/tests.py:61-78 | two names delegated to two fields each reach only their own delegatee |

## Left out

- Python's class machinery is not modelled: `type.__new__`, the descriptor protocol, the method resolution order and inherited attributes. Class creation is the explicit step `DefineClass`. Instance access is the three-step lookup in `InstanceGet`/`InstanceSet`.
- SuperDelegate.Accessor.Get: the getter's `getattr(self, field)` looks the field up only among the instance's own attributes. So a field held as a class attribute, or a field that is itself another delegated name, fails with AttributeError(field) in the model. Python instead finds the class attribute, or follows the chain of delegations (`a = delegate_to('b')`, `b = delegate_to('c')` reads `c`'s object), and recurses without end only on a cycle such as `x = delegate_to('x')`.
- SuperDelegate.Accessor.Set: the setter's field lookup `getattr(self, field)` has the same reduction as the getter's. A field held as a class attribute, or one that is another delegated name, fails with AttributeError(field), where Python would find it or follow the chain. The same holds for SuperDelegate.ObjectSpace.Setter, which is proved equal to it.
- Attribute lookup on a non-object value `Int`, `Str` or a marker fails. Built-in attributes of such values (for example `int.real`, or the marker's own `prop`) are not modelled.
- A delegatee's properties are modelled as stored slots. A property without a setter is a read-only slot. A property with a setter is a writable slot that stores its argument. Custom getter or setter logic is not modelled.
- Delegated methods are plain attribute values. Binding and calling them is not modelled, except calling a marker.
- Special-method dispatch (`len()`, iteration, `reversed`, indexing, and the TypeError on item assignment) is interpreter behaviour and is not modelled.
- The test-only `SortedList` class and `bisect` (superdelegate/tests.py:80-107) are not modelled.
- The class dictionary is a `map`, so its insertion order is not modelled. The rewrite's result does not depend on it, because names are distinct.
- Objects are entries of a store keyed by id. Aliasing means two equal ids. Allocation and garbage collection are not modelled.
- `BadDelegateSetup` is one error value. Its `RuntimeError` base class and its message text are not modelled. Other host errors are reduced to `AttributeError(name)` and `ReadOnlyAttribute(name)`. Both are Python's `AttributeError`. `ReadOnlyAttribute` is the model's name for the case of an attribute with no writable slot, such as a property without a setter ("can't set attribute").
- Concurrency is not modelled. The model is sequential, so the gap between the getter's two lookups cannot be observed.
