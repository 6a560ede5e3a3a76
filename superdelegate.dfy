/** A model of superdelegate: a marker `delegate_to(field)` placed in a class
    body is rewritten, when the class derives from `SuperDelegate`, into a
    read/write property that forwards the attribute of the same name to the
    object held in `field` on the instance.

    The host object model is reduced to what the mechanism touches: an explicit
    store from object ids to attribute tables, and the two primitives `getattr`
    and `setattr` over it. */
module SuperDelegate {

  type Name = string
  type ObjId = nat

  // ---------------------------------------------------------------------------
  // Error outcomes
  // ---------------------------------------------------------------------------

  /** The outcomes the mechanism can raise or let through. */
  datatype Error =
    | BadDelegateSetup              // an un-rewritten marker was called
    | AttributeError(name: Name)    // Python's AttributeError: `name` is missing, or cannot be added
    | ReadOnlyAttribute(name: Name) // Python's AttributeError for an attribute with no
                                    // writable slot ("can't set attribute"), kept apart
                                    // from the missing-name case

  datatype Result<+T> = Success(value: T) | Failure(error: Error) {
    predicate IsFailure() { Failure? }
    function PropagateFailure<U>(): Result<U> requires Failure? { Failure(error) }
    function Extract(): T requires Success? { value }
  }

  /** The outcome of a statement that returns nothing (a write). */
  datatype Outcome = Pass | Fail(error: Error)

  // ---------------------------------------------------------------------------
  // The marker `delegate_to`
  // ---------------------------------------------------------------------------

  /** `delegate_to(prop)`: an immutable record of the delegatee field's name. */
  datatype DelegateTo = DelegateTo(prop: Name) {

    /** Calling a marker, whatever the arguments, raises BadDelegateSetup. */
    function Call(args: seq<Val>, kwargs: map<Name, Val>): (r: Result<Val>)
      ensures r.Failure? && r.error == BadDelegateSetup
    {
      Failure(BadDelegateSetup)
    }
  }

  // ---------------------------------------------------------------------------
  // Host objects
  // ---------------------------------------------------------------------------

  /** A value an attribute can hold. Objects are referred to by id; a marker is
      itself a value, so a class attribute can hold one. */
  datatype Val =
    | Int(i: int)
    | Str(s: string)
    | Ref(id: ObjId)
    | MarkerObj(marker: DelegateTo)

  /** An attribute of an object: its value and whether `setattr` may replace
      it (a property without a setter is not writable). */
  datatype Slot = Slot(v: Val, writable: bool)

  /** An object: its attributes, and whether `setattr` may add new ones (an
      instance with a `__dict__` may; a built-in list may not). */
  datatype Obj = Obj(attrs: map<Name, Slot>, hasDict: bool)

  type Store = map<ObjId, Obj>

  /** True when `target` is an object of `s` that has attribute `name`. */
  predicate HasAttr(s: Store, target: Val, name: Name) {
    target.Ref? && target.id in s && name in s[target.id].attrs
  }

  /** `getattr(target, name)` on the object's own attributes. */
  function GetAttr(s: Store, target: Val, name: Name): (r: Result<Val>)
    ensures r.Success? <==> HasAttr(s, target, name)
    ensures r.Success? ==> r.value == s[target.id].attrs[name].v
    ensures r.Failure? ==> r.error == AttributeError(name)
  {
    if HasAttr(s, target, name) then Success(s[target.id].attrs[name].v)
    else Failure(AttributeError(name))
  }

  /** `setattr(target, name, v)`: replaces a writable attribute, adds a new one
      to an object that has a `__dict__`, and fails otherwise. */
  function SetAttr(s: Store, target: Val, name: Name, v: Val): (r: Result<Store>)
    ensures r.Failure? ==> r.error == AttributeError(name) || r.error == ReadOnlyAttribute(name)
    ensures r.Success? ==>
      && target.Ref? && target.id in s && r.value.Keys == s.Keys
      && r.value[target.id].attrs == s[target.id].attrs[name := Slot(v, true)]
      && r.value[target.id].hasDict == s[target.id].hasDict
    ensures r.Success? ==> forall id :: id in s && id != target.id ==> r.value[id] == s[id]
  {
    if !(target.Ref? && target.id in s) then Failure(AttributeError(name))
    else
      var o := s[target.id];
      if name in o.attrs && !o.attrs[name].writable then Failure(ReadOnlyAttribute(name))
      else if name !in o.attrs && !o.hasDict then Failure(AttributeError(name))
      else Success(s[target.id := o.(attrs := o.attrs[name := Slot(v, true)])])
  }

  /** A successful `setattr` stores `v` under `name`, keeps the object's other
      attributes and every other object, and keeps the set of objects. */
  lemma SetAttrEffect(s: Store, target: Val, name: Name, v: Val)
    requires SetAttr(s, target, name, v).Success?
    ensures var s' := SetAttr(s, target, name, v).value;
      && s'.Keys == s.Keys
      && GetAttr(s', target, name) == Success(v)
      && (forall t: Val, n: Name :: !(t == target && n == name) ==> GetAttr(s', t, n) == GetAttr(s, t, n))
  {
  }

  /** `setattr` fails exactly on a non-object, on an attribute without a
      writable slot (ReadOnlyAttribute) and on a new name for an object without
      a `__dict__`; a failed write changes nothing since it returns no store. */
  lemma SetAttrFailures(s: Store, target: Val, name: Name, v: Val)
    ensures SetAttr(s, target, name, v).Failure? <==>
      || !(target.Ref? && target.id in s)
      || (name in s[target.id].attrs && !s[target.id].attrs[name].writable)
      || (name !in s[target.id].attrs && !s[target.id].hasDict)
    ensures SetAttr(s, target, name, v) == Failure(ReadOnlyAttribute(name)) <==>
      target.Ref? && target.id in s && name in s[target.id].attrs && !s[target.id].attrs[name].writable
    ensures SetAttr(s, target, name, v) == Failure(AttributeError(name)) <==>
      || !(target.Ref? && target.id in s)
      || (name !in s[target.id].attrs && !s[target.id].hasDict)
  {
  }

  // ---------------------------------------------------------------------------
  // The accessor built by `make_property`
  // ---------------------------------------------------------------------------

  /** `make_property(delegateeName, key)`: a property whose getter and setter
      look up `delegateeName` on the instance and forward `key` to it. It keeps
      no other state: the delegatee is looked up again on every access. */
  datatype Accessor = Accessor(delegateeName: Name, key: Name) {

    /** The getter: `getattr(getattr(self, delegateeName), key)`. */
    function Get(s: Store, self: Val): (r: Result<Val>)
      ensures r.Success? <==>
        HasAttr(s, self, delegateeName) && HasAttr(s, s[self.id].attrs[delegateeName].v, key)
      ensures r.Success? ==>
        var d := s[self.id].attrs[delegateeName].v; r.value == s[d.id].attrs[key].v
      ensures !HasAttr(s, self, delegateeName) ==> r == Failure(AttributeError(delegateeName))
      ensures HasAttr(s, self, delegateeName) && r.Failure? ==> r == Failure(AttributeError(key))
    {
      var delegatee :- GetAttr(s, self, delegateeName);
      GetAttr(s, delegatee, key)
    }

    /** The store after the setter `setattr(getattr(self, delegateeName), key, v)`. */
    function Set(s: Store, self: Val, v: Val): (r: Result<Store>)
      ensures !HasAttr(s, self, delegateeName) ==> r == Failure(AttributeError(delegateeName))
      ensures HasAttr(s, self, delegateeName) ==>
        r == SetAttr(s, s[self.id].attrs[delegateeName].v, key, v)
    {
      var delegatee :- GetAttr(s, self, delegateeName);
      SetAttr(s, delegatee, key, v)
    }
  }

  /** The object the accessor forwards to, as `self` holds it now. */
  function Delegatee(s: Store, self: Val, a: Accessor): Val
    requires HasAttr(s, self, a.delegateeName)
  {
    s[self.id].attrs[a.delegateeName].v
  }

  /** Write-through: after a successful write of `v`, a read through the same
      accessor and a read on the delegatee both give `v`, and the container's
      field still holds the same delegatee — unless the delegatee is the
      container itself and `key` is that very field. */
  lemma WriteThenRead(a: Accessor, s: Store, self: Val, v: Val)
    requires a.Set(s, self, v).Success?
    requires HasAttr(s, self, a.delegateeName)
    requires !(Delegatee(s, self, a) == self && a.key == a.delegateeName)
    ensures var s' := a.Set(s, self, v).value;
      && GetAttr(s', self, a.delegateeName) == GetAttr(s, self, a.delegateeName)
      && GetAttr(s', Delegatee(s, self, a), a.key) == Success(v)
      && a.Get(s', self) == Success(v)
  {
  }

  /** A write through an accessor fails with ReadOnlyAttribute exactly when the
      delegatee's attribute has no writable slot; reading it still succeeds. */
  lemma WriteReadOnly(a: Accessor, s: Store, self: Val, v: Val)
    requires HasAttr(s, self, a.delegateeName)
    requires HasAttr(s, Delegatee(s, self, a), a.key)
    ensures var d := Delegatee(s, self, a);
      && (a.Set(s, self, v) == Failure(ReadOnlyAttribute(a.key)) <==> !s[d.id].attrs[a.key].writable)
      && a.Get(s, self) == Success(s[d.id].attrs[a.key].v)
  {
  }

  /** Errors of the two lookups reach the caller unchanged, for reads and writes. */
  lemma ErrorsPropagate(a: Accessor, s: Store, self: Val, v: Val)
    ensures GetAttr(s, self, a.delegateeName).Failure? ==>
      a.Get(s, self) == GetAttr(s, self, a.delegateeName).PropagateFailure() &&
      a.Set(s, self, v) == GetAttr(s, self, a.delegateeName).PropagateFailure()
    ensures HasAttr(s, self, a.delegateeName) && GetAttr(s, Delegatee(s, self, a), a.key).Failure? ==>
      a.Get(s, self) == GetAttr(s, Delegatee(s, self, a), a.key)
  {
  }

  /** BadDelegateSetup comes only from calling a marker: neither the getter nor
      the setter ever fails with it. */
  lemma AccessorsNeverRaiseBadSetup(a: Accessor, s: Store, self: Val, v: Val)
    ensures a.Get(s, self) != Failure(BadDelegateSetup)
    ensures a.Set(s, self, v) != Failure(BadDelegateSetup)
  {
  }

  /** Re-resolution: once the container's field is reassigned to `d2`, reads
      and writes through the accessor go to `d2`; if `d2` is another object
      than the container, the read sees what `d2` held before the reassignment. */
  lemma ReassignedFieldIsFollowed(a: Accessor, s: Store, self: Val, d2: Val, v: Val)
    requires SetAttr(s, self, a.delegateeName, d2).Success?
    ensures var s' := SetAttr(s, self, a.delegateeName, d2).value;
      && a.Get(s', self) == GetAttr(s', d2, a.key)
      && a.Set(s', self, v) == SetAttr(s', d2, a.key, v)
      && (d2 != self ==> a.Get(s', self) == GetAttr(s, d2, a.key))
  {
  }

  /** Non-interference: a write through accessor `a` changes what accessor `b`
      reads on the same container only if `a` wrote the very slot `b` depends
      on: `b`'s field on the container, or `b`'s key on `b`'s delegatee. */
  lemma AccessorsDoNotInterfere(a: Accessor, b: Accessor, s: Store, self: Val, v: Val)
    requires a.Set(s, self, v).Success?
    requires HasAttr(s, self, a.delegateeName)
    requires !(Delegatee(s, self, a) == self && a.key == b.delegateeName)
    requires HasAttr(s, self, b.delegateeName) ==>
      !(Delegatee(s, self, a) == Delegatee(s, self, b) && a.key == b.key)
    ensures b.Get(a.Set(s, self, v).value, self) == b.Get(s, self)
  {
  }

  /** The store of live objects, which the setter changes in place. */
  class ObjectSpace {
    var objects: Store

    constructor (objects: Store)
      ensures this.objects == objects
    {
      this.objects := objects;
    }

    /** `setattr(target, name, v)` on the store. */
    method WriteAttr(target: Val, name: Name, v: Val) returns (r: Outcome)
      modifies this
      ensures SetAttr(old(objects), target, name, v).Success? ==>
        r == Pass && objects == SetAttr(old(objects), target, name, v).value
      ensures SetAttr(old(objects), target, name, v).Failure? ==>
        r == Fail(SetAttr(old(objects), target, name, v).error) && objects == old(objects)
    {
      if !(target.Ref? && target.id in objects) {
        return Fail(AttributeError(name));
      }
      var o := objects[target.id];
      if name in o.attrs && !o.attrs[name].writable {
        return Fail(ReadOnlyAttribute(name));
      }
      if name !in o.attrs && !o.hasDict {
        return Fail(AttributeError(name));
      }
      objects := objects[target.id := o.(attrs := o.attrs[name := Slot(v, true)])];
      return Pass;
    }

    /** The setter of `make_property`: looks the field up on `self` now, then
        writes `a.key` on the object found there. */
    method Setter(a: Accessor, self: Val, v: Val) returns (r: Outcome)
      modifies this
      ensures a.Set(old(objects), self, v).Success? ==>
        r == Pass && objects == a.Set(old(objects), self, v).value
      ensures a.Set(old(objects), self, v).Failure? ==>
        r == Fail(a.Set(old(objects), self, v).error) && objects == old(objects)
      ensures r == Pass && !(Delegatee(old(objects), self, a) == self && a.key == a.delegateeName) ==>
        a.Get(objects, self) == Success(v)
    {
      var delegatee := GetAttr(objects, self, a.delegateeName);
      if delegatee.Failure? {
        return Fail(delegatee.error);
      }
      r := WriteAttr(delegatee.value, a.key, v);
      if r == Pass && !(Delegatee(old(objects), self, a) == self && a.key == a.delegateeName) {
        WriteThenRead(a, old(objects), self, v);
      }
    }
  }

  // ---------------------------------------------------------------------------
  // The class-dictionary rewrite of `SuperDelegateMeta.__new__`
  // ---------------------------------------------------------------------------

  /** A class attribute: an ordinary value (a marker among them), or the
      property `make_property` built. */
  datatype ClassAttr = Plain(v: Val) | Prop(accessor: Accessor)

  /** The attributes declared in one class body. */
  type ClassDict = map<Name, ClassAttr>

  /** `isinstance(attr, delegate_to)`. */
  predicate IsDelegate(attr: ClassAttr) {
    attr.Plain? && attr.v.MarkerObj?
  }

  /** The names bound to a marker in `dct`. */
  function MarkerKeys(dct: ClassDict): set<Name> {
    set k | k in dct && IsDelegate(dct[k])
  }

  /** The names among a list of collected delegates. */
  function NamesOf(ds: seq<(Name, DelegateTo)>): set<Name> {
    set i | 0 <= i < |ds| :: ds[i].0
  }

  lemma NamesOfAppend(ds: seq<(Name, DelegateTo)>, d: (Name, DelegateTo))
    ensures NamesOf(ds + [d]) == NamesOf(ds) + {d.0}
  {
    var ds' := ds + [d];
    assert forall i :: 0 <= i < |ds| ==> ds'[i] == ds[i];
    assert ds'[|ds|] == d;
  }

  /** The entry bound to `name` after the rewrite. */
  function RewriteEntry(name: Name, attr: ClassAttr): ClassAttr {
    if IsDelegate(attr) then Prop(Accessor(attr.v.marker.prop, name)) else attr
  }

  /** The class dictionary after the rewrite: every marker is replaced by an
      accessor that forwards the very name it is bound under to the marker's
      field; nothing else changes. */
  function Rewritten(dct: ClassDict): (r: ClassDict)
    ensures r.Keys == dct.Keys
    ensures forall k :: k in r ==> !IsDelegate(r[k])
    ensures forall k :: k in dct && IsDelegate(dct[k]) ==>
      r[k] == Prop(Accessor(dct[k].v.marker.prop, k))
    ensures forall k :: k in dct && !IsDelegate(dct[k]) ==> r[k] == dct[k]
    ensures forall k :: k in dct ==> (r[k] != dct[k] <==> IsDelegate(dct[k]))
  {
    map k | k in dct :: RewriteEntry(k, dct[k])
  }

  /** A class is built from its body with the rewrite when it derives from
      `SuperDelegate`, and as declared otherwise. */
  function DefineClass(dct: ClassDict, derivesFromBase: bool): (cls: ClassDict)
    ensures cls.Keys == dct.Keys
    ensures !derivesFromBase ==> cls == dct
    ensures forall k :: k in cls ==> (IsDelegate(cls[k]) <==> !derivesFromBase && IsDelegate(dct[k]))
    ensures forall k :: k in dct && !IsDelegate(dct[k]) ==> cls[k] == dct[k]
  {
    if derivesFromBase then Rewritten(dct) else dct
  }

  /** Rewriting a rewritten dictionary changes nothing. */
  lemma RewriteIdempotent(dct: ClassDict)
    ensures Rewritten(Rewritten(dct)) == Rewritten(dct)
  {
  }

  /** One marker bound to several names yields one accessor per name, all on
      the marker's field, each forwarding its own name. */
  lemma SharedMarker(dct: ClassDict, names: set<Name>, m: DelegateTo)
    requires forall k :: k in names ==> k in dct && dct[k] == Plain(MarkerObj(m))
    ensures forall k :: k in names ==> Rewritten(dct)[k] == Prop(Accessor(m.prop, k))
    ensures forall j, k :: j in names && k in names && j != k ==> Rewritten(dct)[j] != Rewritten(dct)[k]
  {
  }

  /** Step one of `__new__`: the list of (name, marker) pairs in `dct`. Each
      pair is an entry of `dct`, no name occurs twice, and every marker is found. */
  method CollectDelegates(dct: ClassDict) returns (ds: seq<(Name, DelegateTo)>)
    ensures forall i :: 0 <= i < |ds| ==> ds[i].0 in dct && dct[ds[i].0] == Plain(MarkerObj(ds[i].1))
    ensures forall i, j :: 0 <= i < j < |ds| ==> ds[i].0 != ds[j].0
    ensures NamesOf(ds) == MarkerKeys(dct)
  {
    ds := [];
    var remaining := dct.Keys;
    while remaining != {}
      invariant remaining <= dct.Keys
      invariant forall i :: 0 <= i < |ds| ==> ds[i].0 in dct && dct[ds[i].0] == Plain(MarkerObj(ds[i].1))
      invariant forall i :: 0 <= i < |ds| ==> ds[i].0 !in remaining
      invariant forall i, j :: 0 <= i < j < |ds| ==> ds[i].0 != ds[j].0
      invariant NamesOf(ds) == MarkerKeys(dct) - remaining
      decreases |remaining|
    {
      var k :| k in remaining;
      if IsDelegate(dct[k]) {
        NamesOfAppend(ds, (k, dct[k].v.marker));
        ds := ds + [(k, dct[k].v.marker)];
      }
      assert MarkerKeys(dct) - (remaining - {k}) ==
        (MarkerKeys(dct) - remaining) + (if IsDelegate(dct[k]) then {k} else {});
      remaining := remaining - {k};
    }
  }

  /** `SuperDelegateMeta.__new__`: collect the markers of the class body, then
      overwrite each of them in the dictionary with its accessor. */
  method MetaNew(dct: ClassDict) returns (cls: ClassDict)
    ensures cls == Rewritten(dct)
  {
    var ds := CollectDelegates(dct);
    cls := dct;
    for i := 0 to |ds|
      invariant cls.Keys == dct.Keys
      invariant forall j :: 0 <= j < i ==> cls[ds[j].0] == Prop(Accessor(ds[j].1.prop, ds[j].0))
      invariant forall k :: k in dct && k !in NamesOf(ds[..i]) ==> cls[k] == dct[k]
    {
      var (k, v) := ds[i];
      cls := cls[k := Prop(Accessor(v.prop, k))];
      assert ds[..i + 1] == ds[..i] + [ds[i]];
      NamesOfAppend(ds[..i], ds[i]);
    }
    assert ds[..|ds|] == ds;
    forall k | k in dct
      ensures cls[k] == Rewritten(dct)[k]
    {
      if IsDelegate(dct[k]) {
        assert k in NamesOf(ds);
        var j :| 0 <= j < |ds| && ds[j].0 == k;
        assert cls[ds[j].0] == Prop(Accessor(ds[j].1.prop, ds[j].0));
      }
    }
  }

  // ---------------------------------------------------------------------------
  // Attribute access on an instance of a defined class
  // ---------------------------------------------------------------------------

  /** `getattr(self, name)` on an instance of class `cls`: a property of the
      class comes first, then the instance's own attributes, then a plain class
      attribute. */
  function InstanceGet(s: Store, cls: ClassDict, self: Val, name: Name): (r: Result<Val>)
    ensures name in cls && cls[name].Prop? ==> r == cls[name].accessor.Get(s, self)
    ensures !(name in cls && cls[name].Prop?) && HasAttr(s, self, name) ==>
      r == Success(s[self.id].attrs[name].v)
    ensures !(name in cls && cls[name].Prop?) && !HasAttr(s, self, name) ==>
      r == if name in cls then Success(cls[name].v) else Failure(AttributeError(name))
    ensures r != Failure(BadDelegateSetup)
  {
    if name in cls && cls[name].Prop? then cls[name].accessor.Get(s, self)
    else if HasAttr(s, self, name) then GetAttr(s, self, name)
    else if name in cls then Success(cls[name].v)
    else Failure(AttributeError(name))
  }

  /** `setattr(self, name, v)` on an instance of class `cls`: a property of
      the class takes the write, otherwise the instance stores it. */
  function InstanceSet(s: Store, cls: ClassDict, self: Val, name: Name, v: Val): (r: Result<Store>)
    ensures name in cls && cls[name].Prop? ==> r == cls[name].accessor.Set(s, self, v)
    ensures !(name in cls && cls[name].Prop?) ==> r == SetAttr(s, self, name, v)
    ensures r != Failure(BadDelegateSetup)
  {
    if name in cls && cls[name].Prop? then cls[name].accessor.Set(s, self, v)
    else SetAttr(s, self, name, v)
  }

  /** In a class deriving from the base, a name declared as `delegate_to(f)`
      reads and writes attribute `name` of whatever the instance holds in `f`. */
  lemma DelegatedNameForwards(dct: ClassDict, name: Name, s: Store, self: Val, v: Val)
    requires name in dct && IsDelegate(dct[name])
    ensures var f := dct[name].v.marker.prop;
      && InstanceGet(s, DefineClass(dct, true), self, name) ==
         (if HasAttr(s, self, f) then GetAttr(s, s[self.id].attrs[f].v, name) else Failure(AttributeError(f)))
      && InstanceSet(s, DefineClass(dct, true), self, name, v) ==
         (if HasAttr(s, self, f) then SetAttr(s, s[self.id].attrs[f].v, name, v) else Failure(AttributeError(f)))
  {
  }

  /** In a class not deriving from the base, a name declared as a marker still
      reads as that marker (unless the instance shadows it), and calling what
      was read raises BadDelegateSetup. */
  lemma UnrewrittenMarkerFails(dct: ClassDict, name: Name, s: Store, self: Val,
                                                  args: seq<Val>, kwargs: map<Name, Val>)
    requires name in dct && IsDelegate(dct[name])
    requires !HasAttr(s, self, name)
    ensures InstanceGet(s, DefineClass(dct, false), self, name) == Success(dct[name].v)
    ensures dct[name].v.marker.Call(args, kwargs) == Failure(BadDelegateSetup)
    ensures IsDelegate(DefineClass(dct, false)[name]) && !IsDelegate(DefineClass(dct, true)[name])
  {
  }
}
