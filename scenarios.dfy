/** The situations exercised by the repository's tests, stated over the model
    with concrete class bodies and object stores. */
module Scenarios {
  import opened SuperDelegate

  /** A class body `x = delegate_to('child')` in a class without the base:
      `x` reads as the marker itself, and calling it with positional and
      keyword arguments raises BadDelegateSetup. */
  lemma MissingBaseScenario()
    ensures var dct := map["x" := Plain(MarkerObj(DelegateTo("child")))];
      var s := map[0 := Obj(map[], true)];
      && InstanceGet(s, DefineClass(dct, false), Ref(0), "x") == Success(MarkerObj(DelegateTo("child")))
      && DelegateTo("child").Call([Str("any args")], map["even" := Str("keywords")]) == Failure(BadDelegateSetup)
  {
  }

  /** `__getitem__ = __len__ = __iter__ = delegate_to('_lst')`: each of the
      three names becomes its own accessor on `_lst` forwarding its own name,
      and item assignment, never declared, gets no accessor. */
  lemma SharedMarkerScenario()
    ensures var m := Plain(MarkerObj(DelegateTo("_lst")));
      var cls := DefineClass(map["__getitem__" := m, "__len__" := m, "__iter__" := m], true);
      && cls == map["__getitem__" := Prop(Accessor("_lst", "__getitem__")),
                    "__len__" := Prop(Accessor("_lst", "__len__")),
                    "__iter__" := Prop(Accessor("_lst", "__iter__"))]
      && "__setitem__" !in cls
  {
  }

  /** The store of the property test: container 0 holds `_prop_holder` = 1;
      object 1 has a read-only `name` and a writable `age`. */
  function PropStore(): Store {
    map[0 := Obj(map["_prop_holder" := Slot(Ref(1), true)], true),
        1 := Obj(map["name" := Slot(Str("Logan"), false), "age" := Slot(Int(12), true)], true)]
  }

  function PropContainer(): ClassDict {
    DefineClass(map["name" := Plain(MarkerObj(DelegateTo("_prop_holder"))),
                    "age" := Plain(MarkerObj(DelegateTo("_prop_holder")))], true)
  }

  /** Properties of the delegatee read through; a write to `age` lands on the
      delegatee and reads back, also as `example._prop_holder.age`; a write to
      `name`, which has no setter, fails with Python's AttributeError for a
      read-only attribute (ReadOnlyAttribute). */
  lemma PropertyDelegationScenario()
    ensures InstanceGet(PropStore(), PropContainer(), Ref(0), "name") == Success(Str("Logan"))
    ensures InstanceGet(PropStore(), PropContainer(), Ref(0), "age") == Success(Int(12))
    ensures InstanceSet(PropStore(), PropContainer(), Ref(0), "age", Int(14)).Success?
    ensures var s' := InstanceSet(PropStore(), PropContainer(), Ref(0), "age", Int(14)).value;
      && InstanceGet(s', PropContainer(), Ref(0), "age") == Success(Int(14))
      && InstanceGet(s', PropContainer(), Ref(0), "_prop_holder") == Success(Ref(1))
      && GetAttr(s', InstanceGet(s', PropContainer(), Ref(0), "_prop_holder").value, "age") == Success(Int(14))
    ensures InstanceSet(PropStore(), PropContainer(), Ref(0), "name", Str("Allan"))
            == Failure(ReadOnlyAttribute("name"))
  {
  }

  /** Two names delegated to two different fields each reach their own
      delegatee: object 2 has no `choose_cheese`, so reading it anywhere but
      through `sm` would fail. */
  lemma MultipleDelegatesScenario()
    ensures var s := map[0 := Obj(map["sm" := Slot(Ref(1), true), "ne" := Slot(Ref(2), true)], true),
                         1 := Obj(map["choose_cheese" := Slot(Str("swiss"), false)], true),
                         2 := Obj(map["lift_periscope" := Slot(Str("done"), false)], true)];
      var cls := DefineClass(map["choose_cheese" := Plain(MarkerObj(DelegateTo("sm"))),
                                 "lift_periscope" := Plain(MarkerObj(DelegateTo("ne")))], true);
      && InstanceGet(s, cls, Ref(0), "choose_cheese") == Success(Str("swiss"))
      && InstanceGet(s, cls, Ref(0), "lift_periscope") == Success(Str("done"))
      && GetAttr(s, Ref(2), "choose_cheese").Failure?
  {
  }
}
