/**
 * gi.overrides: the registry of Python overrides for introspected classes
 * and functions. The registry is a dictionary that only accepts an object
 * stored under itself and defined in a module below `gi.overrides`, and
 * files it under the module's name without that prefix; the `override`
 * decorator registers classes (setting their GType's Python type) and
 * functions, and `deprecated` wraps a callable so that every call warns.
 */
module Overrides {
  import opened GI

  /** The introspection info an object's `__info__` holds, as far as the registry reads it. */
  datatype IntrospectionInfo = IntrospectionInfo(gtype: GTypeId)

  /** What calling a callable does: run its own code, or warn and forward to another callable. */
  datatype Behaviour = Code(code: nat) | ForwardsTo(target: PyObj, replacement: string)

  /**
   * A Python class or function, by the attributes the overrides code reads
   * or writes: identity, whether it is a plain Python function,
   * `__name__`, `__module__`, `__info__` (None when the attribute is
   * missing), `__doc__`, the remaining `__dict__` entries, and what calling
   * it does.
   */
  datatype PyObj = PyObj(id: nat, isFunction: bool, name: string, moduleName: string,
                         info: Option<IntrospectionInfo>, doc: Option<string>,
                         dict: map<string, PyValue>, behaviour: Behaviour)

  const OverridesPackage: string := "gi.overrides"

  /** str.startswith */
  predicate StartsWith(s: string, prefix: string)
  {
    |prefix| <= |s| && s[..|prefix|] == prefix
  }

  /** `module[13:]`: the module name with `gi.overrides.` cut off; a shorter name slices to "". */
  function ModuleSuffix(moduleName: string): (s: string)
    ensures |moduleName| >= 13 ==> moduleName == moduleName[..13] + s
    ensures |moduleName| <= 13 ==> s == ""
  {
    if |moduleName| <= 13 then "" else moduleName[13..]
  }

  /** The key an accepted override is filed under: `"%s.%s" % (module[13:], name)`. */
  function RegistryKey(value: PyObj): (k: string)
    ensures |k| == |ModuleSuffix(value.moduleName)| + 1 + |value.name|
    ensures k[..|ModuleSuffix(value.moduleName)|] == ModuleSuffix(value.moduleName)
    ensures k[|k| - |value.name| - 1..] == "." + value.name
  {
    ModuleSuffix(value.moduleName) + "." + value.name
  }

  /** An override defined in module `gi.overrides.M` is filed under `M.name`. */
  lemma KeyOfOverrideModule(value: PyObj, m: string)
    requires value.moduleName == OverridesPackage + "." + m
    ensures RegistryKey(value) == m + "." + value.name
  {
    assert ModuleSuffix(value.moduleName) == value.moduleName[13..];
    assert value.moduleName[13..] == m;
  }

  /** The registry's own example: the override of boolean_return_true from gi.overrides.GIMarshallingTests. */
  lemma KeyOfMarshallingOverride(value: PyObj)
    requires value.moduleName == "gi.overrides.GIMarshallingTests" && value.name == "boolean_return_true"
    ensures RegistryKey(value) == "GIMarshallingTests.boolean_return_true"
  {
    ModuleOfMarshallingOverride();
    KeyOfOverrideModule(value, "GIMarshallingTests");
    KeyOfBooleanReturnTrue();
  }

  /** The module name of the example, split at the package. */
  lemma ModuleOfMarshallingOverride()
    ensures "gi.overrides.GIMarshallingTests" == OverridesPackage + "." + "GIMarshallingTests"
  {
  }

  /** The key of the example, joined at the dot. */
  lemma KeyOfBooleanReturnTrue()
    ensures "GIMarshallingTests" + "." + "boolean_return_true" == "GIMarshallingTests.boolean_return_true"
  {
  }

  /** Two overrides from one module are filed apart exactly when their names differ. */
  lemma KeysSeparateNames(a: PyObj, b: PyObj)
    requires a.moduleName == b.moduleName
    ensures RegistryKey(a) == RegistryKey(b) <==> a.name == b.name
  {
    if RegistryKey(a) == RegistryKey(b) {
      var k := RegistryKey(a);
      var m := |ModuleSuffix(a.moduleName)| + 1;
      assert a.name == k[m..];
      assert b.name == RegistryKey(b)[m..];
    }
  }

  /** The Python type slot of each GType, which `register` writes. */
  class TypeSlots {
    var pytype: map<GTypeId, PyObj>

    constructor ()
      ensures pytype == map[]
    {
      pytype := map[];
    }
  }

  /** _Registry: the override dictionary, keyed by `module.name`. */
  class Registry {
    var entries: map<string, PyObj>

    /** Every entry is an object of the overrides package filed under its own key. */
    ghost predicate Valid()
      reads this
    {
      forall k :: k in entries ==> StartsWith(entries[k].moduleName, OverridesPackage) && k == RegistryKey(entries[k])
    }

    constructor ()
      ensures Valid() && entries == map[]
    {
      entries := map[];
    }

    /**
     * _Registry.__setitem__: the key must be the value itself, and the
     * value must come from a module under `gi.overrides`; either violation
     * raises KeyError and stores nothing. The value is filed under its
     * registry key, whatever key it was given.
     */
    method SetItem(key: PyObj, value: PyObj) returns (err: Option<PyError>)
      requires Valid()
      modifies this
      ensures Valid()
      ensures key != value ==> err == Some(KeyError) && entries == old(entries)
      ensures key == value && !StartsWith(value.moduleName, OverridesPackage) ==>
                err == Some(KeyError) && entries == old(entries)
      ensures key == value && StartsWith(value.moduleName, OverridesPackage) ==>
                err.None? && entries == old(entries)[RegistryKey(value) := value]
    {
      if key != value {
        return Some(KeyError);
      }
      if !StartsWith(value.moduleName, OverridesPackage) {
        return Some(KeyError);
      }
      var suffix := ModuleSuffix(value.moduleName);
      entries := entries[suffix + "." + value.name := value];
      err := None;
    }

    /**
     * _Registry.register: a class without `__info__` raises TypeError; the
     * assertion that its GType is not NONE raises AssertionError, unless
     * assertions are compiled out (`python -O`, `assertsEnabled` false), in
     * which case a NONE GType goes on like any other; a class
     * of GType INVALID is accepted and registered nowhere. Otherwise the
     * GType's Python type is set to the class, and only then is the class
     * stored, so a class from outside `gi.overrides` is rejected with
     * KeyError after its GType already points at it.
     */
    method Register(cls: PyObj, slots: TypeSlots, assertsEnabled: bool) returns (err: Option<PyError>)
      requires Valid()
      modifies this, slots
      ensures Valid()
      ensures cls.info.None? ==> err == Some(TypeError) && entries == old(entries) && slots.pytype == old(slots.pytype)
      ensures cls.info.Some? && cls.info.value.gtype == G_TYPE_NONE && assertsEnabled ==>
                err == Some(AssertionError) && entries == old(entries) && slots.pytype == old(slots.pytype)
      ensures cls.info.Some? && cls.info.value.gtype == G_TYPE_INVALID ==>
                err.None? && entries == old(entries) && slots.pytype == old(slots.pytype)
      ensures cls.info.Some? && (cls.info.value.gtype != G_TYPE_NONE || !assertsEnabled)
              && cls.info.value.gtype != G_TYPE_INVALID ==>
                && slots.pytype == old(slots.pytype)[cls.info.value.gtype := cls]
                && (if StartsWith(cls.moduleName, OverridesPackage)
                    then err.None? && entries == old(entries)[RegistryKey(cls) := cls]
                    else err == Some(KeyError) && entries == old(entries))
    {
      if cls.info.None? {
        return Some(TypeError);
      }
      var gtype := cls.info.value.gtype;
      if assertsEnabled && gtype == G_TYPE_NONE {
        return Some(AssertionError);
      }
      err := None;
      if gtype != G_TYPE_INVALID {
        slots.pytype := slots.pytype[gtype := cls];
        err := SetItem(cls, cls);
      }
    }

    /**
     * _Registry.register_func: the introspected function must have
     * `__info__` (TypeError otherwise); the override is then stored under
     * itself.
     */
    method RegisterFunc(overrideFunc: PyObj, introspectionFunc: PyObj) returns (err: Option<PyError>)
      requires Valid()
      modifies this
      ensures Valid()
      ensures introspectionFunc.info.None? ==> err == Some(TypeError) && entries == old(entries)
      ensures introspectionFunc.info.Some? && !StartsWith(overrideFunc.moduleName, OverridesPackage) ==>
                err == Some(KeyError) && entries == old(entries)
      ensures introspectionFunc.info.Some? && StartsWith(overrideFunc.moduleName, OverridesPackage) ==>
                err.None? && entries == old(entries)[RegistryKey(overrideFunc) := overrideFunc]
    {
      if introspectionFunc.info.None? {
        return Some(TypeError);
      }
      err := SetItem(overrideFunc, overrideFunc);
    }

    /**
     * The decorator overridefunc(introspectionFunc) returns, applied to an
     * override: it registers the override and answers it unchanged.
     */
    method ApplyFuncDecorator(introspectionFunc: PyObj, overrideFunc: PyObj) returns (r: Result<PyObj, PyError>)
      requires Valid()
      modifies this
      ensures Valid()
      ensures r.Success? <==> introspectionFunc.info.Some? && StartsWith(overrideFunc.moduleName, OverridesPackage)
      ensures r.Success? ==> r.value == overrideFunc && entries == old(entries)[RegistryKey(overrideFunc) := overrideFunc]
      ensures r.Failure? ==> entries == old(entries)
      ensures r.Failure? ==> r.error == if introspectionFunc.info.None? then TypeError else KeyError
    {
      var err := RegisterFunc(overrideFunc, introspectionFunc);
      if err.Some? {
        return Failure(err.value);
      }
      r := Success(overrideFunc);
    }

    /**
     * override: a plain Python function gets back the decorator for it and
     * registers nothing yet; anything else is registered as a class and
     * answered unchanged.
     */
    method Override(type_: PyObj, slots: TypeSlots, assertsEnabled: bool) returns (r: Result<Overridden, PyError>)
      requires Valid()
      modifies this, slots
      ensures Valid()
      ensures type_.isFunction ==>
                r == Success(FuncDecorator(type_)) && entries == old(entries) && slots.pytype == old(slots.pytype)
      ensures !type_.isFunction && r.Success? ==> r.value == Overridden.Class(type_)
      ensures !type_.isFunction && type_.info.None? ==> r == Failure(TypeError) && entries == old(entries)
      ensures !type_.isFunction && type_.info.Some? && type_.info.value.gtype == G_TYPE_INVALID ==>
                r == Success(Overridden.Class(type_)) && entries == old(entries)
      ensures !type_.isFunction && r.Failure? ==> entries == old(entries)
      ensures !type_.isFunction && type_.info.Some? && type_.info.value.gtype != G_TYPE_NONE
              && type_.info.value.gtype != G_TYPE_INVALID && StartsWith(type_.moduleName, OverridesPackage) ==>
                r.Success? && entries == old(entries)[RegistryKey(type_) := type_]
                && slots.pytype == old(slots.pytype)[type_.info.value.gtype := type_]
    {
      if type_.isFunction {
        return Success(FuncDecorator(type_));
      }
      var err := Register(type_, slots, assertsEnabled);
      if err.Some? {
        return Failure(err.value);
      }
      r := Success(Overridden.Class(type_));
    }
  }

  /** What `override` answers: the decorator overridefunc builds for a function, or the class itself. */
  datatype Overridden = FuncDecorator(introspectionFunc: PyObj) | Class(cls: PyObj)

  /** An accepted override can be looked up under its key afterwards. */
  method RegisterThenLookUp(reg: Registry, introspectionFunc: PyObj, overrideFunc: PyObj)
    returns (found: Option<PyObj>)
    requires reg.Valid() && introspectionFunc.info.Some? && StartsWith(overrideFunc.moduleName, OverridesPackage)
    modifies reg
    ensures found == Some(overrideFunc)
  {
    var r := reg.ApplyFuncDecorator(introspectionFunc, overrideFunc);
    var key := RegistryKey(overrideFunc);
    found := if key in reg.entries then Some(reg.entries[key]) else None;
  }

  /** The warning a deprecated callable gives, naming it and its replacement. */
  datatype DeprecationWarning = DeprecationWarning(name: string, replacement: string)

  function WarningText(w: DeprecationWarning): string
  {
    w.name + " is deprecated; use " + w.replacement + " instead"
  }

  /**
   * deprecated(fn, replacement): a new plain function (`wrapperId` is its
   * identity) defined in gi.overrides, with fn's `__name__`, `__doc__` and
   * `__dict__` entries, that warns and then calls fn.
   */
  function Deprecated(fn: PyObj, replacement: string, wrapperId: nat): (w: PyObj)
    requires wrapperId != fn.id
    ensures w != fn && w.isFunction && w.moduleName == OverridesPackage
    ensures w.name == fn.name && w.doc == fn.doc && w.dict == fn.dict && w.info == fn.info
    ensures w.behaviour == ForwardsTo(fn, replacement)
  {
    PyObj(wrapperId, true, fn.name, OverridesPackage, fn.info, fn.doc, map[] + fn.dict, ForwardsTo(fn, replacement))
  }

  /**
   * Calling a callable with `args` (keyword arguments are folded into
   * them): the warnings it gives, outermost first, and the value it
   * answers; `run` is what each piece of own code answers.
   */
  function Call(o: PyObj, args: seq<PyValue>, run: (nat, seq<PyValue>) -> PyValue): (r: (seq<DeprecationWarning>, PyValue))
    decreases o
  {
    match o.behaviour
    case Code(c) => ([], run(c, args))
    case ForwardsTo(target, replacement) =>
      var inner := Call(target, args, run);
      ([DeprecationWarning(target.name, replacement)] + inner.0, inner.1)
  }

  /** The number of deprecation wrappers around the own code. */
  function Layers(o: PyObj): nat
    decreases o
  {
    match o.behaviour
    case Code(_) => 0
    case ForwardsTo(target, _) => 1 + Layers(target)
  }

  /** The own code at the bottom of the wrappers. */
  function InnerCode(o: PyObj): nat
    decreases o
  {
    match o.behaviour
    case Code(c) => c
    case ForwardsTo(target, _) => InnerCode(target)
  }

  /** A deprecated wrapper answers what fn answers, with one more warning, naming fn, in front. */
  lemma DeprecatedForwards(fn: PyObj, replacement: string, wrapperId: nat, args: seq<PyValue>,
                           run: (nat, seq<PyValue>) -> PyValue)
    requires wrapperId != fn.id
    ensures Call(Deprecated(fn, replacement, wrapperId), args, run).1 == Call(fn, args, run).1
    ensures Call(Deprecated(fn, replacement, wrapperId), args, run).0
            == [DeprecationWarning(fn.name, replacement)] + Call(fn, args, run).0
  {
  }

  /**
   * However deep the wrappers, a call answers what the own code answers
   * for the same arguments and gives one warning per wrapper.
   */
  lemma {:induction false} CallReachesCode(o: PyObj, args: seq<PyValue>, run: (nat, seq<PyValue>) -> PyValue)
    ensures Call(o, args, run).1 == run(InnerCode(o), args)
    ensures |Call(o, args, run).0| == Layers(o)
    decreases o
  {
    match o.behaviour
    case Code(_) =>
    case ForwardsTo(target, _) =>
      CallReachesCode(target, args, run);
  }
}
