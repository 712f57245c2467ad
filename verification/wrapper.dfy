/**
 * gi.Wrapper: Python classes that wrap a generic native pointer together
 * with a pair of memory-management functions (copy/ref and free/unref)
 * attached to the class in a capsule. Classes are created per GType and
 * remembered as the GType's qdata, so that creation is idempotent.
 */
module Wrapper {
  import opened GI
  import opened Native

  /**
   * A wrapper class: its name, its `__module__`, the funcs block its
   * `__pygi_wrapper_funcs__` capsule points at (None while the attribute is
   * absent), and its `__gtype__` attribute.
   */
  datatype ClassRecord = ClassRecord(name: string, moduleName: string, funcs: Option<Ptr>, gtypeAttr: Option<GTypeId>)

  /**
   * A PyGIWrapperFuncs block is two words, copy then free; 0 is NULL and
   * any other number identifies a native function.
   */
  function FreeFuncOf(block: seq<int>): Option<nat>
  {
    if |block| == 2 && block[1] > 0 then Some(block[1]) else None
  }

  /** The words a (copy, free) pair is stored as. */
  function FuncsWords(copy: Option<nat>, free: Option<nat>): (block: seq<int>)
    ensures |block| == 2
    ensures FreeFuncOf(block) == if free.Some? && free.value > 0 then free else None
  {
    [if copy.Some? then copy.value else 0, if free.Some? then free.value else 0]
  }

  /** The steps of class creation that can fail, by what fails. */
  datatype Step = DictStep | TypeStep | ModuleAttrStep | FuncsAllocStep | CapsuleStep | FuncsAttrStep | GTypeAttrStep

  /** A step fails: `__gtype__` is only set, and so can only fail, for a GType other than NONE. */
  predicate StepFails(failsAt: Option<Step>, gtype: GTypeId)
  {
    || failsAt == Some(DictStep) || failsAt == Some(TypeStep) || failsAt == Some(ModuleAttrStep)
    || failsAt == Some(FuncsAllocStep) || failsAt == Some(CapsuleStep) || failsAt == Some(FuncsAttrStep)
    || (failsAt == Some(GTypeAttrStep) && gtype != G_TYPE_NONE)
  }

  /**
   * The GType world the wrapper code sees: the qdata slot that remembers a
   * GType's wrapper class, the live wrapper classes, what importing a
   * GType's Python class answers, and the free functions called so far.
   */
  class Registry {
    var qdata: map<GTypeId, nat>
    var classes: map<nat, ClassRecord>
    var nextClass: nat
    const imported: map<GTypeId, nat>
    var freeCalls: seq<(nat, Ptr)>

    /** Every remembered class is alive, and every capsule points at a live funcs block. */
    ghost predicate Valid(heap: NativeHeap)
      reads this, heap
    {
      && heap.Valid()
      && (forall g :: g in qdata ==> qdata[g] in classes)
      && (forall c :: c in classes ==> c < nextClass)
      && (forall c :: c in classes && classes[c].funcs.Some? ==>
            classes[c].funcs.value.Addr? && classes[c].funcs.value.address in heap.blocks
            && |heap.blocks[classes[c].funcs.value.address]| == 2)
    }

    /** The capsules keep these blocks alive. */
    ghost predicate OwnsFuncs(heap: NativeHeap, c: nat)
      reads this, heap
    {
      c in classes && classes[c].funcs.Some? && classes[c].funcs.value.Addr?
      && classes[c].funcs.value.address in heap.blocks
    }

    constructor (imported: map<GTypeId, nat>, heap: NativeHeap)
      requires heap.Valid()
      ensures Valid(heap) && qdata == map[] && classes == map[] && freeCalls == [] && this.imported == imported
    {
      qdata, classes, nextClass, freeCalls := map[], map[], 0, [];
      this.imported := imported;
    }

    /**
     * pygi_wrapper_class_from_gtype: the class remembered in the GType's
     * qdata, and only when there is none, the class importing answers.
     */
    function ClassFromGType(gtype: GTypeId): (r: Option<nat>)
      reads this
      ensures gtype in qdata ==> r == Some(qdata[gtype])
      ensures gtype !in qdata ==> r == if gtype in imported then Some(imported[gtype]) else None
    {
      if gtype in qdata then Some(qdata[gtype])
      else if gtype in imported then Some(imported[gtype])
      else None
    }

    /** pygi_wrapper_funcs_get: the funcs block of the capsule attribute, None when it is absent. */
    function FuncsGet(c: nat): (r: Option<Ptr>)
      reads this
      ensures r.Some? <==> c in classes && classes[c].funcs.Some?
    {
      if c in classes then classes[c].funcs else None
    }

    /**
     * pygi_wrapper_funcs_attach, as written: the block is allocated zero
     * filled and the given functions are never stored in it. On failure
     * MemoryError is raised for the allocation, and the block is released
     * when the capsule or the attribute cannot be made.
     */
    method FuncsAttach(heap: NativeHeap, c: nat, copy: Option<nat>, free: Option<nat>, failsAt: Option<Step>)
      returns (status: int, err: Option<PyError>)
      requires Valid(heap) && c in classes && classes[c].funcs.None?
      modifies this, heap
      ensures Valid(heap) && qdata == old(qdata) && nextClass == old(nextClass) && freeCalls == old(freeCalls)
      ensures heap.foreignReleased == old(heap.foreignReleased)
      ensures status == 0 <==> failsAt != Some(FuncsAllocStep) && failsAt != Some(CapsuleStep) && failsAt != Some(FuncsAttrStep)
      ensures failsAt == Some(FuncsAllocStep) ==> err == Some(MemoryError)
      ensures status != 0 ==> status == -1 && classes == old(classes) && heap.blocks == old(heap.blocks) && err.Some?
      ensures status == 0 ==>
                && err.None? && OwnsFuncs(heap, c)
                && classes == old(classes)[c := old(classes)[c].(funcs := classes[c].funcs)]
                && classes[c].funcs.value.address !in old(heap.blocks)
                && heap.blocks == old(heap.blocks)[classes[c].funcs.value.address := [0, 0]]
    {
      var block := heap.TryMalloc0(2, failsAt == Some(FuncsAllocStep));
      if block == Null {
        return -1, Some(MemoryError);
      }
      assert heap.blocks[block.address] == [0, 0];
      if failsAt == Some(CapsuleStep) || failsAt == Some(FuncsAttrStep) {
        heap.Free(block);
        return -1, Some(CollaboratorError);
      }
      classes := classes[c := classes[c].(funcs := Some(block))];
      status, err := 0, None;
    }

    /** The attach the documentation describes: the block holds the given copy and free functions. */
    method FuncsAttachIntended(heap: NativeHeap, c: nat, copy: Option<nat>, free: Option<nat>, failsAt: Option<Step>)
      returns (status: int, err: Option<PyError>)
      requires Valid(heap) && c in classes && classes[c].funcs.None?
      modifies this, heap
      ensures Valid(heap) && qdata == old(qdata) && nextClass == old(nextClass) && freeCalls == old(freeCalls)
      ensures heap.foreignReleased == old(heap.foreignReleased)
      ensures status == 0 <==> failsAt != Some(FuncsAllocStep) && failsAt != Some(CapsuleStep) && failsAt != Some(FuncsAttrStep)
      ensures status != 0 ==> status == -1 && classes == old(classes) && heap.blocks == old(heap.blocks) && err.Some?
      ensures status == 0 ==>
                && err.None? && OwnsFuncs(heap, c)
                && classes == old(classes)[c := old(classes)[c].(funcs := classes[c].funcs)]
                && classes[c].funcs.value.address !in old(heap.blocks)
                && heap.blocks == old(heap.blocks)[classes[c].funcs.value.address := FuncsWords(copy, free)]
                && FreeFuncOf(heap.blocks[classes[c].funcs.value.address]) == (if free.Some? && free.value > 0 then free else None)
    {
      var block := heap.TryMalloc0(2, failsAt == Some(FuncsAllocStep));
      if block == Null {
        return -1, Some(MemoryError);
      }
      if failsAt == Some(CapsuleStep) || failsAt == Some(FuncsAttrStep) {
        heap.Free(block);
        return -1, Some(CollaboratorError);
      }
      heap.Store(block, FuncsWords(copy, free));
      classes := classes[c := classes[c].(funcs := Some(block))];
      status, err := 0, None;
    }

    /** Py_DECREF of a class that nothing else holds: the class dies and its capsule frees the funcs block. */
    method DestroyClass(heap: NativeHeap, c: nat)
      requires heap.Valid() && c in classes
      requires classes[c].funcs.Some? ==> classes[c].funcs.value.Addr?
      modifies this, heap
      ensures heap.Valid() && heap.foreignReleased == old(heap.foreignReleased)
      ensures qdata == old(qdata) && nextClass == old(nextClass) && freeCalls == old(freeCalls)
      ensures classes == old(classes) - {c}
      ensures heap.blocks == if old(classes)[c].funcs.Some? then old(heap.blocks) - {old(classes)[c].funcs.value.address}
                             else old(heap.blocks)
    {
      if classes[c].funcs.Some? {
        heap.Free(classes[c].funcs.value);
      }
      classes := classes - {c};
    }

    /**
     * The middle of pygi_wrapper_class_new_full, as written: the class is
     * made by calling `type`, given its `__module__` and its funcs; a
     * failure after the class exists destroys it.
     */
    method CreateClass(heap: NativeHeap, name: string, moduleName: string,
                       copy: Option<nat>, free: Option<nat>, failsAt: Option<Step>)
      returns (cls: Option<nat>)
      requires Valid(heap)
      modifies this, heap
      ensures Valid(heap) && freeCalls == old(freeCalls) && qdata == old(qdata)
      ensures heap.foreignReleased == old(heap.foreignReleased)
      ensures nextClass >= old(nextClass)
      ensures cls.None? <==> StepFails(failsAt, G_TYPE_NONE)
      ensures cls.None? ==> classes == old(classes) && heap.blocks == old(heap.blocks)
      ensures cls.Some? ==>
                && cls.value == old(nextClass) && cls.value !in old(classes) && nextClass == cls.value + 1
                && OwnsFuncs(heap, cls.value)
                && classes == old(classes)[cls.value := ClassRecord(name, moduleName, classes[cls.value].funcs, None)]
                && classes[cls.value].funcs.value.address !in old(heap.blocks)
                && heap.blocks == old(heap.blocks)[classes[cls.value].funcs.value.address := [0, 0]]
    {
      if failsAt == Some(DictStep) || failsAt == Some(TypeStep) {
        return None;
      }
      var c := nextClass;
      assert c !in classes;
      classes := classes[c := ClassRecord(name, "", None, None)];
      nextClass := nextClass + 1;
      if failsAt == Some(ModuleAttrStep) {
        DestroyClass(heap, c);
        return None;
      }
      classes := classes[c := classes[c].(moduleName := moduleName)];
      var status, err := FuncsAttach(heap, c, copy, free, failsAt);
      if status < 0 {
        DestroyClass(heap, c);
        return None;
      }
      cls := Some(c);
    }

    /**
     * pygi_wrapper_class_new_full, as written. A GType other than NONE that
     * already has a class answers that class; otherwise a fresh class is made
     * and, for a GType other than NONE, remembered in the qdata BEFORE its
     * `__gtype__` attribute is set. `failsAt` is the step whose collaborator
     * fails, if any; after the class exists, a failure destroys it.
     */
    method ClassNewFull(heap: NativeHeap, name: string, moduleName: string, gtype: GTypeId,
                        copy: Option<nat>, free: Option<nat>, failsAt: Option<Step>)
      returns (cls: Option<nat>)
      requires Valid(heap)
      modifies this, heap
      ensures heap.Valid() && freeCalls == old(freeCalls) && heap.foreignReleased == old(heap.foreignReleased)
      ensures gtype != G_TYPE_NONE && old(ClassFromGType(gtype)).Some? ==>
                cls == old(ClassFromGType(gtype)) && classes == old(classes) && qdata == old(qdata)
                && heap.blocks == old(heap.blocks)
      ensures (gtype == G_TYPE_NONE || old(ClassFromGType(gtype)).None?) && !StepFails(failsAt, gtype) ==>
                && cls == Some(old(nextClass)) && old(nextClass) !in old(classes)
                && classes.Keys == old(classes).Keys + {old(nextClass)}
                && classes[old(nextClass)].name == name && classes[old(nextClass)].moduleName == moduleName
                && classes[old(nextClass)].gtypeAttr == (if gtype != G_TYPE_NONE then Some(gtype) else None)
                && qdata == (if gtype != G_TYPE_NONE then old(qdata)[gtype := old(nextClass)] else old(qdata))
                && Valid(heap) && OwnsFuncs(heap, old(nextClass))
                && FreeFuncOf(heap.blocks[classes[old(nextClass)].funcs.value.address]).None?
                // the classes that existed are untouched, and the only new block is the class's funcs block
                && (forall c :: c in old(classes) ==> classes[c] == old(classes)[c])
                && classes[old(nextClass)].funcs.value.address !in old(heap.blocks)
                && heap.blocks == old(heap.blocks)[classes[old(nextClass)].funcs.value.address := [0, 0]]
      ensures (gtype == G_TYPE_NONE || old(ClassFromGType(gtype)).None?) && StepFails(failsAt, gtype) ==>
                cls.None? && classes == old(classes) && heap.blocks == old(heap.blocks)
      ensures gtype != G_TYPE_NONE && old(ClassFromGType(gtype)).None? && failsAt == Some(GTypeAttrStep) ==>
                qdata == old(qdata)[gtype := old(nextClass)] && old(nextClass) !in classes
    {
      if gtype != G_TYPE_NONE {
        var existing := ClassFromGType(gtype);
        if existing.Some? {
          return existing;
        }
      }
      cls := CreateClass(heap, name, moduleName, copy, free, failsAt);
      if cls.None? {
        return;
      }
      var c := cls.value;
      if gtype != G_TYPE_NONE {
        qdata := qdata[gtype := c];
        if failsAt == Some(GTypeAttrStep) {
          DestroyClass(heap, c);
          return None;
        }
        classes := classes[c := classes[c].(gtypeAttr := Some(gtype))];
      }
    }

    /** The same creation with the qdata set only once the class is complete: the registry stays valid on every path. */
    method ClassNewFullIntended(heap: NativeHeap, name: string, moduleName: string, gtype: GTypeId,
                                copy: Option<nat>, free: Option<nat>, failsAt: Option<Step>)
      returns (cls: Option<nat>)
      requires Valid(heap)
      modifies this, heap
      ensures Valid(heap) && freeCalls == old(freeCalls)
      ensures gtype != G_TYPE_NONE && old(ClassFromGType(gtype)).Some? ==>
                cls == old(ClassFromGType(gtype)) && classes == old(classes) && qdata == old(qdata)
      ensures cls.Some? && gtype != G_TYPE_NONE ==> ClassFromGType(gtype) == cls
      ensures heap.foreignReleased == old(heap.foreignReleased)
      ensures gtype != G_TYPE_NONE && old(ClassFromGType(gtype)).Some? ==> heap.blocks == old(heap.blocks)
      ensures (gtype == G_TYPE_NONE || old(ClassFromGType(gtype)).None?) && !StepFails(failsAt, gtype) ==>
                && cls == Some(old(nextClass)) && old(nextClass) !in old(classes)
                && classes.Keys == old(classes).Keys + {old(nextClass)}
                && classes[old(nextClass)].name == name && classes[old(nextClass)].moduleName == moduleName
                && classes[old(nextClass)].gtypeAttr == (if gtype != G_TYPE_NONE then Some(gtype) else None)
                && qdata == (if gtype != G_TYPE_NONE then old(qdata)[gtype := old(nextClass)] else old(qdata))
                && OwnsFuncs(heap, old(nextClass))
                && FreeFuncOf(heap.blocks[classes[old(nextClass)].funcs.value.address])
                   == (if free.Some? && free.value > 0 then free else None)
                && (forall c :: c in old(classes) ==> classes[c] == old(classes)[c])
                && classes[old(nextClass)].funcs.value.address !in old(heap.blocks)
                && heap.blocks == old(heap.blocks)[classes[old(nextClass)].funcs.value.address := FuncsWords(copy, free)]
      ensures (gtype == G_TYPE_NONE || old(ClassFromGType(gtype)).None?) && StepFails(failsAt, gtype) ==>
                cls.None? && classes == old(classes) && qdata == old(qdata) && heap.blocks == old(heap.blocks)
    {
      if gtype != G_TYPE_NONE {
        var existing := ClassFromGType(gtype);
        if existing.Some? {
          return existing;
        }
      }
      cls := CreateClassIntended(heap, name, moduleName, copy, free, failsAt);
      if cls.None? {
        return;
      }
      var c := cls.value;
      if gtype != G_TYPE_NONE {
        if failsAt == Some(GTypeAttrStep) {
          DestroyClass(heap, c);
          return None;
        }
        classes := classes[c := classes[c].(gtypeAttr := Some(gtype))];
        qdata := qdata[gtype := c];
      }
    }

    /** CreateClass with the funcs block holding the given functions. */
    method CreateClassIntended(heap: NativeHeap, name: string, moduleName: string,
                               copy: Option<nat>, free: Option<nat>, failsAt: Option<Step>)
      returns (cls: Option<nat>)
      requires Valid(heap)
      modifies this, heap
      ensures Valid(heap) && freeCalls == old(freeCalls) && qdata == old(qdata)
      ensures heap.foreignReleased == old(heap.foreignReleased)
      ensures cls.None? <==> StepFails(failsAt, G_TYPE_NONE)
      ensures cls.None? ==> classes == old(classes) && heap.blocks == old(heap.blocks)
      ensures cls.Some? ==>
                && cls.value == old(nextClass) && cls.value !in old(classes)
                && OwnsFuncs(heap, cls.value)
                && classes == old(classes)[cls.value := ClassRecord(name, moduleName, classes[cls.value].funcs, None)]
                && classes[cls.value].funcs.value.address !in old(heap.blocks)
                && heap.blocks == old(heap.blocks)[classes[cls.value].funcs.value.address := FuncsWords(copy, free)]
                && FreeFuncOf(heap.blocks[classes[cls.value].funcs.value.address])
                   == (if free.Some? && free.value > 0 then free else None)
    {
      if failsAt == Some(DictStep) || failsAt == Some(TypeStep) {
        return None;
      }
      var c := nextClass;
      assert c !in classes;
      classes := classes[c := ClassRecord(name, "", None, None)];
      nextClass := nextClass + 1;
      if failsAt == Some(ModuleAttrStep) {
        DestroyClass(heap, c);
        return None;
      }
      classes := classes[c := classes[c].(moduleName := moduleName)];
      var status, err := FuncsAttachIntended(heap, c, copy, free, failsAt);
      if status < 0 {
        DestroyClass(heap, c);
        return None;
      }
      cls := Some(c);
    }

  }

  /** Creating a wrapper class twice for one GType answers the first class and creates nothing the second time. */
  method ClassNewFullIsIdempotent(reg: Registry, heap: NativeHeap, name: string, moduleName: string, gtype: GTypeId,
                                  copy: Option<nat>, free: Option<nat>)
    returns (first: Option<nat>, second: Option<nat>)
    requires reg.Valid(heap) && gtype != G_TYPE_NONE && gtype !in reg.qdata && gtype !in reg.imported
    modifies reg, heap
    ensures first.Some? && second == first
    ensures reg.classes.Keys == old(reg.classes).Keys + {first.value}
  {
    first := reg.ClassNewFull(heap, name, moduleName, gtype, copy, free, None);
    second := reg.ClassNewFull(heap, name, moduleName, gtype, copy, free, None);
  }

  /**
   * A counterexample run: when setting `__gtype__` fails, the qdata still
   * names the destroyed class, and the next lookup answers it.
   */
  method QdataOutlivesClass(reg: Registry, heap: NativeHeap, gtype: GTypeId) returns (dangling: Option<nat>)
    requires reg.Valid(heap) && gtype != G_TYPE_NONE && gtype !in reg.qdata && gtype !in reg.imported
    modifies reg, heap
    ensures dangling.Some? && dangling.value !in reg.classes
  {
    var cls := reg.ClassNewFull(heap, "Boxed", "GIMarshallingTests", gtype, Some(1), Some(2), Some(GTypeAttrStep));
    dangling := reg.ClassFromGType(gtype);
  }

  /** PyGIWrapper: an instance of a wrapper class holding the wrapped pointer. */
  class PyGIWrapper {
    const cls: nat
    var wrapped: Ptr

    constructor (cls: nat, wrapped: Ptr)
      ensures this.cls == cls && this.wrapped == wrapped
    {
      this.cls := cls;
      this.wrapped := wrapped;
    }

    /**
     * _pygi_wrapper_init: a wrapper cannot be constructed from Python.
     * Without arguments the pointer is cleared and NotImplementedError
     * raised; arguments fail the parse (TypeError) first.
     */
    method Init(hasArgs: bool) returns (status: int, err: PyError)
      modifies this
      ensures status == -1
      ensures hasArgs ==> err == TypeError && wrapped == old(wrapped)
      ensures !hasArgs ==> err == NotImplementedError && wrapped == Null
    {
      if hasArgs {
        return -1, TypeError;
      }
      wrapped := Null;
      return -1, NotImplementedError;
    }

    /**
     * _pygi_wrapper_dealloc: calls the class's free function on the
     * wrapped pointer when there are funcs, a free function and a pointer,
     * and clears the pointer after the call.
     */
    method Dealloc(reg: Registry, heap: NativeHeap)
      requires reg.Valid(heap)
      modifies this, reg
      ensures reg.classes == old(reg.classes) && reg.qdata == old(reg.qdata) && reg.Valid(heap)
      ensures var f := FreeFunction(reg, heap, cls);
              if f.Some? && old(wrapped) != Null
              then reg.freeCalls == old(reg.freeCalls) + [(f.value, old(wrapped))] && wrapped == Null
              else reg.freeCalls == old(reg.freeCalls) && wrapped == old(wrapped)
    {
      var f := FreeFunction(reg, heap, cls);
      if f.Some? && wrapped != Null {
        reg.freeCalls := reg.freeCalls + [(f.value, wrapped)];
        wrapped := Null;
      }
    }
  }

  /** The free function the funcs of class `c` hold, if the class has funcs. */
  function FreeFunction(reg: Registry, heap: NativeHeap, c: nat): Option<nat>
    reads reg, heap
    requires reg.Valid(heap)
  {
    var funcs := reg.FuncsGet(c);
    if funcs.Some? then FreeFuncOf(heap.blocks[funcs.value.address]) else None
  }

  /** However often dealloc runs, the free function is called at most once. */
  method DeallocTwice(self: PyGIWrapper, reg: Registry, heap: NativeHeap)
    requires reg.Valid(heap)
    modifies self, reg
    ensures |reg.freeCalls| <= |old(reg.freeCalls)| + 1
  {
    self.Dealloc(reg, heap);
    self.Dealloc(reg, heap);
  }

  /**
   * A counterexample run: a class created with a free function never calls
   * it, because the attached funcs block stays zero filled.
   */
  method FreeIsNeverCalled(reg: Registry, heap: NativeHeap, gtype: GTypeId) returns (calls: nat)
    requires reg.Valid(heap) && gtype != G_TYPE_NONE && gtype !in reg.qdata && gtype !in reg.imported
    modifies reg, heap
    ensures calls == 0
  {
    var cls := reg.ClassNewFull(heap, "Boxed", "GIMarshallingTests", gtype, Some(1), Some(2), None);
    var w := new PyGIWrapper(cls.value, Addr(4096));
    var before := |reg.freeCalls|;
    w.Dealloc(reg, heap);
    calls := |reg.freeCalls| - before;
  }

  /** The comparison operators of tp_richcompare. */
  datatype CompareOp = Lt | Le | Eq | Ne | Gt | Ge

  /** What tp_richcompare answers: a boolean, or NotImplemented. */
  datatype CompareResult = Bool(b: bool) | NotImplemented

  function AddressValue(p: Ptr): nat
  {
    if p.Addr? then p.address else 0
  }

  /**
   * _pygi_wrapper_richcompare: wrappers of the same type compare their
   * wrapped pointers as addresses; wrappers of different types answer
   * NotImplemented.
   */
  function RichCompare(selfType: nat, self: Ptr, otherType: nat, other: Ptr, op: CompareOp): (r: CompareResult)
    ensures selfType != otherType ==> r == NotImplemented
    ensures selfType == otherType ==> r.Bool?
    ensures selfType == otherType && op == Eq ==> (r.b <==> AddressValue(self) == AddressValue(other))
    ensures selfType == otherType && op == Ne ==> (r.b <==> AddressValue(self) != AddressValue(other))
    ensures selfType == otherType && op == Lt ==> (r.b <==> AddressValue(self) < AddressValue(other))
    ensures selfType == otherType && op == Le ==> (r.b <==> AddressValue(self) <= AddressValue(other))
    ensures selfType == otherType && op == Gt ==> (r.b <==> AddressValue(self) > AddressValue(other))
    ensures selfType == otherType && op == Ge ==> (r.b <==> !(AddressValue(self) < AddressValue(other)))
  {
    if selfType != otherType then NotImplemented
    else
      var a, b := AddressValue(self), AddressValue(other);
      Bool(match op
           case Lt => a < b
           case Le => a <= b
           case Eq => a == b
           case Ne => a != b
           case Gt => a > b
           case Ge => a >= b)
  }

  const POINTER_RANGE: nat := 0x1_0000_0000_0000_0000

  /**
   * _pygi_wrapper_hash: the wrapped pointer converted to a 64-bit signed
   * long, so addresses from 2^63 on come out negative.
   */
  function Hash(p: Ptr): (h: int)
    requires AddressValue(p) < POINTER_RANGE
    ensures -0x8000_0000_0000_0000 <= h < 0x8000_0000_0000_0000
    ensures h % POINTER_RANGE == AddressValue(p)
  {
    var a := AddressValue(p);
    if a < 0x8000_0000_0000_0000 then a else a - POINTER_RANGE
  }

  /** Hash agrees with equality: equal wrappers hash alike, and distinct pointers hash apart. */
  lemma HashMatchesEquality(t: nat, p: Ptr, q: Ptr)
    requires AddressValue(p) < POINTER_RANGE && AddressValue(q) < POINTER_RANGE
    ensures RichCompare(t, p, t, q, Eq) == Bool(Hash(p) == Hash(q))
  {
    assert Hash(p) % POINTER_RANGE == AddressValue(p);
    assert Hash(q) % POINTER_RANGE == AddressValue(q);
  }
}
