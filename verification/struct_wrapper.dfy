/**
 * gi.Struct: the Python wrapper of a non-registered C structure. Creating
 * one allocates a zero-filled block of the structure's size; releasing one
 * hands the memory to the foreign-struct hook, frees it, or keeps it; and a
 * structure that describes a buffer exports it through the buffer protocol
 * (PEP 3118) as a one-dimensional view.
 */
module StructWrapper {
  import opened GI
  import opened Native

  /** GIArrayType, with NotAnArray for a type that is no array. */
  datatype ArrayType = CArray | GArrayType | PtrArrayType | ByteArrayType | NotAnArray

  /** The facts about a field's GITypeInfo that the buffer exporter consults. */
  datatype FieldType = FieldType(isPointer: bool, tag: TypeTag, arrayType: ArrayType)

  datatype FieldInfo = FieldInfo(name: string, fieldType: FieldType)

  /** The introspection data of a structure. */
  datatype StructInfo = StructInfo(namespace: string, name: string, size: nat, isForeign: bool,
                                   fields: seq<FieldInfo>)

  /** Reference lookup: the position of the first field called `name`. */
  function FieldIndex(fields: seq<FieldInfo>, name: string): Option<nat>
  {
    if fields == [] then None
    else if fields[0].name == name then Some(0)
    else match FieldIndex(fields[1..], name)
         case None => None
         case Some(i) => Some(i + 1)
  }

  lemma {:induction false} FieldIndexIsFirst(fields: seq<FieldInfo>, name: string)
    ensures FieldIndex(fields, name).None? <==> forall j :: 0 <= j < |fields| ==> fields[j].name != name
    ensures FieldIndex(fields, name).Some? ==>
              var i := FieldIndex(fields, name).value;
              i < |fields| && fields[i].name == name && forall j :: 0 <= j < i ==> fields[j].name != name
  {
    if fields != [] && fields[0].name != name {
      FieldIndexIsFirst(fields[1..], name);
      forall j | 1 <= j < |fields| ensures fields[j] == fields[1..][j - 1] { }
    }
  }

  /**
   * struct_info_find_field: the linear search over the fields, answering
   * the first one whose name equals `name`.
   */
  method FindField(info: StructInfo, name: string) returns (r: Option<nat>)
    ensures r.Some? ==> r.value < |info.fields| && info.fields[r.value].name == name
                        && forall j :: 0 <= j < r.value ==> info.fields[j].name != name
    ensures r.None? ==> forall j :: 0 <= j < |info.fields| ==> info.fields[j].name != name
  {
    var i := 0;
    while i < |info.fields|
      invariant 0 <= i <= |info.fields|
      invariant forall j :: 0 <= j < i ==> info.fields[j].name != name
    {
      if info.fields[i].name == name {
        return Some(i);
      }
      i := i + 1;
    }
    return None;
  }

  /** The search and the reference lookup agree. */
  method FindFieldAgrees(info: StructInfo, name: string) returns (r: Option<nat>)
    ensures r == FieldIndex(info.fields, name)
  {
    r := FindField(info, name);
    FieldIndexIsFirst(info.fields, name);
  }

  /** PyGIStruct: a PyGPointer (pointer and GType) plus the free-on-dealloc flag. */
  class PyGIStruct {
    var pointer: Ptr
    var gtype: GTypeId
    var freeOnDealloc: bool

    constructor (pointer: Ptr, gtype: GTypeId, freeOnDealloc: bool)
      ensures this.pointer == pointer && this.gtype == gtype && this.freeOnDealloc == freeOnDealloc
    {
      this.pointer := pointer;
      this.gtype := gtype;
      this.freeOnDealloc := freeOnDealloc;
    }
  }

  /**
   * _pygi_struct_new: wraps `pointer` in an instance of a type, which must be
   * a subtype of gi.Struct. `allocFails` is the type allocator's answer,
   * `typeGType` the GType the type object carries.
   */
  method WrapStruct(isSubtype: bool, allocFails: bool, typeGType: GTypeId, pointer: Ptr, freeOnDealloc: bool)
    returns (self: PyGIStruct?, err: Option<PyError>)
    ensures !isSubtype ==> self == null && err == Some(TypeError)
    ensures isSubtype && allocFails ==> self == null && err == Some(MemoryError)
    ensures isSubtype && !allocFails ==>
              self != null && fresh(self) && err.None?
              && self.pointer == pointer && self.gtype == typeGType && self.freeOnDealloc == freeOnDealloc
  {
    if !isSubtype {
      return null, Some(TypeError);
    }
    if allocFails {
      return null, Some(MemoryError);
    }
    self := new PyGIStruct(pointer, typeGType, freeOnDealloc);
    err := None;
  }

  /** The error a failed introspection lookup surfaces as: a missing attribute reads as missing information. */
  function InfoLookupError(e: PyError): (r: PyError)
    ensures e == AttributeError ==> r == TypeError
    ensures e != AttributeError ==> r == e
  {
    if e == AttributeError then TypeError else e
  }

  /**
   * _struct_new: gi.Struct takes no arguments; it needs introspection data
   * with a non-zero size, allocates a zero-filled block of that size and
   * wraps it with free-on-dealloc set, releasing the block again if the
   * wrapping fails.
   */
  method StructNew(heap: NativeHeap, hasArgs: bool, info: Result<StructInfo, PyError>, exhausted: bool,
                   isSubtype: bool, allocFails: bool, typeGType: GTypeId)
    returns (self: PyGIStruct?, err: Option<PyError>)
    requires heap.Valid()
    modifies heap
    ensures heap.Valid() && heap.foreignReleased == old(heap.foreignReleased)
    ensures self == null <==> err.Some?
    ensures hasArgs ==> err == Some(TypeError)
    ensures !hasArgs && info.Failure? ==> err == Some(InfoLookupError(info.error))
    ensures !hasArgs && info.Success? && info.value.size == 0 ==> err == Some(TypeError)
    ensures !hasArgs && info.Success? && info.value.size > 0 && exhausted ==> err == Some(MemoryError)
    ensures !hasArgs && info.Success? && info.value.size > 0 && !exhausted && !isSubtype ==> err == Some(TypeError)
    ensures (!hasArgs && info.Success? && info.value.size > 0 && !exhausted && isSubtype && allocFails)
              ==> err == Some(MemoryError)
    ensures (!hasArgs && info.Success? && info.value.size > 0 && !exhausted && isSubtype && !allocFails)
              ==> self != null
    ensures self == null ==> heap.blocks == old(heap.blocks)
    ensures self != null ==>
              && !hasArgs && info.Success? && info.value.size > 0 && !exhausted && isSubtype && !allocFails
              && fresh(self) && self.freeOnDealloc && self.gtype == typeGType
              && self.pointer.Addr? && self.pointer.address !in old(heap.blocks)
              && heap.blocks == old(heap.blocks)[self.pointer.address := seq(info.value.size, _ => 0)]
  {
    if hasArgs {
      return null, Some(TypeError);
    }
    if info.Failure? {
      return null, Some(InfoLookupError(info.error));
    }
    if info.value.size == 0 {
      return null, Some(TypeError);
    }
    var pointer := heap.TryMalloc0(info.value.size, exhausted);
    if pointer == Null {
      return null, Some(MemoryError);
    }
    self, err := WrapStruct(isSubtype, allocFails, typeGType, pointer, true);
    if self == null {
      heap.Free(pointer);
    }
  }

  /** What dealloc does with the wrapped memory. */
  datatype Release = ForeignRelease | FreeMemory | KeepMemory

  /**
   * _struct_dealloc's decision: a foreign struct goes to the foreign
   * release hook (whatever the flag says), otherwise the flag decides
   * between freeing and keeping. Without introspection data the struct is
   * not known to be foreign.
   */
  function ReleaseFor(info: Result<StructInfo, PyError>, freeOnDealloc: bool): (r: Release)
    ensures r == ForeignRelease <==> info.Success? && info.value.isForeign
    ensures r == FreeMemory <==> !(info.Success? && info.value.isForeign) && freeOnDealloc
    ensures r == KeepMemory <==> !(info.Success? && info.value.isForeign) && !freeOnDealloc
  {
    if info.Success? && info.value.isForeign then ForeignRelease
    else if freeOnDealloc then FreeMemory
    else KeepMemory
  }

  /** _struct_dealloc: carries out the release decision on the native heap. */
  method Dealloc(self: PyGIStruct, heap: NativeHeap, info: Result<StructInfo, PyError>)
    requires heap.Valid()
    modifies heap
    ensures heap.Valid()
    ensures ReleaseFor(info, self.freeOnDealloc) == ForeignRelease ==>
              heap.foreignReleased == old(heap.foreignReleased) + [self.pointer] && heap.blocks == old(heap.blocks)
    ensures ReleaseFor(info, self.freeOnDealloc) == FreeMemory ==>
              heap.foreignReleased == old(heap.foreignReleased)
              && heap.blocks == if self.pointer.Addr? then old(heap.blocks) - {self.pointer.address} else old(heap.blocks)
    ensures ReleaseFor(info, self.freeOnDealloc) == KeepMemory ==>
              heap.foreignReleased == old(heap.foreignReleased) && heap.blocks == old(heap.blocks)
  {
    if info.Success? && info.value.isForeign {
      heap.ForeignRelease(self.pointer);
    } else if self.freeOnDealloc {
      heap.Free(self.pointer);
    }
  }

  /** The `buf` item of the buffer-info tuple: an integer address, a field name, or anything else. */
  datatype BufAttr = IntAddr(n: int) | FieldName(field: string) | OtherAttr

  /**
   * The parsed `(buf, len, itemsize[, readonly[, format]])` tuple that
   * `_pygi_getbufferinfo_` returns; the optional items are None when the
   * tuple stops before them.
   */
  datatype BufferInfo = BufferInfo(buf: BufAttr, len: int, itemsize: int, readonly: Option<bool>,
                                   format: Option<string>)

  /** A field can hold a buffer when it is a pointer to void or a C array. */
  predicate BufferCapable(t: FieldType)
  {
    t.isPointer && (t.tag == Void || t.arrayType == CArray)
  }

  /**
   * The validation chain of struct_getbuffer for the `buf` item, as
   * written: a field name must name a buffer-capable field whose value can
   * be read (`read` is what reading it answers); an integer is accepted
   * but the pointer exported is the never-assigned local, NULL.
   */
  function ResolveBuffer(attr: BufAttr, fields: seq<FieldInfo>, read: Option<Ptr>): (r: Result<Ptr, PyError>)
    ensures r.Failure? ==> r.error == TypeError
    ensures attr.IntAddr? ==> r == Success(Null)
    ensures attr.OtherAttr? ==> r.Failure?
    ensures attr.FieldName? ==>
              (r.Success? <==> FieldIndex(fields, attr.field).Some?
                               && FieldIndex(fields, attr.field).value < |fields|
                               && BufferCapable(fields[FieldIndex(fields, attr.field).value].fieldType)
                               && read.Some?)
    ensures attr.FieldName? && r.Success? ==> r.value == read.value
  {
    match attr
    case IntAddr(_) => Success(Null)
    case OtherAttr => Failure(TypeError)
    case FieldName(name) =>
      match FieldIndex(fields, name)
      case None => Failure(TypeError)
      case Some(i) =>
        if i >= |fields| || !BufferCapable(fields[i].fieldType) then Failure(TypeError)
        else if read.None? then Failure(TypeError)
        else Success(read.value)
  }

  /** PyLong_AsVoidPtr for the addresses the model covers: 0 is NULL. */
  function AddressOf(n: nat): Ptr
  {
    if n == 0 then Null else Addr(n)
  }

  /** The chain with the integer address exported, as the integer branch evidently intends. */
  function ResolveBufferIntended(attr: BufAttr, fields: seq<FieldInfo>, read: Option<Ptr>): (r: Result<Ptr, PyError>)
    ensures attr.IntAddr? && attr.n >= 0 ==> r == Success(AddressOf(attr.n))
    ensures !attr.IntAddr? ==> r == ResolveBuffer(attr, fields, read)
  {
    if attr.IntAddr? && attr.n >= 0 then Success(AddressOf(attr.n)) else ResolveBuffer(attr, fields, read)
  }

  /** A counterexample input: the address 4096 given as an integer is not the address exported. */
  lemma IntegerAddressIsDropped(fields: seq<FieldInfo>, read: Option<Ptr>)
    ensures ResolveBuffer(IntAddr(4096), fields, read) == Success(Null)
    ensures ResolveBufferIntended(IntAddr(4096), fields, read) == Success(Addr(4096))
  {
  }

  /**
   * The view struct_getbuffer fills, as written: readonly only for an
   * explicit True, the format under PyBUF_FORMAT, a shape of `len` under
   * PyBUF_ND, strides under PyBUF_STRIDES. An omitted readonly or format
   * item leaves the local uninitialised: `staleReadonly` is what comparing
   * the stale local with True answers, and the stale format is StaleFormat.
   */
  function StructView(bi: BufferInfo, buf: Ptr, flags: bv32, staleReadonly: bool): (v: View)
    ensures OneDimensional(v, flags, bi.len)
    ensures v.buf == buf && v.itemsize == bi.itemsize
    ensures bi.readonly.Some? ==> (v.readonly <==> bi.readonly.value)
    ensures bi.readonly.None? ==> v.readonly == staleReadonly
    ensures v.format.Some? <==> Requested(flags, PyBUF_FORMAT)
    ensures v.format.Some? ==>
              v.format.value == if bi.format.Some? then FormatStr(bi.format.value) else StaleFormat
    ensures v.shape.Some? <==> Requested(flags, PyBUF_ND)
    ensures v.strides <==> Requested(flags, PyBUF_STRIDES)
  {
    View(buf,
         if bi.readonly.Some? then bi.readonly.value else staleReadonly,
         1, bi.itemsize, bi.len * bi.itemsize,
         if Requested(flags, PyBUF_FORMAT)
         then Some(if bi.format.Some? then FormatStr(bi.format.value) else StaleFormat)
         else None,
         if Requested(flags, PyBUF_ND) then Some(bi.len) else None,
         Requested(flags, PyBUF_STRIDES))
  }

  /**
   * The view with the omitted items at their documented defaults
   * (writable, no format): it never carries a stale value.
   */
  function StructViewIntended(bi: BufferInfo, buf: Ptr, flags: bv32): (v: View)
    ensures OneDimensional(v, flags, bi.len)
    ensures v.buf == buf && v.itemsize == bi.itemsize
    ensures v.readonly <==> bi.readonly == Some(true)
    ensures v.format.Some? <==> Requested(flags, PyBUF_FORMAT) && bi.format.Some?
    ensures v.format.Some? ==> v.format.value == FormatStr(bi.format.value)
    ensures v.format != Some(StaleFormat)
  {
    var asWritten := StructView(bi, buf, flags, false);
    asWritten.(format := if asWritten.format.Some? && bi.format.Some? then asWritten.format else None)
  }

  /** A counterexample input: a tuple without a format item exports the uninitialised format pointer. */
  lemma OmittedFormatIsStale(buf: Ptr, staleReadonly: bool)
    ensures StructView(BufferInfo(IntAddr(0), 4, 1, None, None), buf, PyBUF_FORMAT, staleReadonly).format
            == Some(StaleFormat)
  {
  }

  /**
   * struct_getbuffer, as written. `hasBufferInfo` says whether the object
   * has `_pygi_getbufferinfo_`, `info` is the introspection lookup,
   * `bufferInfo` the call of `_pygi_getbufferinfo_` with its tuple parsed,
   * `read` what reading the named field answers.
   */
  method GetBuffer(self: PyGIStruct, view: BufferView, heap: NativeHeap, flags: bv32, hasBufferInfo: bool,
                   info: Result<StructInfo, PyError>, bufferInfo: Result<BufferInfo, PyError>,
                   read: Option<Ptr>, staleReadonly: bool)
    returns (status: int, err: Option<PyError>)
    requires heap.Valid()
    modifies view, heap
    ensures heap.Valid() && heap.foreignReleased == old(heap.foreignReleased)
    ensures status == 0 <==> err.None?
    ensures status != 0 ==> status == -1 && unchanged(view) && heap.blocks == old(heap.blocks)
    ensures !hasBufferInfo ==> err == Some(NoExceptionSet)
    ensures hasBufferInfo && info.Failure? ==> err == Some(InfoLookupError(info.error))
    ensures hasBufferInfo && info.Success? && bufferInfo.Failure? ==> err == Some(bufferInfo.error)
    ensures hasBufferInfo && info.Success? && bufferInfo.Success? ==>
              match ResolveBuffer(bufferInfo.value.buf, info.value.fields, read)
              case Failure(e) => err == Some(e)
              case Success(buf) =>
                && err.None?
                && view.Holds(StructView(bufferInfo.value, buf, flags, staleReadonly), self, heap.blocks)
                && (if Requested(flags, PyBUF_ND)
                    then view.shape.Addr? && view.shape.address !in old(heap.blocks)
                         && heap.blocks == old(heap.blocks)[view.shape.address := [bufferInfo.value.len]]
                    else heap.blocks == old(heap.blocks))
  {
    if !hasBufferInfo {
      return -1, Some(NoExceptionSet);
    }
    if info.Failure? {
      return -1, Some(InfoLookupError(info.error));
    }
    if bufferInfo.Failure? {
      return -1, Some(bufferInfo.error);
    }
    var buf := ResolveBufferAttr(info.value, bufferInfo.value.buf, read);
    if buf.Failure? {
      return -1, Some(buf.error);
    }
    FillView(self, view, heap, bufferInfo.value, buf.value, flags, staleReadonly);
    status, err := 0, None;
  }

  /** The validation chain of struct_getbuffer, with the field search as a loop. */
  method ResolveBufferAttr(info: StructInfo, attr: BufAttr, read: Option<Ptr>) returns (r: Result<Ptr, PyError>)
    ensures r == ResolveBuffer(attr, info.fields, read)
  {
    var bufferPtr := Null;
    match attr {
      case IntAddr(_) =>
      case OtherAttr =>
        return Failure(TypeError);
      case FieldName(name) =>
        var found := FindFieldAgrees(info, name);
        if found.None? {
          return Failure(TypeError);
        }
        FieldIndexIsFirst(info.fields, name);
        if !BufferCapable(info.fields[found.value].fieldType) {
          return Failure(TypeError);
        }
        if read.None? {
          return Failure(TypeError);
        }
        bufferPtr := read.value;
    }
    return Success(bufferPtr);
  }

  /** The tail of struct_getbuffer: fills every field of the view, allocating the shape under PyBUF_ND. */
  method FillView(self: PyGIStruct, view: BufferView, heap: NativeHeap, bi: BufferInfo, buf: Ptr, flags: bv32,
                  staleReadonly: bool)
    requires heap.Valid()
    modifies view, heap
    ensures heap.Valid() && heap.foreignReleased == old(heap.foreignReleased)
    ensures view.Holds(StructView(bi, buf, flags, staleReadonly), self, heap.blocks)
    ensures if Requested(flags, PyBUF_ND)
            then view.shape.Addr? && view.shape.address !in old(heap.blocks)
                 && heap.blocks == old(heap.blocks)[view.shape.address := [bi.len]]
            else heap.blocks == old(heap.blocks)
  {
    FillFields(self, view, bi, buf, flags, staleReadonly);
    if Requested(flags, PyBUF_ND) {
      view.shape := heap.Alloc([bi.len]);
    }
  }

  /** Every field of the view except its shape, as struct_getbuffer fills them. */
  method FillFields(self: PyGIStruct, view: BufferView, bi: BufferInfo, buf: Ptr, flags: bv32, staleReadonly: bool)
    modifies view
    ensures view.Holds(StructView(bi, buf, flags, staleReadonly).(shape := None), self, map[])
  {
    var format := None;
    if Requested(flags, PyBUF_FORMAT) {
      format := Some(if bi.format.Some? then FormatStr(bi.format.value) else StaleFormat);
    }
    var readonly := if bi.readonly.Some? then bi.readonly.value else staleReadonly;
    view.obj, view.readonly, view.ndim, view.itemsize, view.len, view.buf := self, readonly, 1, bi.itemsize, bi.len * bi.itemsize, buf;
    view.format, view.shape, view.strides, view.suboffsets, view.internal := format, Null, Requested(flags, PyBUF_STRIDES), Null, Null;
  }


  /** struct_releasebuffer: frees exactly the shape block (nothing when there is none). */
  method ReleaseBuffer(view: BufferView, heap: NativeHeap)
    requires heap.Valid()
    modifies heap
    ensures heap.Valid() && heap.foreignReleased == old(heap.foreignReleased)
    ensures heap.blocks == if view.shape.Addr? then old(heap.blocks) - {view.shape.address} else old(heap.blocks)
  {
    heap.Free(view.shape);
  }

  /** Exporting a view and releasing it leaves the native heap as it was. */
  method ExportThenRelease(self: PyGIStruct, view: BufferView, heap: NativeHeap, flags: bv32,
                           info: Result<StructInfo, PyError>, bufferInfo: Result<BufferInfo, PyError>,
                           read: Option<Ptr>, staleReadonly: bool)
    requires heap.Valid()
    modifies view, heap
    ensures heap.blocks == old(heap.blocks)
  {
    var status, err := GetBuffer(self, view, heap, flags, true, info, bufferInfo, read, staleReadonly);
    if status == 0 {
      ReleaseBuffer(view, heap);
    }
  }
}
