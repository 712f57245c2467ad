/**
 * gi._Array: a Python object that wraps a GArray and exports its storage
 * through the buffer protocol. The struct-module format character is
 * chosen from the element type tag and the element size; the C integer
 * sizes of the platform are a parameter.
 */
module ArrayBuffer {
  import opened GI
  import opened Native

  /** sizeof of the C integer types; `longLongSize` is None when the platform has no long long. */
  datatype CSizes = CSizes(charSize: nat, shortSize: nat, intSize: nat, longSize: nat, longLongSize: Option<nat>)

  /** A size-to-format table, consulted from its first entry on. */
  type FormatTable = seq<(nat, char)>

  /** Reference lookup: the format of the first entry whose size equals `n`. */
  function FirstMatch(table: FormatTable, n: nat): Option<char>
  {
    if table == [] then None
    else if table[0].0 == n then Some(table[0].1)
    else FirstMatch(table[1..], n)
  }

  lemma {:induction false} FirstMatchIsFirst(table: FormatTable, n: nat)
    ensures FirstMatch(table, n).None? <==> forall i :: 0 <= i < |table| ==> table[i].0 != n
    ensures FirstMatch(table, n).Some? ==>
              exists i :: 0 <= i < |table| && table[i] == (n, FirstMatch(table, n).value)
                          && forall j :: 0 <= j < i ==> table[j].0 != n
  {
    if table != [] && table[0].0 != n {
      FirstMatchIsFirst(table[1..], n);
      if FirstMatch(table, n).Some? {
        var i :| 0 <= i < |table[1..]| && table[1..][i] == (n, FirstMatch(table, n).value)
                 && forall j :: 0 <= j < i ==> table[1..][j].0 != n;
        assert table[i + 1] == (n, FirstMatch(table, n).value);
        assert forall j :: 0 <= j < i + 1 ==> table[j].0 != n by {
          forall j | 0 <= j < i + 1 ensures table[j].0 != n {
            if j > 0 { assert table[j] == table[1..][j - 1]; }
          }
        }
      } else {
        forall i | 0 <= i < |table| ensures table[i].0 != n {
          if i > 0 { assert table[i] == table[1..][i - 1]; }
        }
      }
    }
  }

  /** The signed table in the order the source tests it. */
  function SignedTable(sizes: CSizes): FormatTable
  {
    [(sizes.charSize, 'b'), (sizes.shortSize, 'h'), (sizes.intSize, 'i'), (sizes.longSize, 'l')]
    + (if sizes.longLongSize.Some? then [(sizes.longLongSize.value, 'q')] else [])
  }

  /** The upper-case counterpart of a lower-case format character. */
  function Upper(f: Option<char>): Option<char>
  {
    if f.Some? && 'a' <= f.value <= 'z' then Some((f.value as int - 32) as char) else f
  }

  /**
   * _pygi_native_format_for_signed_int_size: the first C signed type, in
   * the order char, short, int, long, long long, whose size is `itemSize`.
   */
  function SignedFormat(sizes: CSizes, itemSize: nat): (f: Option<char>)
    ensures f == FirstMatch(SignedTable(sizes), itemSize)
    ensures f.Some? ==> f.value in "bhilq"
  {
    var t := SignedTable(sizes);
    assert FirstMatch(t, itemSize) == if itemSize == sizes.charSize then Some('b') else FirstMatch(t[1..], itemSize);
    assert FirstMatch(t[1..], itemSize) == if itemSize == sizes.shortSize then Some('h') else FirstMatch(t[2..], itemSize) by {
      assert t[1..][1..] == t[2..];
    }
    assert FirstMatch(t[2..], itemSize) == if itemSize == sizes.intSize then Some('i') else FirstMatch(t[3..], itemSize) by {
      assert t[2..][1..] == t[3..];
    }
    assert FirstMatch(t[3..], itemSize) == if itemSize == sizes.longSize then Some('l') else FirstMatch(t[4..], itemSize) by {
      assert t[3..][1..] == t[4..];
    }
    assert FirstMatch(t[4..], itemSize) == if sizes.longLongSize == Some(itemSize) then Some('q') else None by {
      if sizes.longLongSize.Some? {
        assert t[4..][1..] == [];
      } else {
        assert t[4..] == [];
      }
    }
    if itemSize == sizes.charSize then Some('b')
    else if itemSize == sizes.shortSize then Some('h')
    else if itemSize == sizes.intSize then Some('i')
    else if itemSize == sizes.longSize then Some('l')
    else if sizes.longLongSize == Some(itemSize) then Some('q')
    else None
  }

  /**
   * _pygi_native_format_for_unsigned_int_size: the same search over the
   * unsigned types (which have the sizes of their signed counterparts),
   * answering with the upper-case character.
   */
  function UnsignedFormat(sizes: CSizes, itemSize: nat): (f: Option<char>)
    ensures f == Upper(SignedFormat(sizes, itemSize))
    ensures f.Some? ==> f.value in "BHILQ"
  {
    if itemSize == sizes.charSize then Some('B')
    else if itemSize == sizes.shortSize then Some('H')
    else if itemSize == sizes.intSize then Some('I')
    else if itemSize == sizes.longSize then Some('L')
    else if sizes.longLongSize == Some(itemSize) then Some('Q')
    else None
  }

  /**
   * _pygi_type_tag_to_py_format: signed tags use the signed table, unsigned
   * tags the unsigned one, FLOAT is 'f', DOUBLE is 'D', every other tag has
   * no format.
   */
  function TagToFormat(sizes: CSizes, tag: TypeTag, itemSize: nat): (f: Option<char>)
    ensures IsSignedIntTag(tag) ==> f == FirstMatch(SignedTable(sizes), itemSize)
    ensures IsUnsignedIntTag(tag) ==> f == Upper(FirstMatch(SignedTable(sizes), itemSize))
    ensures tag.Float? ==> f == Some('f')
    ensures tag.Double? ==> f == Some('D')
    ensures f.Some? <==> (tag.Float? || tag.Double? ||
                          ((IsSignedIntTag(tag) || IsUnsignedIntTag(tag)) &&
                           FirstMatch(SignedTable(sizes), itemSize).Some?))
  {
    match tag
    case Int8 | Int16 | Int32 | Int64 => SignedFormat(sizes, itemSize)
    case UInt8 | UInt16 | UInt32 | UInt64 => UnsignedFormat(sizes, itemSize)
    case Float => Some('f')
    case Double => Some('D')
    case _ => None
  }

  /**
   * The same dispatch with DOUBLE mapped to 'd', the struct-module code for
   * a C double ('D' is not a struct-module code).
   */
  function TagToFormatIntended(sizes: CSizes, tag: TypeTag, itemSize: nat): (f: Option<char>)
    ensures tag.Double? ==> f == Some('d')
    ensures !tag.Double? ==> f == TagToFormat(sizes, tag, itemSize)
    ensures f.Some? ==> f.value in "bhilqBHILQfd"
  {
    if tag.Double? then Some('d') else TagToFormat(sizes, tag, itemSize)
  }

  /** A counterexample input: a DOUBLE array gets a format no struct consumer knows. */
  lemma DoubleFormatIsNotStructDouble(sizes: CSizes, itemSize: nat)
    ensures TagToFormat(sizes, Double, itemSize) == Some('D')
    ensures TagToFormat(sizes, Double, itemSize) != TagToFormatIntended(sizes, Double, itemSize)
  {
  }

  /** GArray: storage, element count and size, and a reference count. */
  class GArray {
    const data: Ptr
    const len: nat
    const elementSize: nat
    var refCount: int

    constructor (data: Ptr, len: nat, elementSize: nat)
      ensures this.data == data && this.len == len && this.elementSize == elementSize
      ensures refCount == 1
    {
      this.data, this.len, this.elementSize, refCount := data, len, elementSize, 1;
    }
  }

  /**
   * The view _pygi_array_getbuffer fills: the array's storage, writable,
   * one dimension, length in bytes, format only when asked for, and no
   * shape or strides.
   */
  function ArrayView(sizes: CSizes, tag: TypeTag, data: Ptr, len: nat, elementSize: nat, flags: bv32): (v: View)
    ensures OneDimensional(v, flags, len)
    ensures v.buf == data && !v.readonly && v.itemsize == elementSize
    ensures v.shape.None? && !v.strides
    ensures v.format.Some? <==> Requested(flags, PyBUF_FORMAT) && TagToFormat(sizes, tag, elementSize).Some?
    ensures v.format.Some? ==> v.format.value == FormatStr([TagToFormat(sizes, tag, elementSize).value])
  {
    var fmt := if Requested(flags, PyBUF_FORMAT) then TagToFormat(sizes, tag, elementSize) else None;
    View(data, false, 1, elementSize, len * elementSize,
         if fmt.Some? then Some(FormatStr([fmt.value])) else None, None, false)
  }

  /** The reference-count change of wrapping an array and then deallocating the wrapper. */
  function NetRefChange(transfer: Transfer): int
  {
    if transfer == Nothing then 0 else -1
  }

  /** gi._Array instances. */
  class PyGIArray {
    var typeTag: TypeTag
    var garray: GArray?

    /** tp_alloc: a zero-filled instance. */
    constructor ()
      ensures typeTag == Void && garray == null
    {
      typeTag, garray := Void, null;
    }

    /**
     * _pygi_array_dealloc: drops exactly one reference to the array. An
     * instance made by the type's generic allocator holds no array; GLib's
     * argument check then refuses the NULL array with a critical warning
     * and nothing changes.
     */
    method Dealloc()
      modifies garray
      ensures garray != null ==> garray.refCount == old(garray.refCount) - 1
    {
      if garray != null {
        garray.refCount := garray.refCount - 1;
      }
    }

    /** _pygi_array_getbuffer: fills the view; it never fails. */
    method GetBuffer(sizes: CSizes, view: BufferView, flags: bv32) returns (status: int)
      requires garray != null
      modifies view
      ensures status == 0
      ensures view.Holds(ArrayView(sizes, typeTag, garray.data, garray.len, garray.elementSize, flags), this, map[])
    {
      view.obj := this;
      view.buf := garray.data;
      view.readonly := false;
      view.ndim := 1;
      view.itemsize := garray.elementSize;
      view.format := None;
      if Requested(flags, PyBUF_FORMAT) {
        var fmt := TagToFormat(sizes, typeTag, view.itemsize);
        if fmt.Some? {
          view.format := Some(FormatStr([fmt.value]));
        }
      }
      view.shape := Null;
      view.strides := false;
      view.len := garray.len * view.itemsize;
      view.suboffsets := Null;
      view.internal := Null;
      status := 0;
    }
  }

  /**
   * _pygi_array_new_from_garray: NULL (with no exception set) when the
   * element type has no format; MemoryError when allocation fails;
   * otherwise a wrapper that records the tag and the array and, for
   * transfer NOTHING, holds one extra reference.
   */
  method NewFromGArray(sizes: CSizes, garray: GArray, tag: TypeTag, transfer: Transfer, allocFails: bool)
    returns (self: PyGIArray?, err: Option<PyError>)
    modifies garray
    ensures TagToFormat(sizes, tag, garray.elementSize).None? ==>
              self == null && err == None && garray.refCount == old(garray.refCount)
    ensures TagToFormat(sizes, tag, garray.elementSize).Some? && allocFails ==>
              self == null && err == Some(MemoryError) && garray.refCount == old(garray.refCount)
    ensures TagToFormat(sizes, tag, garray.elementSize).Some? && !allocFails ==>
              && self != null && fresh(self) && err == None
              && self.typeTag == tag && self.garray == garray
              && garray.refCount == old(garray.refCount) + (if transfer == Nothing then 1 else 0)
  {
    var fmt := TagToFormat(sizes, tag, garray.elementSize);
    if fmt.None? {
      return null, None;
    }
    if allocFails {
      return null, Some(MemoryError);
    }
    self := new PyGIArray();
    self.typeTag := tag;
    self.garray := garray;
    err := None;
    if transfer == Nothing {
      garray.refCount := garray.refCount + 1;
    }
  }

  /**
   * Wrapping an array and later deallocating the wrapper changes the
   * array's reference count by 0 for transfer NOTHING and by -1 otherwise
   * (the wrapper consumed the caller's reference).
   */
  method WrapThenDealloc(sizes: CSizes, garray: GArray, tag: TypeTag, transfer: Transfer) returns (wrapped: bool)
    modifies garray
    ensures wrapped <==> TagToFormat(sizes, tag, garray.elementSize).Some?
    ensures garray.refCount == old(garray.refCount) + (if wrapped then NetRefChange(transfer) else 0)
  {
    var self, err := NewFromGArray(sizes, garray, tag, transfer, false);
    wrapped := self != null;
    if self != null {
      self.Dealloc();
    }
  }
}
