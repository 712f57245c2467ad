/**
 * Native-side state the core touches: the allocator it calls (g_try_malloc0,
 * g_free, and the hook that releases foreign structs) and the Py_buffer
 * record that buffer exporters fill in (Python's buffer protocol, PEP 3118).
 */
module Native {
  import opened GI

  /** The native allocator: live blocks by address with their contents. */
  class NativeHeap {
    var blocks: map<nat, seq<int>>
    var next: nat
    /** Pointers handed to the foreign-struct release hook, oldest first. */
    var foreignReleased: seq<Ptr>

    ghost predicate Valid()
      reads this
    {
      0 < next && forall a :: a in blocks ==> 0 < a < next
    }

    constructor ()
      ensures Valid() && blocks == map[] && foreignReleased == []
    {
      blocks, next, foreignReleased := map[], 1, [];
    }

    /**
     * g_try_malloc0: a zero-filled block, or NULL when the allocator is
     * exhausted (whether it is, is the allocator's answer, passed in).
     */
    method TryMalloc0(size: nat, exhausted: bool) returns (p: Ptr)
      requires Valid()
      modifies this
      ensures Valid() && foreignReleased == old(foreignReleased)
      ensures exhausted ==> p == Null && blocks == old(blocks)
      ensures !exhausted ==> p.Addr? && p.address !in old(blocks)
                             && blocks == old(blocks)[p.address := seq(size, _ => 0)]
    {
      if exhausted {
        p := Null;
      } else {
        p := Addr(next);
        blocks := blocks[next := seq(size, _ => 0)];
        next := next + 1;
      }
    }

    /**
     * malloc followed by a store of `contents`: the source does not check
     * this allocation for NULL, so the model has it succeed.
     */
    method Alloc(contents: seq<int>) returns (p: Ptr)
      requires Valid()
      modifies this
      ensures Valid() && foreignReleased == old(foreignReleased)
      ensures p.Addr? && p.address !in old(blocks) && blocks == old(blocks)[p.address := contents]
    {
      p := Addr(next);
      blocks := blocks[next := contents];
      next := next + 1;
    }

    /** Overwrites the contents of a live block. */
    method Store(p: Ptr, contents: seq<int>)
      requires Valid() && p.Addr? && p.address in blocks
      modifies this
      ensures Valid() && foreignReleased == old(foreignReleased)
      ensures blocks == old(blocks)[p.address := contents]
    {
      blocks := blocks[p.address := contents];
    }

    /** g_free: releases a live block; NULL is a no-op. */
    method Free(p: Ptr)
      requires Valid()
      modifies this
      ensures Valid() && foreignReleased == old(foreignReleased)
      ensures blocks == if p.Addr? then old(blocks) - {p.address} else old(blocks)
    {
      if p.Addr? {
        blocks := blocks - {p.address};
      }
    }

    /** Hands a pointer to the foreign-struct release hook. */
    method ForeignRelease(p: Ptr)
      requires Valid()
      modifies this
      ensures Valid() && blocks == old(blocks)
      ensures foreignReleased == old(foreignReleased) + [p]
    {
      foreignReleased := foreignReleased + [p];
    }
  }

  /** The request flags of the buffer protocol that the exporters here consult. */
  const PyBUF_FORMAT: bv32 := 0x0004
  const PyBUF_ND: bv32 := 0x0008
  /** PyBUF_STRIDES includes the PyBUF_ND bit. */
  const PyBUF_STRIDES: bv32 := 0x0018

  /** The exporters test a request as `(flags & req) == req`. */
  predicate Requested(flags: bv32, req: bv32) { flags & req == req }

  lemma StridesRequestIncludesShape(flags: bv32)
    ensures Requested(flags, PyBUF_STRIDES) ==> Requested(flags, PyBUF_ND)
  {
  }

  /** A format pointer: a string, or an uninitialised local that was never assigned. */
  datatype FormatRef = FormatStr(s: string) | StaleFormat

  /**
   * The contents of a filled Py_buffer. `shape` is the single extent the
   * shape pointer designates (None for NULL); `strides` says whether the
   * strides pointer designates the view's own itemsize field.
   */
  datatype View = View(
    buf: Ptr,
    readonly: bool,
    ndim: int,
    itemsize: int,
    len: int,
    format: Option<FormatRef>,
    shape: Option<int>,
    strides: bool)

  /**
   * What PEP 3118 asks of a one-dimensional view over `items` elements: the
   * byte length is items times the item size, shape describes that many
   * items, and the optional fields appear only when the consumer asked for
   * them (strides need a shape to index).
   */
  predicate OneDimensional(v: View, flags: bv32, items: int)
  {
    && v.ndim == 1
    && v.len == items * v.itemsize
    && (v.format.Some? ==> Requested(flags, PyBUF_FORMAT))
    && (v.shape.Some? ==> Requested(flags, PyBUF_ND) && v.shape.value == items)
    && (v.strides ==> Requested(flags, PyBUF_STRIDES) && v.shape.Some?)
  }

  /** Py_buffer, filled in place by an exporter's getbuffer slot. */
  class BufferView {
    var obj: object?
    var buf: Ptr
    var readonly: bool
    var ndim: int
    var itemsize: int
    var len: int
    var format: Option<FormatRef>
    var shape: Ptr
    var strides: bool
    var suboffsets: Ptr
    var internal: Ptr

    constructor ()
      ensures obj == null && shape == Null && suboffsets == Null && internal == Null
    {
      obj, buf, readonly, ndim, itemsize, len := null, Null, false, 0, 0, 0;
      format, shape, strides, suboffsets, internal := None, Null, false, Null, Null;
    }

    /**
     * The view holds `v` for exporter `o`: the shape pointer designates a
     * live one-element block holding the extent, and suboffsets and
     * internal are NULL.
     */
    ghost predicate Holds(v: View, o: object, blocks: map<nat, seq<int>>)
      reads this
    {
      && obj == o && buf == v.buf && readonly == v.readonly && ndim == v.ndim
      && itemsize == v.itemsize && len == v.len && format == v.format
      && strides == v.strides && suboffsets == Null && internal == Null
      && match v.shape
         case None => shape == Null
         case Some(n) => shape.Addr? && shape.address in blocks && blocks[shape.address] == [n]
    }
  }
}
