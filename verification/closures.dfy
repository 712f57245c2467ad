/**
 * Closure records (PyGICClosure) as the callback and signal code sees them:
 * made by the closure factory and released by the closure free routine.
 * The factory's libffi preparation is not part of this model; a record is
 * identified by the address the factory hands out.
 */
module Closures {
  import opened GI

  /** The captured callable, its user data, the optional first-argument substitute and the scope. */
  datatype ClosureRecord = ClosureRecord(
    callable: PyValue,
    userData: Option<PyValue>,
    swapData: Option<PyValue>,
    scope: ScopeType)

  /** Live closure records by address. */
  class ClosureHeap {
    var live: map<nat, ClosureRecord>
    var next: nat

    ghost predicate Valid()
      reads this
    {
      forall id :: id in live ==> id < next
    }

    constructor ()
      ensures Valid() && live == map[]
    {
      live, next := map[], 0;
    }

    /** _pygi_make_native_closure: a fresh record at the next address. */
    method Make(rec: ClosureRecord) returns (id: nat)
      requires Valid()
      modifies this
      ensures Valid()
      ensures id == old(next) && id !in old(live) && next == old(next) + 1
      ensures live == old(live)[id := rec]
    {
      id := next;
      live := live[id := rec];
      next := next + 1;
    }

    /** _pygi_invoke_closure_free: releases a live record. */
    method Free(id: nat)
      requires Valid() && id in live
      modifies this
      ensures Valid() && next == old(next)
      ensures live == old(live) - {id}
    {
      live := live - {id};
    }
  }
}
