/**
 * Closures for signal handlers connected through introspection: the signal
 * is looked up on the instance type's introspection data, the Python
 * callback is wrapped in a notified-scope closure that lives until the
 * signal connection invalidates it, and each emission rewrites the argument
 * list before calling the callback.
 */
module SignalClosure {
  import opened GI
  import opened Closures

  /** The extra arguments a record carries: the items of its user-data tuple, none without one. */
  function ExtraArgs(rec: ClosureRecord): seq<PyValue>
  {
    if rec.userData.Some? && rec.userData.value.PyTuple? then rec.userData.value.items else []
  }

  /**
   * The arguments signal_closure_call passes to the callback: the user-data
   * tuple is appended to the emission's arguments (concatenating anything
   * but a tuple raises TypeError), and then a swap object replaces the first
   * element. An empty list has no first element; the source ignores the
   * failed store and the list stays empty.
   */
  function CallArgs(rec: ClosureRecord, args: seq<PyValue>): (r: Result<seq<PyValue>, PyError>)
    ensures rec.userData.Some? && !rec.userData.value.PyTuple? ==> r == Failure(TypeError)
    ensures r.Failure? ==> r.error == TypeError
    ensures r.Success? ==> |r.value| == |args| + |ExtraArgs(rec)|
    ensures r.Success? && rec.swapData.None? ==> r.value == args + ExtraArgs(rec)
    ensures r.Success? && rec.swapData.Some? && r.value != [] ==> r.value[0] == rec.swapData.value
    ensures r.Success? ==> forall i :: 0 < i < |r.value| ==> r.value[i] == (args + ExtraArgs(rec))[i]
  {
    if rec.userData.Some? && !rec.userData.value.PyTuple? then Failure(TypeError)
    else
      var appended := args + ExtraArgs(rec);
      if rec.swapData.Some? && appended != [] then Success(appended[0 := rec.swapData.value])
      else Success(appended)
  }

  /**
   * The append happens before the swap: with an emission that brings no
   * arguments, the swap object replaces the first user-data item.
   */
  lemma SwapHitsUserDataWhenNoArgs(rec: ClosureRecord)
    requires rec.userData.Some? && rec.userData.value.PyTuple? && rec.userData.value.items != []
    requires rec.swapData.Some?
    ensures CallArgs(rec, []) == Success([rec.swapData.value] + rec.userData.value.items[1..])
  {
    var items := rec.userData.value.items;
    assert [] + items == items;
    assert items[0 := rec.swapData.value] == [rec.swapData.value] + items[1..];
  }

  /**
   * What signal_closure_call hands to PyObject_CallObject, as written: the
   * callback is called with the rewritten arguments when there is no swap
   * object. With one, the rewritten arguments are the list that
   * PySequence_List made, and PyObject_CallObject accepts only a tuple of
   * arguments: the call raises TypeError and the callback never runs.
   */
  function CallbackArgs(rec: ClosureRecord, args: seq<PyValue>): (r: Result<seq<PyValue>, PyError>)
    ensures r.Failure? ==> r.error == TypeError
    ensures rec.swapData.Some? ==> r.Failure?
    ensures rec.swapData.None? ==> r == CallArgs(rec, args)
  {
    match CallArgs(rec, args)
    case Failure(e) => Failure(e)
    case Success(list) => if rec.swapData.Some? then Failure(TypeError) else Success(list)
  }

  /**
   * A handler connected with a swap object (connect_object) and no extra
   * arguments: the rewritten list is the swap object alone, yet as written
   * the call is refused, while the corrected call passes that list.
   */
  lemma SwappedCallIsRefused(instance: PyValue, swap: PyValue)
    ensures CallArgs(ClosureRecord(PyNone, None, Some(swap), Notified), [instance]) == Success([swap])
    ensures CallbackArgs(ClosureRecord(PyNone, None, Some(swap), Notified), [instance]) == Failure(TypeError)
    ensures CallbackArgsIntended(ClosureRecord(PyNone, None, Some(swap), Notified), [instance]) == Success([swap])
  {
    var rec := ClosureRecord(PyNone, None, Some(swap), Notified);
    assert ExtraArgs(rec) == [];
    assert [instance] + [] == [instance];
    assert [instance][0 := swap] == [swap];
  }

  /**
   * The evidently intended call: the list is turned back into a tuple
   * before the call, so the callback receives the rewritten arguments,
   * swap object first, whenever they could be built.
   */
  function CallbackArgsIntended(rec: ClosureRecord, args: seq<PyValue>): (r: Result<seq<PyValue>, PyError>)
    ensures r.Success? <==> !(rec.userData.Some? && !rec.userData.value.PyTuple?)
    ensures rec.swapData.None? ==> r == CallbackArgs(rec, args)
    ensures r.Success? ==> |r.value| == |args| + |ExtraArgs(rec)|
    ensures r.Success? && rec.swapData.Some? && r.value != [] ==> r.value[0] == rec.swapData.value
    ensures r.Success? ==> forall i :: 0 < i < |r.value| ==> r.value[i] == (args + ExtraArgs(rec))[i]
  {
    CallArgs(rec, args)
  }

  /** The introspection data registered for a GType, as far as signal lookup reads it. */
  datatype RegisteredInfo =
    | ObjectInfo(objectSignals: seq<string>)
    | InterfaceInfo(interfaceSignals: seq<string>)
    | OtherInfo(kind: InfoType)

  /** The position of the first signal called `name`. */
  function SignalIndex(signals: seq<string>, name: string): (r: Option<nat>)
    ensures r.None? <==> name !in signals
    ensures r.Some? ==> r.value < |signals| && signals[r.value] == name
                        && forall j :: 0 <= j < r.value ==> signals[j] != name
  {
    if signals == [] then None
    else if signals[0] == name then Some(0)
    else match SignalIndex(signals[1..], name)
         case None => None
         case Some(i) => Some(i + 1)
  }

  /** A found signal: the GType whose data declares it and its position there. */
  datatype SignalRef = SignalRef(owner: GTypeId, index: nat)

  /**
   * _pygi_lookup_signal_from_g_type: the GType's introspection data, then
   * its object or interface signal list; no data, or data of any other
   * kind, finds nothing.
   */
  function LookupSignal(repo: map<GTypeId, RegisteredInfo>, gtype: GTypeId, name: string): (r: Option<SignalRef>)
    ensures gtype !in repo ==> r.None?
    ensures gtype in repo && repo[gtype].OtherInfo? ==> r.None?
    ensures gtype in repo && repo[gtype].ObjectInfo? ==>
              (r.Some? <==> name in repo[gtype].objectSignals)
    ensures gtype in repo && repo[gtype].InterfaceInfo? ==>
              (r.Some? <==> name in repo[gtype].interfaceSignals)
    ensures r.Some? ==>
              && r.value.owner == gtype && gtype in repo
              && (match repo[gtype]
                  case ObjectInfo(s) => r.value.index < |s| && s[r.value.index] == name
                  case InterfaceInfo(s) => r.value.index < |s| && s[r.value.index] == name
                  case OtherInfo(_) => false)
  {
    if gtype !in repo then None
    else
      var found := match repo[gtype]
                   case ObjectInfo(s) => SignalIndex(s, name)
                   case InterfaceInfo(s) => SignalIndex(s, name)
                   case OtherInfo(_) => None;
      if found.Some? then Some(SignalRef(gtype, found.value)) else None
  }

  /**
   * pygi_signal_closure_new: no closure when the signal is unknown or the
   * closure factory fails (`factoryFails` is its answer); otherwise a fresh
   * notified-scope record holding the callback, the extra arguments and the
   * swap object, released when the connection invalidates it.
   */
  method SignalClosureNew(closures: ClosureHeap, repo: map<GTypeId, RegisteredInfo>, gtype: GTypeId,
                          name: string, callback: PyValue, extraArgs: Option<PyValue>, swapData: Option<PyValue>,
                          factoryFails: bool)
    returns (closure: Option<nat>)
    requires closures.Valid()
    modifies closures
    ensures closures.Valid()
    ensures LookupSignal(repo, gtype, name).None? || factoryFails ==>
              closure.None? && closures.live == old(closures.live)
    ensures LookupSignal(repo, gtype, name).Some? && !factoryFails ==>
              && closure == Some(old(closures.next)) && old(closures.next) !in old(closures.live)
              && closures.live == old(closures.live)[old(closures.next) :=
                                    ClosureRecord(callback, extraArgs, swapData, Notified)]
  {
    var signal := LookupSignal(repo, gtype, name);
    if signal.None? || factoryFails {
      return None;
    }
    var id := closures.Make(ClosureRecord(callback, extraArgs, swapData, Notified));
    closure := Some(id);
  }

  /** signal_closure_invalidate: the connection is gone and the record is released. */
  method Invalidate(closures: ClosureHeap, closure: nat)
    requires closures.Valid() && closure in closures.live
    modifies closures
    ensures closures.Valid()
    ensures closures.live == old(closures.live) - {closure}
  {
    closures.Free(closure);
  }

  /** A connection made and then invalidated leaves no record behind. */
  method ConnectThenInvalidate(closures: ClosureHeap, repo: map<GTypeId, RegisteredInfo>, gtype: GTypeId,
                               name: string, callback: PyValue, extraArgs: Option<PyValue>, swapData: Option<PyValue>)
    requires closures.Valid()
    modifies closures
    ensures closures.live == old(closures.live)
  {
    var closure := SignalClosureNew(closures, repo, gtype, name, callback, extraArgs, swapData, false);
    if closure.Some? {
      Invalidate(closures, closure.value);
    }
  }
}
