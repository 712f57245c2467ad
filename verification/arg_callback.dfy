/**
 * The argument cache for callback parameters: building it from the
 * introspection data (which also claims the user-data and destroy-notify
 * parameters as child slots of the callable), marshalling a Python callable
 * into a native closure, releasing call-scoped closures after the call, and
 * the unsupported native-to-Python direction.
 */
module ArgCallback {
  import opened GI
  import opened Closures

  /** PyGIFunctionType: what kind of callable an argument cache belongs to. */
  datatype FunctionType = Function | Method | Constructor | VFunc | CCallback

  /** PyGIMetaArgType: a parent argument, or a child that another argument fills. */
  datatype MetaType = Parent | Child | ChildWithPyArg | ChildNeedsUpdate

  /** PyGIDirection: the FROM_PYTHON and TO_PYTHON bits. */
  datatype CacheDirection = FromPython | ToPython | Bidirectional

  predicate HasFromPython(d: CacheDirection) { d.FromPython? || d.Bidirectional? }

  predicate HasToPython(d: CacheDirection) { d.ToPython? || d.Bidirectional? }

  /**
   * An argument cache slot of a callable as far as this module reads or
   * writes it. The Python and C argument indices are filled by the callable
   * cache builder, which is not part of this model.
   */
  datatype ArgSlot = ArgSlot(
    metaType: MetaType,
    direction: CacheDirection,
    hasDefault: bool,
    pyArgIndex: int,
    cArgIndex: int)

  /** The slot claimed for the user-data parameter: filled from Python, optional. */
  const UserDataSlot := ArgSlot(ChildWithPyArg, FromPython, true, 0, 0)

  /** The slot claimed for the destroy-notify parameter: never seen by Python. */
  const DestroySlot := ArgSlot(Child, FromPython, false, 0, 0)

  /** The closure, destroy and scope annotations of a GIArgInfo. */
  datatype CallbackArgInfo = CallbackArgInfo(closure: int, destroy: int, scope: ScopeType)

  /** What the introspection getters answer; without an arg info they answer -1 (and no scope). */
  function ClosureIndexOf(info: Option<CallbackArgInfo>): int
  {
    if info.Some? then info.value.closure else -1
  }

  function DestroyIndexOf(info: Option<CallbackArgInfo>): int
  {
    if info.Some? then info.value.destroy else -1
  }

  function ScopeOf(info: Option<CallbackArgInfo>): ScopeType
  {
    if info.Some? then info.value.scope else InvalidScope
  }

  /** PyGICallableCache: its name, its kind and its argument slots (NULL as None). */
  class CallableCache {
    const name: string
    const functionType: FunctionType
    const args: array<Option<ArgSlot>>

    constructor (name: string, functionType: FunctionType, args: array<Option<ArgSlot>>)
      ensures this.name == name && this.functionType == functionType && this.args == args
    {
      this.name := name;
      this.functionType := functionType;
      this.args := args;
    }
  }

  /**
   * Metadata indices count the parameters the introspection data lists; a
   * method or virtual function has the instance in front of them.
   */
  function ChildOffset(functionType: Option<FunctionType>): (offset: nat)
    ensures offset == 1 <==> functionType == Some(Method) || functionType == Some(VFunc)
    ensures offset <= 1
  {
    if functionType == Some(Method) || functionType == Some(VFunc) then 1 else 0
  }

  /** A metadata index moved by the offset; -1 means "absent" and stays -1. */
  function Shifted(raw: int, offset: nat): int
  {
    if raw != -1 then raw + offset else -1
  }

  /**
   * The callable's slots after the from-Python setup: a user-data slot at
   * `userData` and a destroy-notify slot at `destroy` when those are
   * non-negative (the destroy slot wins if both name the same parameter);
   * every other slot is left as it was.
   */
  function WithChildren(slots: seq<Option<ArgSlot>>, userData: int, destroy: int): (r: seq<Option<ArgSlot>>)
    requires userData < |slots| && destroy < |slots|
    ensures |r| == |slots|
    ensures forall i :: 0 <= i < |r| && i != userData && i != destroy ==> r[i] == slots[i]
    ensures 0 <= destroy ==> r[destroy] == Some(DestroySlot)
    ensures 0 <= userData && userData != destroy ==> r[userData] == Some(UserDataSlot)
  {
    var withUserData := if 0 <= userData then slots[userData := Some(UserDataSlot)] else slots;
    if 0 <= destroy then withUserData[destroy := Some(DestroySlot)] else withUserData
  }

  /** PyGICallbackCache: the arg-cache fields this module sets, plus the callback's own. */
  class CallbackCache {
    var transfer: Transfer
    var direction: CacheDirection
    var hasToPyMarshaller: bool
    var hasFromPyMarshaller: bool
    var hasFromPyCleanup: bool
    var userDataIndex: int
    var destroyNotifyIndex: int
    var scope: ScopeType

    /** g_slice_new0: every field zero. */
    constructor ()
      ensures !hasToPyMarshaller && !hasFromPyMarshaller && !hasFromPyCleanup
      ensures userDataIndex == 0 && destroyNotifyIndex == 0 && scope == InvalidScope
    {
      transfer, direction := Nothing, FromPython;
      hasToPyMarshaller, hasFromPyMarshaller, hasFromPyCleanup := false, false, false;
      userDataIndex, destroyNotifyIndex, scope := 0, 0, InvalidScope;
    }
  }

  /**
   * What the setup demands of its caller: a child slot index it will write
   * lies inside the callable's slot array (and a callable is given).
   */
  predicate ChildrenFit(info: Option<CallbackArgInfo>, callable: CallableCache?)
  {
    var offset := ChildOffset(if callable != null then Some(callable.functionType) else None);
    var userData := Shifted(ClosureIndexOf(info), offset);
    var destroy := Shifted(DestroyIndexOf(info), offset);
    (0 <= userData || 0 <= destroy) ==>
      callable != null && userData < callable.args.Length && destroy < callable.args.Length
  }

  /**
   * pygi_arg_callback_setup_from_info: records transfer and direction,
   * installs the to-Python marshaller for the to-Python direction, reads
   * the closure and destroy indices (shifted past the instance of a method)
   * and the scope, and for the from-Python direction claims the child slots
   * and installs the from-Python marshaller and cleanup.
   */
  method SetupFromInfo(cache: CallbackCache, info: Option<CallbackArgInfo>, transfer: Transfer,
                       direction: CacheDirection, callable: CallableCache?)
    requires HasFromPython(direction) ==> ChildrenFit(info, callable)
    modifies cache, if callable != null && HasFromPython(direction) then {callable.args} else {}
    ensures cache.transfer == transfer && cache.direction == direction
    ensures cache.hasToPyMarshaller == (HasToPython(direction) || old(cache.hasToPyMarshaller))
    ensures var offset := ChildOffset(if callable != null then Some(callable.functionType) else None);
            && cache.userDataIndex == Shifted(ClosureIndexOf(info), offset)
            && cache.destroyNotifyIndex == Shifted(DestroyIndexOf(info), offset)
    ensures cache.scope == ScopeOf(info)
    ensures HasFromPython(direction) ==> cache.hasFromPyMarshaller && cache.hasFromPyCleanup
    ensures !HasFromPython(direction) ==>
              cache.hasFromPyMarshaller == old(cache.hasFromPyMarshaller)
              && cache.hasFromPyCleanup == old(cache.hasFromPyCleanup)
    ensures callable != null && HasFromPython(direction) ==>
              callable.args[..] == WithChildren(old(callable.args[..]), cache.userDataIndex, cache.destroyNotifyIndex)
  {
    cache.transfer := transfer;
    cache.direction := direction;
    if HasToPython(direction) {
      cache.hasToPyMarshaller := true;
    }
    var offset := 0;
    if callable != null {
      offset := ChildOffset(Some(callable.functionType));
    }
    cache.userDataIndex := ClosureIndexOf(info);
    if cache.userDataIndex != -1 {
      cache.userDataIndex := cache.userDataIndex + offset;
    }
    cache.destroyNotifyIndex := DestroyIndexOf(info);
    if cache.destroyNotifyIndex != -1 {
      cache.destroyNotifyIndex := cache.destroyNotifyIndex + offset;
    }
    cache.scope := ScopeOf(info);
    if HasFromPython(direction) {
      if cache.userDataIndex >= 0 {
        callable.args[cache.userDataIndex] := Some(UserDataSlot);
      }
      if cache.destroyNotifyIndex >= 0 {
        callable.args[cache.destroyNotifyIndex] := Some(DestroySlot);
      }
      cache.hasFromPyMarshaller := true;
      cache.hasFromPyCleanup := true;
    }
  }

  /** The native value a GIArgument slot holds, as far as this module tells them apart. */
  datatype NativeValue =
    | ClosureEntry(closure: nat)     // the native entry point of closure `closure`
    | ClosureData(closure: nat)      // the closure record itself, passed as user data
    | NotifierEntry(notifier: nat)   // the entry point of the shared destroy notifier
    | DummyNotifier                  // the do-nothing destroy notifier
    | OtherValue(bits: int)          // anything this module does not write

  /** The outcome of a marshaller: success, or the Python exception it leaves set. */
  datatype Outcome = Ok | Raised(error: PyError)

  /**
   * Everything one from-Python marshalling call does: its outcome, the value
   * stored in the callback's own argument, the whole native argument
   * vector afterwards, the cleanup data, the closure record made (if any)
   * and whether it was released again, and the warning issued (if any).
   */
  datatype FromPyEffect = FromPyEffect(
    outcome: Outcome,
    arg: Option<NativeValue>,
    inArgs: seq<NativeValue>,
    cleanupData: Option<nat>,
    made: Option<ClosureRecord>,
    releasedMade: bool,
    warning: Option<LeakWarning>)

  /** The RuntimeWarning issued for a destroy notifier without user data, naming the callable. */
  datatype LeakWarning = LeakWarning(callableName: string)

  /** The warning's text. */
  function LeakWarningText(w: LeakWarning): string
  {
    "Callables passed to " + w.callableName + " will leak references because the method does not support a user_data argument. See: https://bugzilla.gnome.org/show_bug.cgi?id=685598"
  }

  /** The user-data slot the marshaller consults: only for an index above 0. */
  function UserDataCache(userData: int, slots: seq<Option<ArgSlot>>): Option<ArgSlot>
  {
    if 0 < userData < |slots| then slots[userData] else None
  }

  function DestroyCache(destroy: int, slots: seq<Option<ArgSlot>>): Option<ArgSlot>
  {
    if 0 < destroy < |slots| then slots[destroy] else None
  }

  /**
   * What the marshaller demands of the cache it runs with: the slots it
   * dereferences exist and their C indices address the native argument
   * vector.
   */
  predicate Wired(userData: int, destroy: int, slots: seq<Option<ArgSlot>>, nInArgs: nat)
  {
    && (0 < userData ==> userData < |slots| && slots[userData].Some?
                         && 0 <= slots[userData].value.cArgIndex < nInArgs)
    && (0 < destroy ==> destroy < |slots|
                        && (slots[destroy].Some? ==> 0 <= slots[destroy].value.cArgIndex < nInArgs))
  }

  /** Fetching the user data fails: its Python index is negative (PyTuple_GetItem raises). */
  predicate UserDataFetchFails(userData: int, slots: seq<Option<ArgSlot>>, pyInArgs: seq<PyValue>)
  {
    var u := UserDataCache(userData, slots);
    u.Some? && u.value.pyArgIndex < 0
  }

  /**
   * The Python user data captured with the closure: the argument at the
   * user-data slot's Python index when the caller supplied it, NULL when
   * there is no such slot, the index is past the Python arguments, or the
   * default placeholder stands there.
   */
  function CapturedUserData(userData: int, slots: seq<Option<ArgSlot>>, pyInArgs: seq<PyValue>): (d: Option<PyValue>)
    ensures d.None? <==>
              (var u := UserDataCache(userData, slots);
               u.None? || !(0 <= u.value.pyArgIndex < |pyInArgs|)
               || pyInArgs[u.value.pyArgIndex] == PyDefaultPlaceholder)
    ensures d.Some? ==> d.value == pyInArgs[UserDataCache(userData, slots).value.pyArgIndex]
  {
    var u := UserDataCache(userData, slots);
    if u.Some? && 0 <= u.value.pyArgIndex < |pyInArgs| && pyInArgs[u.value.pyArgIndex] != PyDefaultPlaceholder
    then Some(pyInArgs[u.value.pyArgIndex])
    else None
  }

  /** The slot's C index addresses the native argument vector. */
  predicate Addresses(c: Option<ArgSlot>, inArgs: seq<NativeValue>)
  {
    c.Some? ==> 0 <= c.value.cArgIndex < |inArgs|
  }

  /** Position `i` is not the C index of slot `c`. */
  predicate Avoids(c: Option<ArgSlot>, i: int)
  {
    c.None? || c.value.cArgIndex != i
  }

  /**
   * The part of the marshaller after the closure `rec` has been made at
   * `newClosure`: the user-data argument `u` carries the closure record, and
   * a destroy argument `d` gets the shared notifier when there is user data;
   * without user data it draws the leak warning, which either aborts the
   * call (releasing the closure) or installs the do-nothing notifier.
   */
  function AttachClosure(u: Option<ArgSlot>, d: Option<ArgSlot>, rec: ClosureRecord, inArgs: seq<NativeValue>,
                         newClosure: nat, notifier: nat, warningRaises: bool, name: string): (e: FromPyEffect)
    requires Addresses(u, inArgs) && Addresses(d, inArgs)
    ensures |e.inArgs| == |inArgs|
    ensures e.made == Some(rec) && e.arg == Some(ClosureEntry(newClosure))
    ensures u.Some? && Avoids(d, u.value.cArgIndex) ==> e.inArgs[u.value.cArgIndex] == ClosureData(newClosure)
    ensures u.Some? && d.Some? ==>
              e.outcome == Ok && e.inArgs[d.value.cArgIndex] == NotifierEntry(notifier)
    ensures e.warning.Some? <==> u.None? && d.Some?
    ensures e.warning.Some? ==> e.warning.value == LeakWarning(name)
    ensures e.warning.Some? && warningRaises ==>
              e.outcome == Raised(RuntimeWarningError) && e.releasedMade && e.cleanupData.None?
              && e.inArgs == inArgs
    ensures e.warning.Some? && !warningRaises ==> e.outcome == Ok && e.inArgs[d.value.cArgIndex] == DummyNotifier
    ensures e.outcome.Ok? <==> !e.releasedMade
    ensures e.outcome == Ok ==> e.cleanupData == Some(newClosure)
    ensures forall i :: 0 <= i < |inArgs| && Avoids(u, i) && Avoids(d, i) ==> e.inArgs[i] == inArgs[i]
  {
    var withData := if u.Some? then inArgs[u.value.cArgIndex := ClosureData(newClosure)] else inArgs;
    if d.None? then
      FromPyEffect(Ok, Some(ClosureEntry(newClosure)), withData, Some(newClosure), Some(rec), false, None)
    else if u.Some? then
      FromPyEffect(Ok, Some(ClosureEntry(newClosure)), withData[d.value.cArgIndex := NotifierEntry(notifier)],
                   Some(newClosure), Some(rec), false, None)
    else if warningRaises then
      FromPyEffect(Raised(RuntimeWarningError), Some(ClosureEntry(newClosure)), withData, None, Some(rec), true,
                   Some(LeakWarning(name)))
    else
      FromPyEffect(Ok, Some(ClosureEntry(newClosure)), withData[d.value.cArgIndex := DummyNotifier],
                   Some(newClosure), Some(rec), false, Some(LeakWarning(name)))
  }

  /**
   * _pygi_marshal_from_py_interface_callback as a function of its inputs.
   * `newClosure` is the address the closure factory hands out next, `notifier`
   * the shared destroy notifier's handle, `warningRaises` the warnings
   * filter's answer, `name` the callable's name.
   */
  function FromPy(userData: int, destroy: int, scope: ScopeType, slots: seq<Option<ArgSlot>>,
                  pyInArgs: seq<PyValue>, inArgs: seq<NativeValue>, pyArg: PyValue,
                  newClosure: nat, notifier: nat, warningRaises: bool, name: string): (e: FromPyEffect)
    requires Wired(userData, destroy, slots, |inArgs|)
    ensures |e.inArgs| == |inArgs|
    // a bad user-data index fails before anything else happens
    ensures UserDataFetchFails(userData, slots, pyInArgs) ==> e.outcome == Raised(IndexError)
    // None: success unless the user data could not be fetched
    ensures pyArg == PyNone && !UserDataFetchFails(userData, slots, pyInArgs) ==> e.outcome == Ok
    // not callable: TypeError
    ensures pyArg != PyNone && !IsCallable(pyArg) && !UserDataFetchFails(userData, slots, pyInArgs) ==>
              e.outcome == Raised(TypeError)
    // nothing is made and nothing written unless a callable was given and the user data fetched
    ensures e.made.Some? <==> IsCallable(pyArg) && !UserDataFetchFails(userData, slots, pyInArgs)
    ensures e.made.None? ==>
              e.arg.None? && e.inArgs == inArgs && e.cleanupData.None? && !e.releasedMade && e.warning.None?
    // a made closure captures the callable, the user data and the scope, and is wired in
    ensures e.made.Some? ==>
              e == AttachClosure(UserDataCache(userData, slots), DestroyCache(destroy, slots),
                                 ClosureRecord(pyArg, CapturedUserData(userData, slots, pyInArgs), None, scope),
                                 inArgs, newClosure, notifier, warningRaises, name)
  {
    if UserDataFetchFails(userData, slots, pyInArgs) then
      FromPyEffect(Raised(IndexError), None, inArgs, None, None, false, None)
    else if pyArg == PyNone then
      FromPyEffect(Ok, None, inArgs, None, None, false, None)
    else if !IsCallable(pyArg) then
      FromPyEffect(Raised(TypeError), None, inArgs, None, None, false, None)
    else
      var rec := ClosureRecord(pyArg, CapturedUserData(userData, slots, pyInArgs), None, scope);
      AttachClosure(UserDataCache(userData, slots), DestroyCache(destroy, slots), rec, inArgs,
                    newClosure, notifier, warningRaises, name)
  }

  /**
   * The shared destroy notifier (a process-wide closure over GLib's
   * DestroyNotify signature), created on first use.
   */
  class DestroyNotifier {
    var global: Option<nat>
    /** How many notifier closures have been prepared. */
    var prepared: nat

    ghost predicate Valid()
      reads this
    {
      (global.None? && prepared == 0) || (global.Some? && prepared == 1)
    }

    constructor ()
      ensures Valid() && global.None?
    {
      global, prepared := None, 0;
    }

    /** The handle the next Create answers: the existing notifier's, or the one it will prepare. */
    function Handle(): nat
      reads this
    {
      if global.Some? then global.value else 0
    }

    /** _pygi_destroy_notify_create: the shared notifier, prepared at most once. */
    method Create() returns (h: nat)
      requires Valid()
      modifies this
      ensures Valid() && global == Some(h) && h == old(Handle())
      ensures old(global).Some? ==> prepared == old(prepared)
    {
      if global.None? {
        global := Some(0);
        prepared := prepared + 1;
      }
      h := global.value;
    }
  }

  /** Two requests for the notifier answer the same closure, prepared once. */
  method CreateTwice(n: DestroyNotifier) returns (h1: nat, h2: nat)
    requires n.Valid()
    modifies n
    ensures h1 == h2 && n.prepared == 1 && n.Valid()
  {
    h1 := n.Create();
    h2 := n.Create();
  }

  /** The invoker's state as the marshaller sees it: the Python arguments and the native argument vector. */
  class InvokeState {
    const pyInArgs: seq<PyValue>
    const inArgs: array<NativeValue>

    constructor (pyInArgs: seq<PyValue>, inArgs: array<NativeValue>)
      ensures this.pyInArgs == pyInArgs && this.inArgs == inArgs
    {
      this.pyInArgs := pyInArgs;
      this.inArgs := inArgs;
    }
  }

  /**
   * _pygi_marshal_from_py_interface_callback on the heap: the native argument
   * vector, the live closures and the notifier change exactly as FromPy says.
   */
  method MarshalFromPy(cache: CallbackCache, callable: CallableCache, state: InvokeState, pyArg: PyValue,
                       closures: ClosureHeap, notifier: DestroyNotifier, warningRaises: bool)
    returns (outcome: Outcome, arg: Option<NativeValue>, cleanupData: Option<nat>, warning: Option<LeakWarning>)
    requires closures.Valid() && notifier.Valid()
    requires Wired(cache.userDataIndex, cache.destroyNotifyIndex, callable.args[..], state.inArgs.Length)
    modifies state.inArgs, closures, notifier
    ensures closures.Valid() && notifier.Valid()
    ensures var e := FromPy(cache.userDataIndex, cache.destroyNotifyIndex, cache.scope, callable.args[..],
                            state.pyInArgs, old(state.inArgs[..]), pyArg, old(closures.next),
                            old(notifier.Handle()), warningRaises, callable.name);
            && outcome == e.outcome && arg == e.arg && cleanupData == e.cleanupData && warning == e.warning
            && state.inArgs[..] == e.inArgs
            && closures.live == (if e.made.Some? && !e.releasedMade
                                 then old(closures.live)[old(closures.next) := e.made.value]
                                 else old(closures.live))
            && closures.next == (if e.made.Some? then old(closures.next) + 1 else old(closures.next))
    // the shared notifier is requested exactly when a closure is made for a callable with both slots
    ensures var wired := IsCallable(pyArg) && !UserDataFetchFails(cache.userDataIndex, callable.args[..], state.pyInArgs)
                         && UserDataCache(cache.userDataIndex, callable.args[..]).Some?
                         && DestroyCache(cache.destroyNotifyIndex, callable.args[..]).Some?;
            && notifier.global == (if wired then Some(old(notifier.Handle())) else old(notifier.global))
            && notifier.prepared == (if wired && old(notifier.global).None? then 1 else old(notifier.prepared))
  {
    var slots := callable.args[..];
    ghost var e := FromPy(cache.userDataIndex, cache.destroyNotifyIndex, cache.scope, slots,
                          state.pyInArgs, state.inArgs[..], pyArg, closures.next,
                          notifier.Handle(), warningRaises, callable.name);
    var userDataCache := UserDataCache(cache.userDataIndex, slots);
    if UserDataFetchFails(cache.userDataIndex, slots, state.pyInArgs) {
      return Raised(IndexError), None, None, None;
    }
    var pyUserData := CapturedUserData(cache.userDataIndex, slots, state.pyInArgs);
    if pyArg == PyNone {
      return Ok, None, None, None;
    }
    if !IsCallable(pyArg) {
      return Raised(TypeError), None, None, None;
    }
    var closure := closures.Make(ClosureRecord(pyArg, pyUserData, None, cache.scope));
    arg := Some(ClosureEntry(closure));
    if userDataCache.Some? {
      state.inArgs[userDataCache.value.cArgIndex] := ClosureData(closure);
    }
    var destroyCache := DestroyCache(cache.destroyNotifyIndex, slots);
    warning := None;
    if destroyCache.Some? {
      if userDataCache.Some? {
        var h := notifier.Create();
        state.inArgs[destroyCache.value.cArgIndex] := NotifierEntry(h);
      } else {
        warning := Some(LeakWarning(callable.name));
        if warningRaises {
          closures.Free(closure);
          return Raised(RuntimeWarningError), arg, None, warning;
        }
        state.inArgs[destroyCache.value.cArgIndex] := DummyNotifier;
      }
    }
    outcome, cleanupData := Ok, Some(closure);
  }

  /**
   * _pygi_marshal_cleanup_from_py_interface_callback: a closure of call
   * scope is released once the call that used it has been processed; other
   * scopes keep it.
   */
  method CleanupFromPy(cache: CallbackCache, closures: ClosureHeap, data: nat, wasProcessed: bool)
    requires closures.Valid()
    requires wasProcessed && cache.scope == Call ==> data in closures.live
    modifies closures
    ensures closures.Valid()
    ensures closures.live == if wasProcessed && cache.scope == Call then old(closures.live) - {data}
                             else old(closures.live)
  {
    if wasProcessed && cache.scope == Call {
      closures.Free(data);
    }
  }

  /**
   * A call-scoped callable marshalled successfully and then cleaned up
   * leaves no closure behind.
   */
  method CallScopeRoundTrip(cache: CallbackCache, callable: CallableCache, state: InvokeState, pyArg: PyValue,
                            closures: ClosureHeap, notifier: DestroyNotifier, warningRaises: bool)
    returns (outcome: Outcome)
    requires closures.Valid() && notifier.Valid() && cache.scope == Call
    requires Wired(cache.userDataIndex, cache.destroyNotifyIndex, callable.args[..], state.inArgs.Length)
    modifies state.inArgs, closures, notifier
    ensures closures.live == old(closures.live)
  {
    var arg, cleanupData, warning;
    outcome, arg, cleanupData, warning := MarshalFromPy(cache, callable, state, pyArg, closures, notifier, warningRaises);
    if cleanupData.Some? {
      CleanupFromPy(cache, closures, cleanupData.value, true);
    }
  }

  /** _pygi_marshal_to_py_interface_callback: native callbacks never become Python objects. */
  function MarshalToPy(arg: NativeValue): (r: Result<PyValue, PyError>)
    ensures r == Failure(NotImplementedError)
  {
    Failure(NotImplementedError)
  }
}
