/**
 * The documentation-string generator: call signatures of callables
 * ("(a:int, b:str=None) -> bool") and the constructor section of class
 * documentation, computed from introspection data.
 */
module Docstring {
  import opened GI

  /** The namespace and name of the info an INTERFACE type refers to. */
  datatype InterfaceName = InterfaceName(namespace: string, name: string)

  /** A GITypeInfo as far as the generator reads it. */
  datatype TypeInfo = TypeInfo(tag: TypeTag, arrayLength: int, iface: InterfaceName)

  /** A GIArgInfo: `destroy`, `closure` and the type's `arrayLength` are argument positions, -1 for none. */
  datatype ArgInfo = ArgInfo(
    name: string,
    direction: Direction,
    argType: TypeInfo,
    destroy: int,
    closure: int,
    mayBeNull: bool,
    isOptional: bool)

  /** The Python class of a callable info: a vfunc, a function (method, constructor) or any other callable. */
  datatype CallableKind =
    | VFuncCallable
    | FunctionCallable(isMethod: bool, isConstructor: bool)
    | OtherCallable

  datatype CallableInfo = CallableInfo(
    name: string,
    kind: CallableKind,
    args: seq<ArgInfo>,
    returnType: TypeInfo,
    skipReturn: bool,
    mayReturnNull: bool)

  // ---------------------------------------------------------------------
  // split_function_info_args
  // ---------------------------------------------------------------------

  predicate TakesIn(a: ArgInfo) { a.direction == In || a.direction == InOut }

  predicate GivesOut(a: ArgInfo) { a.direction == Out || a.direction == InOut }

  /** The arguments that are passed in, in their order. */
  function InArgs(args: seq<ArgInfo>): (r: seq<ArgInfo>)
    ensures |r| <= |args|
    ensures forall a :: a in r <==> a in args && TakesIn(a)
  {
    if args == [] then []
    else
      var last := args[|args| - 1];
      assert args == args[..|args| - 1] + [last];
      InArgs(args[..|args| - 1]) + (if TakesIn(last) then [last] else [])
  }

  /** The arguments that are handed back, in their order. */
  function OutArgs(args: seq<ArgInfo>): (r: seq<ArgInfo>)
    ensures |r| <= |args|
    ensures forall a :: a in r <==> a in args && GivesOut(a)
  {
    if args == [] then []
    else
      var last := args[|args| - 1];
      assert args == args[..|args| - 1] + [last];
      OutArgs(args[..|args| - 1]) + (if GivesOut(last) then [last] else [])
  }

  /** An INOUT argument is listed on both sides, an IN or OUT argument on one only. */
  lemma InOutOnBothSides(args: seq<ArgInfo>, a: ArgInfo)
    requires a in args
    ensures a.direction == InOut ==> a in InArgs(args) && a in OutArgs(args)
    ensures a.direction == In ==> a in InArgs(args) && a !in OutArgs(args)
    ensures a.direction == Out ==> a !in InArgs(args) && a in OutArgs(args)
  {
  }

  /** split_function_info_args: one pass over the arguments, appending to the in and out lists. */
  method SplitFunctionInfoArgs(info: CallableInfo) returns (ins: seq<ArgInfo>, outs: seq<ArgInfo>)
    ensures ins == InArgs(info.args) && outs == OutArgs(info.args)
  {
    ins, outs := [], [];
    var i := 0;
    while i < |info.args|
      invariant 0 <= i <= |info.args|
      invariant ins == InArgs(info.args[..i]) && outs == OutArgs(info.args[..i])
    {
      assert info.args[..i + 1][..i] == info.args[..i];
      var direction := info.args[i].direction;
      if direction == In || direction == InOut {
        ins := ins + [info.args[i]];
      }
      if direction == Out || direction == InOut {
        outs := outs + [info.args[i]];
      }
      i := i + 1;
    }
    assert info.args[..i] == info.args;
  }

  // ---------------------------------------------------------------------
  // _get_pytype_hint
  // ---------------------------------------------------------------------

  /** The _type_tag_to_py_type table, by class name; the tags it maps to None, and unlisted ones, give None. */
  function PyTypeName(tag: TypeTag): Option<string>
  {
    match tag
    case Boolean => Some("bool")
    case Int8 => Some("int")
    case UInt8 => Some("int")
    case Int16 => Some("int")
    case UInt16 => Some("int")
    case Int32 => Some("int")
    case UInt32 => Some("int")
    case Int64 => Some("int")
    case UInt64 => Some("int")
    case Float => Some("float")
    case Double => Some("float")
    case GList => Some("list")
    case GSList => Some("list")
    case Array => Some("list")
    case GHash => Some("dict")
    case Utf8 => Some("str")
    case Filename => Some("str")
    case Unichar => Some("str")
    case _ => None
  }

  /** GObject-Introspection's g_type_tag_to_string. */
  function TagString(tag: TypeTag): string
  {
    match tag
    case Void => "void"
    case Boolean => "gboolean"
    case Int8 => "gint8"
    case UInt8 => "guint8"
    case Int16 => "gint16"
    case UInt16 => "guint16"
    case Int32 => "gint32"
    case UInt32 => "guint32"
    case Int64 => "gint64"
    case UInt64 => "guint64"
    case Float => "gfloat"
    case Double => "gdouble"
    case GType => "GType"
    case Utf8 => "utf8"
    case Filename => "filename"
    case Array => "array"
    case Interface => "interface"
    case GList => "glist"
    case GSList => "gslist"
    case GHash => "ghash"
    case Error => "GError"
    case Unichar => "gunichar"
  }

  /**
   * _get_pytype_hint: the Python class name for a mapped tag; for an
   * interface its qualified name, or the tag string when the name is empty;
   * the tag string otherwise. The hint is never empty, and it is "void"
   * exactly for the VOID tag, the only hint the signature leaves out.
   */
  function PyTypeHint(t: TypeInfo): (r: string)
    ensures PyTypeName(t.tag).Some? ==> r == PyTypeName(t.tag).value
    ensures t.tag == Interface && t.iface.name != "" ==> r == t.iface.namespace + "." + t.iface.name
    ensures t.tag == Interface && t.iface.name == "" ==> r == "interface"
    ensures PyTypeName(t.tag).None? && t.tag != Interface ==> r == TagString(t.tag)
    ensures r != ""
    ensures r == "void" <==> t.tag == Void
  {
    if PyTypeName(t.tag).Some? then PyTypeName(t.tag).value
    else if t.tag == Interface then
      if t.iface.name == "" then TagString(t.tag)
      else
        var q := t.iface.namespace + "." + t.iface.name;
        assert q[|t.iface.namespace|] == '.';
        q
    else TagString(t.tag)
  }

  // ---------------------------------------------------------------------
  // _generate_callable_info_sig
  // ---------------------------------------------------------------------

  /** The leading `self` of a vfunc or a method. */
  function SelfPrefix(kind: CallableKind): (r: seq<string>)
    ensures r == ["self"] || r == []
    ensures r == ["self"] <==> kind.VFuncCallable? || (kind.FunctionCallable? && kind.isMethod)
  {
    match kind
    case VFuncCallable => ["self"]
    case FunctionCallable(isMethod, _) => if isMethod then ["self"] else []
    case OtherCallable => []
  }

  /** The positions the in-arguments name as destroy notifiers or array lengths. */
  function IgnoreIndices(ins: seq<ArgInfo>): (r: set<int>)
    ensures forall k :: 0 <= k < |ins| ==> ins[k].destroy in r && ins[k].argType.arrayLength in r
    ensures forall p :: p in r ==> exists k :: 0 <= k < |ins| && (ins[k].destroy == p || ins[k].argType.arrayLength == p)
  {
    if ins == [] then {}
    else
      var last := ins[|ins| - 1];
      var r := IgnoreIndices(ins[..|ins| - 1]) + {last.destroy, last.argType.arrayLength};
      assert forall k :: 0 <= k < |ins| - 1 ==> ins[k] == ins[..|ins| - 1][k];
      r
  }

  /** The positions the in-arguments name as closure user data. */
  function UserDataIndices(ins: seq<ArgInfo>): (r: set<int>)
    ensures forall k :: 0 <= k < |ins| ==> ins[k].closure in r
    ensures forall p :: p in r ==> exists k :: 0 <= k < |ins| && ins[k].closure == p
  {
    if ins == [] then {}
    else
      var last := ins[|ins| - 1];
      var r := UserDataIndices(ins[..|ins| - 1]) + {last.closure};
      assert forall k :: 0 <= k < |ins| - 1 ==> ins[k] == ins[..|ins| - 1][k];
      r
  }

  /** `name:hint`, the hint left out when it is "void". */
  function Annotated(a: ArgInfo): (r: string)
    ensures PyTypeHint(a.argType) == "void" ==> r == a.name
    ensures PyTypeHint(a.argType) != "void" ==> r == a.name + ":" + PyTypeHint(a.argType)
  {
    var hint := PyTypeHint(a.argType);
    if hint != "void" then a.name + ":" + hint else a.name
  }

  /**
   * One in-parameter: the annotated name, then `=None` for a nullable or
   * user-data argument, else `=<optional>` for an optional one.
   */
  function InArgStr(a: ArgInfo, isUserData: bool): (r: string)
    ensures a.mayBeNull || isUserData ==> r == Annotated(a) + "=None"
    ensures !(a.mayBeNull || isUserData) && a.isOptional ==> r == Annotated(a) + "=<optional>"
    ensures !(a.mayBeNull || isUserData) && !a.isOptional ==> r == Annotated(a)
  {
    Annotated(a) + (if a.mayBeNull || isUserData then "=None" else if a.isOptional then "=<optional>" else "")
  }

  /** The in-parameter strings of a prefix of the in-arguments, skipping ignored positions. */
  function InArgStrs(ins: seq<ArgInfo>, ignore: set<int>, userData: set<int>): seq<string>
  {
    if ins == [] then []
    else
      var p := |ins| - 1;
      InArgStrs(ins[..p], ignore, userData)
        + (if p in ignore then [] else [InArgStr(ins[p], p in userData)])
  }

  /** The out-parameter strings, skipping positions (in the out list) that are in `ignore`. */
  function OutArgStrs(outs: seq<ArgInfo>, ignore: set<int>): seq<string>
  {
    if outs == [] then []
    else
      var p := |outs| - 1;
      OutArgStrs(outs[..p], ignore) + (if p in ignore then [] else [Annotated(outs[p])])
  }

  /** The positions below `n` that are not ignored, in increasing order. */
  function Kept(n: nat, ignore: set<int>): (r: seq<nat>)
    ensures forall j :: 0 <= j < |r| ==> r[j] < n && r[j] !in ignore
    ensures forall j, k :: 0 <= j < k < |r| ==> r[j] < r[k]
    ensures forall p :: 0 <= p < n && p !in ignore ==> p in r
  {
    if n == 0 then []
    else Kept(n - 1, ignore) + (if n - 1 in ignore then [] else [n - 1])
  }

  /**
   * The in-parameters are exactly the in-arguments whose position is not
   * ignored, in order, each rendered with its hint and default.
   */
  lemma {:induction false} InArgStrsAreKeptArgs(ins: seq<ArgInfo>, ignore: set<int>, userData: set<int>)
    ensures |InArgStrs(ins, ignore, userData)| == |Kept(|ins|, ignore)|
    ensures forall j :: 0 <= j < |Kept(|ins|, ignore)| ==>
              InArgStrs(ins, ignore, userData)[j]
                == InArgStr(ins[Kept(|ins|, ignore)[j]], Kept(|ins|, ignore)[j] in userData)
  {
    if ins != [] {
      var p := |ins| - 1;
      InArgStrsAreKeptArgs(ins[..p], ignore, userData);
      var strs := InArgStrs(ins, ignore, userData);
      var a := InArgStrs(ins[..p], ignore, userData);
      var kept := Kept(|ins|, ignore);
      var k := Kept(p, ignore);
      assert strs == a + (if p in ignore then [] else [InArgStr(ins[p], p in userData)]);
      assert kept == k + (if p in ignore then [] else [p]);
      forall j | 0 <= j < |kept| ensures strs[j] == InArgStr(ins[kept[j]], kept[j] in userData) {
        if j < |k| {
          assert strs[j] == a[j] && kept[j] == k[j];
          assert ins[..p][k[j]] == ins[k[j]];
        }
      }
    }
  }

  /** `(ins) -> outs` when there are out strings, `(ins)` otherwise. */
  function Render(ins: seq<string>, outs: seq<string>): (r: string)
    ensures |r| >= 2 && r[0] == '('
    ensures outs == [] ==> r == "(" + Join(ins, ", ") + ")"
    ensures outs != [] ==> |r| >= |Join(ins, ", ")| + 6 && r[..|Join(ins, ", ")| + 6] == "(" + Join(ins, ", ") + ") -> "
  {
    var head := "(" + Join(ins, ", ") + ")";
    if outs == [] then head
    else
      var r := head + " -> " + Join(outs, ", ");
      assert r[..|Join(ins, ", ")| + 6] == head + " -> ";
      r
  }

  /**
   * Whether the return hint is listed once `skip_return` is called: the
   * return is not skipped and its hint is neither empty nor "void".
   */
  predicate ReturnShown(info: CallableInfo)
  {
    !info.skipReturn && PyTypeHint(info.returnType) != "" && PyTypeHint(info.returnType) != "void"
  }

  /** The in-parameter strings of a callable, `self` included. */
  function SigIns(info: CallableInfo): seq<string>
  {
    var ins := InArgs(info.args);
    SelfPrefix(info.kind) + InArgStrs(ins, IgnoreIndices(ins), UserDataIndices(ins))
  }

  /** The out-argument strings, ignored positions left out. */
  function SigOuts(info: CallableInfo): seq<string>
  {
    OutArgStrs(OutArgs(info.args), IgnoreIndices(InArgs(info.args)))
  }

  /**
   * _generate_callable_info_sig as written. The return-hint test reads the
   * `skip_return` accessor without calling it; a bound method is always
   * true, so `not info.skip_return` is always false and the return hint is
   * never listed, whatever the return type, its skip flag or its
   * nullability. Only the out-arguments follow the arrow.
   */
  function CallableSig(info: CallableInfo): (r: string)
    ensures |r| >= 2 && r[0] == '('
    ensures SigOuts(info) == [] ==> r == "(" + Join(SigIns(info), ", ") + ")"
    ensures SigOuts(info) != [] ==>
              r == "(" + Join(SigIns(info), ", ") + ") -> " + Join(SigOuts(info), ", ")
  {
    Render(SigIns(info), SigOuts(info))
  }

  /** As written, the signature does not depend on anything about the return value. */
  lemma ReturnNeverAffectsSig(info: CallableInfo, returnType: TypeInfo, skipReturn: bool, mayReturnNull: bool)
    ensures CallableSig(info)
            == CallableSig(info.(returnType := returnType, skipReturn := skipReturn, mayReturnNull := mayReturnNull))
  {
    var info' := info.(returnType := returnType, skipReturn := skipReturn, mayReturnNull := mayReturnNull);
    assert info'.args == info.args && info'.kind == info.kind;
  }

  /** A function without arguments returning a string: as written its signature is `()`, the intended one `() -> str`. */
  lemma ReturnHintIsNeverListed()
    ensures CallableSig(GetName(false)) == "()"
    ensures CallableSigIntended(GetName(false)) == "() -> str"
  {
    var info := GetName(false);
    assert PyTypeHint(info.returnType) == "str";
    assert InArgs(info.args) == [] && OutArgs(info.args) == [];
    assert SigIns(info) == [] && SigOuts(info) == [];
  }

  /** `get_name()`, a function without arguments returning a string that may be NULL when `mayReturnNull`. */
  function GetName(mayReturnNull: bool): CallableInfo
  {
    CallableInfo("get_name", FunctionCallable(false, false), [],
                 TypeInfo(Utf8, -1, InterfaceName("", "")), false, mayReturnNull)
  }

  /**
   * The signature if only the missing call were added to the return-hint
   * test and the lines after it were kept: ` or None` is appended to
   * `argstr`, the variable of the in-parameter loop, rather than to the
   * return hint, so the nullability never shows, and when that loop never
   * assigned `argstr` the append raises UnboundLocalError. This is why the
   * corrected signature changes both lines.
   */
  function CallableSigCallAdded(info: CallableInfo): (r: Result<string, PyError>)
    ensures r.Failure? <==>
              ReturnShown(info) && info.mayReturnNull && SigIns(info) == SelfPrefix(info.kind)
    ensures r.Failure? ==> r.error == UnboundLocalError
    ensures r.Success? && ReturnShown(info) ==>
              r.value == Render(SigIns(info), [PyTypeHint(info.returnType)] + SigOuts(info))
    ensures r.Success? && !ReturnShown(info) ==> r.value == CallableSig(info)
  {
    var ins := InArgs(info.args);
    var inStrs := InArgStrs(ins, IgnoreIndices(ins), UserDataIndices(ins));
    assert SigIns(info) == SelfPrefix(info.kind) + inStrs;
    if ReturnShown(info) && info.mayReturnNull && inStrs == [] then Failure(UnboundLocalError)
    else if ReturnShown(info) then Success(Render(SigIns(info), [PyTypeHint(info.returnType)] + SigOuts(info)))
    else Success(CallableSig(info))
  }

  /** With only the call added, a nullable return still shows as a non-nullable one. */
  lemma ReturnNullabilityIsLost(info: CallableInfo)
    requires CallableSigCallAdded(info).Success?
    ensures CallableSigCallAdded(info) == CallableSigCallAdded(info.(mayReturnNull := false))
  {
    var info' := info.(mayReturnNull := false);
    assert InArgs(info'.args) == InArgs(info.args);
    assert SigIns(info') == SigIns(info) && SigOuts(info') == SigOuts(info);
  }

  /** With only the call added, `get_name()` with a nullable string return raises. */
  lemma NullableReturnWithoutArgsRaises()
    ensures CallableSigCallAdded(GetName(true)) == Failure(UnboundLocalError)
  {
    var info := GetName(true);
    assert PyTypeHint(info.returnType) == "str";
    assert InArgs(info.args) == [];
    assert SigIns(info) == SelfPrefix(info.kind);
  }

  /** The return string the code evidently intends: the hint, with ` or None` for a nullable return. */
  function ReturnStr(info: CallableInfo): (r: string)
    ensures |r| >= |PyTypeHint(info.returnType)| && r[..|PyTypeHint(info.returnType)|] == PyTypeHint(info.returnType)
    ensures info.mayReturnNull ==> r == PyTypeHint(info.returnType) + " or None"
    ensures !info.mayReturnNull ==> r == PyTypeHint(info.returnType)
  {
    var hint := PyTypeHint(info.returnType);
    if info.mayReturnNull then
      assert (hint + " or None")[..|hint|] == hint;
      hint + " or None"
    else
      hint
  }

  /**
   * The corrected signature: `skip_return` is called, and ` or None` goes
   * on the return hint. It never raises; it equals the signature as
   * written when the return is not listed, and otherwise it lists the
   * return string before the out-arguments.
   */
  function CallableSigIntended(info: CallableInfo): (r: string)
    ensures !ReturnShown(info) ==> r == CallableSig(info)
    ensures ReturnShown(info) ==> r == Render(SigIns(info), [ReturnStr(info)] + SigOuts(info))
    ensures ReturnShown(info) && !info.mayReturnNull ==> CallableSigCallAdded(info) == Success(r)
  {
    if ReturnShown(info) then Render(SigIns(info), [ReturnStr(info)] + SigOuts(info))
    else CallableSig(info)
  }

  /** The first loop of _generate_callable_info_sig: the ignored and the user-data positions. */
  method CollectIndices(ins: seq<ArgInfo>) returns (ignore: set<int>, userData: set<int>)
    ensures ignore == IgnoreIndices(ins) && userData == UserDataIndices(ins)
  {
    ignore, userData := {}, {};
    var i := 0;
    while i < |ins|
      invariant 0 <= i <= |ins|
      invariant ignore == IgnoreIndices(ins[..i]) && userData == UserDataIndices(ins[..i])
    {
      assert ins[..i + 1][..i] == ins[..i];
      ignore := ignore + {ins[i].destroy, ins[i].argType.arrayLength};
      userData := userData + {ins[i].closure};
      i := i + 1;
    }
    assert ins[..i] == ins;
  }

  /** The in-parameter loop: annotated names, positions in `ignore` skipped. */
  method InParams(ins: seq<ArgInfo>, ignore: set<int>, userData: set<int>) returns (params: seq<string>)
    ensures params == InArgStrs(ins, ignore, userData)
  {
    params := [];
    var i := 0;
    while i < |ins|
      invariant 0 <= i <= |ins|
      invariant params == InArgStrs(ins[..i], ignore, userData)
    {
      assert ins[..i + 1][..i] == ins[..i];
      if i !in ignore {
        var argstr := ins[i].name;
        var hint := PyTypeHint(ins[i].argType);
        if hint != "void" {
          argstr := argstr + ":" + hint;
        }
        if ins[i].mayBeNull || i in userData {
          argstr := argstr + "=None";
        } else if ins[i].isOptional {
          argstr := argstr + "=<optional>";
        }
        params := params + [argstr];
      }
      i := i + 1;
    }
    assert ins[..i] == ins;
  }

  /** The out-parameter loop: annotated names, positions in `ignore` skipped. */
  method OutParams(outs: seq<ArgInfo>, ignore: set<int>) returns (params: seq<string>)
    ensures params == OutArgStrs(outs, ignore)
  {
    params := [];
    var i := 0;
    while i < |outs|
      invariant 0 <= i <= |outs|
      invariant params == OutArgStrs(outs[..i], ignore)
    {
      assert outs[..i + 1][..i] == outs[..i];
      if i !in ignore {
        var argstr := outs[i].name;
        var hint := PyTypeHint(outs[i].argType);
        if hint != "void" {
          argstr := argstr + ":" + hint;
        }
        params := params + [argstr];
      }
      i := i + 1;
    }
    assert outs[..i] == outs;
  }

  /**
   * _generate_callable_info_sig: collects the ignored and user-data
   * positions first, then renders the in-parameters and the
   * out-parameters. The return-hint block is guarded by the uncalled
   * `skip_return` accessor, which is always true, so it never runs.
   */
  method GenerateCallableInfoSig(info: CallableInfo) returns (r: string)
    ensures r == CallableSig(info)
  {
    var ins, outs := SplitFunctionInfoArgs(info);
    var ignore, userData := CollectIndices(ins);
    var params := InParams(ins, ignore, userData);
    var inStrs := SelfPrefix(info.kind) + params;
    assert inStrs == SigIns(info);

    var outParams := OutParams(outs, ignore);
    assert outParams == SigOuts(info);
    r := Render(inStrs, outParams);
  }

  // ---------------------------------------------------------------------
  // _get_constructor_overloads
  // ---------------------------------------------------------------------

  /** The frozenset of a constructor's argument names. */
  function Key(c: CallableInfo): set<string>
  {
    set a | a in c.args :: a.name
  }

  /** How many of `cs` have the argument-name set `k`. */
  function KeyCount(cs: seq<CallableInfo>, k: set<string>): nat
  {
    if cs == [] then 0
    else KeyCount(cs[..|cs| - 1], k) + (if Key(cs[|cs| - 1]) == k then 1 else 0)
  }

  function Keys(s: seq<CallableInfo>): set<set<string>>
  {
    set c | c in s :: Key(c)
  }

  /** The `overloads` dictionary (its values, in insertion order) and the `blacklist` set. */
  datatype OverloadTable = OverloadTable(values: seq<CallableInfo>, blacklist: set<set<string>>)

  /** `del overloads[key]`: the entries with any other key, in their order. */
  function WithoutKey(s: seq<CallableInfo>, k: set<string>): (r: seq<CallableInfo>)
    ensures forall c :: c in r <==> c in s && Key(c) != k
  {
    if s == [] then []
    else
      assert s == s[..|s| - 1] + [s[|s| - 1]];
      WithoutKey(s[..|s| - 1], k) + (if Key(s[|s| - 1]) != k then [s[|s| - 1]] else [])
  }

  /** The table after the loop of _get_constructor_overloads has seen `cs`. */
  function Table(cs: seq<CallableInfo>): OverloadTable
  {
    if cs == [] then OverloadTable([], {})
    else
      var t := Table(cs[..|cs| - 1]);
      var c := cs[|cs| - 1];
      if Key(c) in Keys(t.values) then OverloadTable(WithoutKey(t.values, Key(c)), t.blacklist + {Key(c)})
      else if Key(c) !in t.blacklist then OverloadTable(t.values + [c], t.blacklist)
      else t
  }

  /** No two entries share a key, as in a dictionary. */
  predicate DistinctKeys(s: seq<CallableInfo>)
  {
    forall i, j :: 0 <= i < j < |s| ==> Key(s[i]) != Key(s[j])
  }

  lemma {:induction false} WithoutKeyKeepsDistinct(s: seq<CallableInfo>, k: set<string>)
    requires DistinctKeys(s)
    ensures DistinctKeys(WithoutKey(s, k))
  {
    if s != [] {
      var p := s[..|s| - 1];
      assert DistinctKeys(p) by {
        forall i, j | 0 <= i < j < |p| ensures Key(p[i]) != Key(p[j]) {
          assert p[i] == s[i] && p[j] == s[j];
        }
      }
      WithoutKeyKeepsDistinct(p, k);
      var last := s[|s| - 1];
      if Key(last) != k {
        var w := WithoutKey(p, k);
        forall c | c in w ensures Key(c) != Key(last) {
          var i :| 0 <= i < |p| && p[i] == c;
          assert s[i] == c;
        }
      }
    }
  }

  /**
   * What the table means: a key has a dictionary entry iff exactly one
   * constructor has it, and is blacklisted iff two or more have it; the
   * entries are those unique constructors, with distinct keys.
   */
  lemma {:induction false} TableMeaning(cs: seq<CallableInfo>)
    ensures forall k :: k in Keys(Table(cs).values) <==> KeyCount(cs, k) == 1
    ensures forall k :: k in Table(cs).blacklist <==> KeyCount(cs, k) >= 2
    ensures forall c :: c in Table(cs).values <==> c in cs && KeyCount(cs, Key(c)) == 1
    ensures DistinctKeys(Table(cs).values)
  {
    if cs != [] {
      var p := cs[..|cs| - 1];
      var c := cs[|cs| - 1];
      assert cs == p + [c];
      TableMeaning(p);
      var t := Table(p);
      if Key(c) in Keys(t.values) {
        WithoutKeyKeepsDistinct(t.values, Key(c));
      } else if Key(c) !in t.blacklist {
        assert KeyCount(p, Key(c)) == 0;
        forall x | x in p ensures KeyCount(p, Key(x)) >= 1 {
          OccurrencesBelowKeyCount(p, x);
        }
        var v := t.values + [c];
        forall i, j | 0 <= i < j < |v| ensures Key(v[i]) != Key(v[j]) {
          if j == |v| - 1 {
            assert v[i] in t.values;
          }
        }
      }
    }
  }

  /**
   * _get_constructor_overloads: one pass over the constructors, adding a
   * new key, deleting and blacklisting a repeated one, and ignoring a
   * blacklisted one. The result is the dictionary's values in order.
   */
  method GetConstructorOverloads(constructors: seq<CallableInfo>) returns (overloads: seq<CallableInfo>)
    ensures overloads == Table(constructors).values
    ensures forall c :: c in overloads <==> c in constructors && KeyCount(constructors, Key(c)) == 1
  {
    var blacklist: set<set<string>> := {};
    overloads := [];
    var i := 0;
    while i < |constructors|
      invariant 0 <= i <= |constructors|
      invariant OverloadTable(overloads, blacklist) == Table(constructors[..i])
    {
      assert constructors[..i + 1][..i] == constructors[..i];
      var key := Key(constructors[i]);
      if key in Keys(overloads) {
        blacklist := blacklist + {key};
        overloads := WithoutKey(overloads, key);
      } else if key !in blacklist {
        overloads := overloads + [constructors[i]];
      }
      i := i + 1;
    }
    assert constructors[..i] == constructors;
    TableMeaning(constructors);
  }

  /** A constructor is documented once: as an overload, or under its own name. */
  function NotOverloaded(cs: seq<CallableInfo>, overloads: seq<CallableInfo>): (r: seq<CallableInfo>)
    ensures forall c :: c in r <==> c in cs && c !in overloads
  {
    if cs == [] then []
    else
      var c := cs[|cs| - 1];
      assert cs == cs[..|cs| - 1] + [c];
      NotOverloaded(cs[..|cs| - 1], overloads) + (if c !in overloads then [c] else [])
  }

  lemma {:induction false} NotOverloadedCount(cs: seq<CallableInfo>, overloads: seq<CallableInfo>, x: CallableInfo)
    ensures multiset(NotOverloaded(cs, overloads))[x] == if x in overloads then 0 else multiset(cs)[x]
  {
    if cs != [] {
      var p := cs[..|cs| - 1];
      assert cs == p + [cs[|cs| - 1]];
      NotOverloadedCount(p, overloads, x);
    }
  }

  lemma {:induction false} OccurrencesBelowKeyCount(cs: seq<CallableInfo>, x: CallableInfo)
    ensures multiset(cs)[x] <= KeyCount(cs, Key(x))
  {
    if cs != [] {
      var p := cs[..|cs| - 1];
      assert cs == p + [cs[|cs| - 1]];
      OccurrencesBelowKeyCount(p, x);
    }
  }

  lemma {:induction false} DistinctKeysOccurOnce(s: seq<CallableInfo>, x: CallableInfo)
    requires DistinctKeys(s)
    ensures multiset(s)[x] <= 1
  {
    if s != [] {
      var p := s[..|s| - 1];
      var last := s[|s| - 1];
      assert s == p + [last];
      assert DistinctKeys(p) by {
        forall i, j | 0 <= i < j < |p| ensures Key(p[i]) != Key(p[j]) {
          assert p[i] == s[i] && p[j] == s[j];
        }
      }
      DistinctKeysOccurOnce(p, x);
    }
  }

  /**
   * Overloads and named constructors together list every constructor
   * exactly as often as it occurs: none is lost and none is listed twice.
   */
  lemma EachConstructorListedOnce(cs: seq<CallableInfo>)
    ensures multiset(Table(cs).values) + multiset(NotOverloaded(cs, Table(cs).values)) == multiset(cs)
  {
    var v := Table(cs).values;
    TableMeaning(cs);
    forall x
      ensures (multiset(v) + multiset(NotOverloaded(cs, v)))[x] == multiset(cs)[x]
    {
      NotOverloadedCount(cs, v, x);
      if x in v {
        DistinctKeysOccurOnce(v, x);
        OccurrencesBelowKeyCount(cs, x);
      }
    }
  }

  // ---------------------------------------------------------------------
  // _generate_class_info_doc
  // ---------------------------------------------------------------------

  /** Struct infos (with their size) get a default constructor line, object infos a properties one. */
  datatype ClassKind = StructClass(size: nat) | ObjectClass

  datatype ClassInfo = ClassInfo(name: string, kind: ClassKind, methods: seq<CallableInfo>)

  predicate IsConstructor(c: CallableInfo) { c.kind.FunctionCallable? && c.kind.isConstructor }

  /** The methods of a class that are constructors, in their order. */
  function Constructors(methods: seq<CallableInfo>): (r: seq<CallableInfo>)
    ensures forall c :: c in r <==> c in methods && IsConstructor(c)
  {
    if methods == [] then []
    else
      var c := methods[|methods| - 1];
      assert methods == methods[..|methods| - 1] + [c];
      Constructors(methods[..|methods| - 1]) + (if IsConstructor(c) then [c] else [])
  }

  predicate SortedByNameLength(s: seq<CallableInfo>)
  {
    forall i, j :: 0 <= i < j < |s| ==> |s[i].name| <= |s[j].name|
  }

  /** Inserts `c` after every element whose name is not longer, as a stable sort does with a later element. */
  function InsertByNameLength(s: seq<CallableInfo>, c: CallableInfo): (r: seq<CallableInfo>)
    ensures multiset(r) == multiset(s) + multiset{c}
  {
    if s == [] || |s[|s| - 1].name| <= |c.name| then s + [c]
    else
      assert s == s[..|s| - 1] + [s[|s| - 1]];
      InsertByNameLength(s[..|s| - 1], c) + [s[|s| - 1]]
  }

  lemma {:induction false} InsertKeepsSorted(s: seq<CallableInfo>, c: CallableInfo)
    requires SortedByNameLength(s)
    ensures SortedByNameLength(InsertByNameLength(s, c))
  {
    if s == [] || |s[|s| - 1].name| <= |c.name| {
      BoundedByLast(s, c);
      SortedAppend(s, c);
    } else {
      var p := s[..|s| - 1];
      var last := s[|s| - 1];
      assert SortedByNameLength(p);
      InsertKeepsSorted(p, c);
      var q := InsertByNameLength(p, c);
      forall i | 0 <= i < |q| ensures |q[i].name| <= |last.name| {
        assert q[i] in multiset(q);
        if q[i] != c {
          assert q[i] in multiset(p);
          var k :| 0 <= k < |p| && p[k] == q[i];
          assert s[k] == p[k];
        }
      }
      SortedAppend(q, last);
    }
  }

  lemma BoundedByLast(s: seq<CallableInfo>, c: CallableInfo)
    requires SortedByNameLength(s) && (s == [] || |s[|s| - 1].name| <= |c.name|)
    ensures forall i :: 0 <= i < |s| ==> |s[i].name| <= |c.name|
  {
    forall i | 0 <= i < |s| ensures |s[i].name| <= |c.name| {
      assert |s[i].name| <= |s[|s| - 1].name|;
    }
  }

  lemma SortedAppend(s: seq<CallableInfo>, c: CallableInfo)
    requires SortedByNameLength(s)
    requires forall i :: 0 <= i < |s| ==> |s[i].name| <= |c.name|
    ensures SortedByNameLength(s + [c])
  {
    var t := s + [c];
    forall i, j | 0 <= i < j < |t| ensures |t[i].name| <= |t[j].name| {
      if j < |s| {
        assert t[i] == s[i] && t[j] == s[j];
      } else {
        assert t[i] == s[i] && t[j] == c;
      }
    }
  }

  /** `sorted(overloads, key=lambda x: len(x.__name__))`: a stable sort by name length. */
  function SortByNameLength(s: seq<CallableInfo>): (r: seq<CallableInfo>)
    ensures multiset(r) == multiset(s)
  {
    if s == [] then []
    else
      assert s == s[..|s| - 1] + [s[|s| - 1]];
      InsertByNameLength(SortByNameLength(s[..|s| - 1]), s[|s| - 1])
  }

  /** The sorted overloads are ordered by name length. */
  lemma {:induction false} SortIsSorted(s: seq<CallableInfo>)
    ensures SortedByNameLength(SortByNameLength(s))
  {
    if s != [] {
      SortIsSorted(s[..|s| - 1]);
      InsertKeepsSorted(SortByNameLength(s[..|s| - 1]), s[|s| - 1]);
    }
  }

  /** The line of the default constructor: none for a zero-sized (disguised) struct. */
  function DefaultCtorLine(info: ClassInfo): (r: string)
    ensures r == "" <==> info.kind == StructClass(0)
    ensures info.kind.ObjectClass? ==> r == "    " + info.name + "(**properties)\n"
  {
    match info.kind
    case StructClass(size) => if size > 0 then "    " + info.name + "()\n" else ""
    case ObjectClass => "    " + info.name + "(**properties)\n"
  }

  /** `Name<sig>` for an overload and `Name.ctor<sig>` for a named constructor, indented, on a line of its own. */
  function FormatCtorLine(infoName: string, ctorName: string, sig: string, qualified: bool): string
  {
    if qualified then "    " + infoName + "." + ctorName + sig + "\n"
    else "    " + infoName + sig + "\n"
  }

  /** The line of one constructor, with the signature as written. */
  function CtorLine(infoName: string, c: CallableInfo, qualified: bool): string
  {
    FormatCtorLine(infoName, c.name, CallableSig(c), qualified)
  }

  /** The lines of a list of constructors, one per constructor. */
  function CtorLineList(infoName: string, cs: seq<CallableInfo>, qualified: bool): (r: seq<string>)
    ensures |r| == |cs|
  {
    if cs == [] then []
    else CtorLineList(infoName, cs[..|cs| - 1], qualified) + [CtorLine(infoName, cs[|cs| - 1], qualified)]
  }

  /** The lines keep the constructors' order: the line at each position is that of the constructor there. */
  lemma {:induction false} CtorLineListAt(infoName: string, cs: seq<CallableInfo>, qualified: bool, i: nat)
    requires i < |cs|
    ensures CtorLineList(infoName, cs, qualified)[i] == CtorLine(infoName, cs[i], qualified)
  {
    if i < |cs| - 1 {
      CtorLineListAt(infoName, cs[..|cs| - 1], qualified, i);
    }
  }

  /** The text made of some lines, in order. */
  function Concat(lines: seq<string>): string
  {
    if lines == [] then "" else Concat(lines[..|lines| - 1]) + lines[|lines| - 1]
  }

  /** The text of two runs of lines is the text of the first followed by that of the second. */
  lemma {:induction false} ConcatAppend(xs: seq<string>, ys: seq<string>)
    ensures Concat(xs + ys) == Concat(xs) + Concat(ys)
    decreases |ys|
  {
    if ys == [] {
      assert xs + ys == xs;
    } else {
      var ys' := ys[..|ys| - 1];
      ConcatAppend(xs, ys');
      assert (xs + ys)[..|xs + ys| - 1] == xs + ys';
    }
  }

  /** The constructor lines, one per constructor, in order. */
  function CtorLines(infoName: string, cs: seq<CallableInfo>, qualified: bool): string
  {
    Concat(CtorLineList(infoName, cs, qualified))
  }

  const ConstructorsHeader: string := "\n:Constructors:\n"

  /** The two constructor lists of the class doc hold exactly the constructors. */
  lemma ListsCoverConstructors(ctors: seq<CallableInfo>)
    ensures forall c :: c in ctors <==>
              c in SortByNameLength(Table(ctors).values) || c in NotOverloaded(ctors, Table(ctors).values)
  {
    var overloads := Table(ctors).values;
    EachConstructorListedOnce(ctors);
    forall c ensures c in ctors <==> c in SortByNameLength(overloads) || c in NotOverloaded(ctors, overloads) {
      assert c in ctors <==> c in multiset(ctors);
      assert c in SortByNameLength(overloads) <==> c in multiset(overloads);
    }
  }

  /**
   * _generate_class_info_doc: the header and the default constructor, then
   * the overloads sorted by name length, then every other constructor
   * under its own name.
   */
  function ClassDoc(info: ClassInfo): (r: string)
    ensures |ClassDocHead(info)| <= |r| && r[..|ClassDocHead(info)|] == ClassDocHead(info)
    ensures Constructors(info.methods) == [] ==> r == ClassDocHead(info)
  {
    var ctors := Constructors(info.methods);
    var overloads := Table(ctors).values;
    var head := ClassDocHead(info);
    var rest := CtorLines(info.name, SortByNameLength(overloads), false)
                + CtorLines(info.name, NotOverloaded(ctors, overloads), true);
    assert (head + rest)[..|head|] == head;
    head + rest
  }

  /**
   * After the head, the class doc is one run of lines: a line per sorted
   * overload, then a line per other constructor in its original order.
   */
  lemma ClassDocLines(info: ClassInfo)
    ensures var ctors := Constructors(info.methods);
            var overloads := Table(ctors).values;
            ClassDoc(info) == ClassDocHead(info)
                              + Concat(CtorLineList(info.name, SortByNameLength(overloads), false)
                                       + CtorLineList(info.name, NotOverloaded(ctors, overloads), true))
  {
    var ctors := Constructors(info.methods);
    var overloads := Table(ctors).values;
    ConcatAppend(CtorLineList(info.name, SortByNameLength(overloads), false),
                 CtorLineList(info.name, NotOverloaded(ctors, overloads), true));
  }

  /** A single constructor is listed as an overload, under the class name alone. */
  lemma SingleConstructorIsOverload(info: ClassInfo)
    requires |Constructors(info.methods)| == 1
    ensures ClassDoc(info) == ClassDocHead(info) + CtorLine(info.name, Constructors(info.methods)[0], false)
  {
    var ctors := Constructors(info.methods);
    var c := ctors[0];
    assert ctors == [c];
    OneConstructorTables(c);
    OneCtorLine(info.name, c);
    assert CtorLines(info.name, [], true) == "";
    assert ClassDoc(info) == ClassDocHead(info) + (CtorLine(info.name, c, false) + "");
  }

  /** A lone constructor is its own overload and is not listed again under its name. */
  lemma OneConstructorTables(c: CallableInfo)
    ensures Table([c]).values == [c]
    ensures SortByNameLength([c]) == [c]
    ensures NotOverloaded([c], [c]) == []
  {
    assert [c][..0] == [];
    assert Table([c]) == OverloadTable([c], {});
  }

  /** The lines of a lone overload are its own line. */
  lemma OneCtorLine(infoName: string, c: CallableInfo)
    ensures CtorLines(infoName, [c], false) == CtorLine(infoName, c, false)
  {
    var line := CtorLine(infoName, c, false);
    assert [c][..0] == [];
    assert CtorLineList(infoName, [c], false) == [line];
    assert [line][..0] == [];
    assert Concat([line]) == "" + line;
  }

  /** The header and the default constructor line. */
  function ClassDocHead(info: ClassInfo): string
  {
    ConstructorsHeader + DefaultCtorLine(info)
  }

  /** The loop over the sorted overloads. */
  method OverloadLines(infoName: string, sorted: seq<CallableInfo>) returns (r: string)
    ensures r == CtorLines(infoName, sorted, false)
  {
    r := "";
    var i := 0;
    while i < |sorted|
      invariant 0 <= i <= |sorted|
      invariant r == CtorLines(infoName, sorted[..i], false)
    {
      assert sorted[..i + 1][..i] == sorted[..i];
      var sig := GenerateCallableInfoSig(sorted[i]);
      r := r + ("    " + infoName + sig + "\n");
      i := i + 1;
    }
    assert sorted[..i] == sorted;
  }

  /** The loop over all constructors, listing those that are not overloads under their own name. */
  method NamedLines(infoName: string, ctors: seq<CallableInfo>, overloads: seq<CallableInfo>) returns (r: string)
    ensures r == CtorLines(infoName, NotOverloaded(ctors, overloads), true)
  {
    r := "";
    var j := 0;
    while j < |ctors|
      invariant 0 <= j <= |ctors|
      invariant r == CtorLines(infoName, NotOverloaded(ctors[..j], overloads), true)
    {
      assert ctors[..j + 1][..j] == ctors[..j];
      ghost var listed := NotOverloaded(ctors[..j], overloads);
      if ctors[j] !in overloads {
        assert NotOverloaded(ctors[..j + 1], overloads) == listed + [ctors[j]];
        assert (listed + [ctors[j]])[..|listed|] == listed;
        var sig := GenerateCallableInfoSig(ctors[j]);
        r := r + ("    " + infoName + "." + ctors[j].name + sig + "\n");
      } else {
        assert NotOverloaded(ctors[..j + 1], overloads) == listed;
      }
      j := j + 1;
    }
    assert ctors[..j] == ctors;
  }

  /** _generate_class_info_doc, accumulating the document line by line. */
  method GenerateClassInfoDoc(info: ClassInfo) returns (r: string)
    ensures r == ClassDoc(info)
  {
    var doc := ConstructorsHeader;
    match info.kind {
      case StructClass(size) =>
        if size > 0 {
          doc := doc + "    " + info.name + "()\n";
        }
      case ObjectClass =>
        doc := doc + "    " + info.name + "(**properties)\n";
    }
    assert doc == ClassDocHead(info);
    var ctors := Constructors(info.methods);
    var overloads := GetConstructorOverloads(ctors);
    var lines := OverloadLines(info.name, SortByNameLength(overloads));
    var named := NamedLines(info.name, ctors, overloads);
    r := doc + (lines + named);
  }
}
