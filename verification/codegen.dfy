/**
 * The static binding generator's tables and naming: the type-tag tables
 * that choose PyArg_Parse/Py_BuildValue formats and C types, the
 * camel-case to snake-case name mangler, and the builders that turn
 * introspection infos into C wrapper declarations.
 */
module Codegen {
  import opened GI

  // ---------------------------------------------------------------------
  // Type-tag tables
  // ---------------------------------------------------------------------

  /** A format unit and the converter function that goes with it (`O&`), if any. */
  datatype Format = Format(fmt: string, converter: Option<string>)

  /** _typetag_to_pyparse: every tag has an entry. */
  function PyParse(tag: TypeTag): (r: Format)
    ensures r.converter.Some? ==> r.fmt == "O&"
    ensures tag == Utf8 || tag == Filename ==> r == Format("s", None)
    ensures tag == Int64 ==> r == Format("L", None)
    ensures tag == UInt64 ==> r == Format("K", None)
    ensures r.converter.Some? <==> tag == Void || tag == Boolean || tag == Interface
    ensures r.fmt != ""
  {
    match tag
    case Void => Format("O&", Some("pygi_codegen_interface_from_py"))
    case Boolean => Format("O&", Some("pygi_codegen_boolean_from_py"))
    case Double => Format("d", None)
    case Float => Format("f", None)
    case Int8 => Format("b", None)
    case UInt8 => Format("B", None)
    case Int16 => Format("h", None)
    case UInt16 => Format("H", None)
    case Unichar => Format("H", None)
    case Int32 => Format("i", None)
    case UInt32 => Format("I", None)
    case Int64 => Format("L", None)
    case UInt64 => Format("K", None)
    case Utf8 => Format("s", None)
    case Filename => Format("s", None)
    case Interface => Format("O&", Some("pygi_codegen_interface_converter"))
    case GType => Format("O&", None)
    case Array => Format("O&", None)
    case GHash => Format("O&", None)
    case Error => Format("O&", None)
    case GList => Format("O&", None)
    case GSList => Format("O&", None)
  }

  /**
   * _typetag_to_buildvalue: the same format units as the parse table except
   * for strings (`z`, which accepts NULL, instead of `s`); the converters
   * run the other way, and INTERFACE has none.
   */
  function BuildValue(tag: TypeTag): (r: Format)
    ensures r.converter.Some? ==> r.fmt == "O&"
    ensures tag == Utf8 || tag == Filename ==> r == Format("z", None)
    ensures tag != Utf8 && tag != Filename ==> r.fmt == PyParse(tag).fmt
    ensures r.converter.Some? <==> tag == Void || tag == Boolean
    ensures tag != Utf8 && tag != Filename && tag != Void && tag != Boolean && tag != Interface ==> r == PyParse(tag)
    ensures r.fmt != ""
  {
    match tag
    case Void => Format("O&", Some("pygi_codegen_interface_to_py"))
    case Boolean => Format("O&", Some("pygi_codegen_boolean_to_py"))
    case Double => Format("d", None)
    case Float => Format("f", None)
    case Int8 => Format("b", None)
    case UInt8 => Format("B", None)
    case Int16 => Format("h", None)
    case UInt16 => Format("H", None)
    case Unichar => Format("H", None)
    case Int32 => Format("i", None)
    case UInt32 => Format("I", None)
    case Int64 => Format("L", None)
    case UInt64 => Format("K", None)
    case Utf8 => Format("z", None)
    case Filename => Format("z", None)
    case Interface => Format("O&", None)
    case GType => Format("O&", None)
    case Array => Format("O&", None)
    case GHash => Format("O&", None)
    case Error => Format("O&", None)
    case GList => Format("O&", None)
    case GSList => Format("O&", None)
  }

  /** _typetag_to_ctype: the C type of a variable holding the value; the container tags, GTYPE and VOID have none. */
  function CType(tag: TypeTag): (r: Option<string>)
    ensures r.None? <==>
              tag == Void || tag == GType || tag == Array || tag == GHash || tag == Error || tag == GList || tag == GSList
    ensures tag == Interface ==> r == Some("void*")
  {
    match tag
    case Boolean => Some("int")
    case Double => Some("double")
    case Float => Some("float")
    case Int8 => Some("signed char")
    case UInt8 => Some("unsigned char")
    case Int16 => Some("signed short")
    case UInt16 => Some("unsigned short")
    case Unichar => Some("unsigned short")
    case Int32 => Some("signed int")
    case UInt32 => Some("unsigned int")
    case Int64 => Some("PY_LONG_LONG")
    case UInt64 => Some("unsigned PY_LONG_LONG")
    case Utf8 => Some("const char*")
    case Filename => Some("const char*")
    case Interface => Some("void*")
    case _ => None
  }

  /** _typetag_to_gtype: the GLib type name of a tag; containers, ERROR and UNICHAR have none. */
  function GLibTypeName(tag: TypeTag): (r: Option<string>)
    ensures r.None? <==>
              tag == Array || tag == GHash || tag == Error || tag == GList || tag == GSList || tag == Unichar
    ensures tag == Void || tag == Interface ==> r == Some("gpointer")
  {
    match tag
    case Void => Some("gpointer")
    case Boolean => Some("gboolean")
    case Double => Some("gdouble")
    case Float => Some("gfloat")
    case Int8 => Some("gint8")
    case UInt8 => Some("guint8")
    case Int16 => Some("gint16")
    case UInt16 => Some("guint16")
    case Int32 => Some("gint32")
    case UInt32 => Some("guint32")
    case Int64 => Some("gint64")
    case UInt64 => Some("guint64")
    case Utf8 => Some("gchar*")
    case Filename => Some("gchar*")
    case Interface => Some("gpointer")
    case GType => Some("GType")
    case _ => None
  }

  // ---------------------------------------------------------------------
  // Introspection infos and type resolution
  // ---------------------------------------------------------------------

  /** The info an INTERFACE type refers to: its kind, its storage tag (enums and flags) and its name. */
  datatype Iface = Iface(infoType: InfoType, storageType: TypeTag, name: string)

  datatype TypeInfo = TypeInfo(tag: TypeTag, iface: Iface)

  datatype ArgInfo = ArgInfo(name: string, argType: TypeInfo)

  /**
   * An introspection info as the builders read it: registered types use
   * the naming fields and `methods`, callables the symbol, arguments and
   * return type; `refFunction`/`unrefFunction` are those of an object info.
   */
  datatype Info = Info(
    infoType: InfoType,
    namespace: string,
    name: string,
    gtype: GTypeId,
    typeName: Option<string>,
    methods: seq<Info>,
    refFunction: Option<string>,
    unrefFunction: Option<string>,
    symbol: string,
    args: seq<ArgInfo>,
    returnType: TypeInfo,
    throws: bool,
    isMethod: bool,
    isConstructor: bool)

  predicate IsEnumLike(iface: Iface) { iface.infoType == FlagsKind || iface.infoType == EnumKind }

  /** typeinfo_to_pyparse: enums and flags by their storage tag, registered structs by their builder's converter. */
  function TypeInfoToPyParse(t: TypeInfo, registered: map<string, ClassBuilder>): (r: Format)
    ensures t.tag != Interface ==> r == PyParse(t.tag)
    ensures t.tag == Interface && IsEnumLike(t.iface) ==> r == PyParse(t.iface.storageType)
    ensures t.tag == Interface && !IsEnumLike(t.iface) && t.iface.name in registered ==>
              r == Format("O&", Some(registered[t.iface.name].FromPyConverter()))
    ensures t.tag == Interface && !IsEnumLike(t.iface) && t.iface.name !in registered ==>
              r == Format("O&", Some("pygi_codegen_interface_converter"))
  {
    if t.tag == Interface && IsEnumLike(t.iface) then PyParse(t.iface.storageType)
    else if t.tag == Interface && t.iface.name in registered then
      Format("O&", Some(registered[t.iface.name].FromPyConverter()))
    else PyParse(t.tag)
  }

  /** typeinfo_to_buildvalue: as the parse lookup, with the builder's to-Python converter. */
  function TypeInfoToBuildValue(t: TypeInfo, registered: map<string, ClassBuilder>): (r: Format)
    ensures t.tag != Interface ==> r == BuildValue(t.tag)
    ensures t.tag == Interface && IsEnumLike(t.iface) ==> r == BuildValue(t.iface.storageType)
    ensures t.tag == Interface && !IsEnumLike(t.iface) && t.iface.name in registered ==>
              r == Format("O&", Some(registered[t.iface.name].ToPyConverter()))
    ensures t.tag == Interface && !IsEnumLike(t.iface) && t.iface.name !in registered ==> r == Format("O&", None)
  {
    if t.tag == Interface && IsEnumLike(t.iface) then BuildValue(t.iface.storageType)
    else if t.tag == Interface && t.iface.name in registered then
      Format("O&", Some(registered[t.iface.name].ToPyConverter()))
    else BuildValue(t.tag)
  }

  /**
   * typeinfo_to_ctype: enums and flags by their storage tag, registered
   * structs by their builder's pointer type; a tag with no entry raises
   * KeyError.
   */
  function TypeInfoToCType(t: TypeInfo, registered: map<string, ClassBuilder>): (r: Result<string, PyError>)
    ensures t.tag != Interface ==> (r.Success? <==> CType(t.tag).Some?)
    ensures t.tag != Interface && r.Success? ==> r.value == CType(t.tag).value
    ensures t.tag == Interface && IsEnumLike(t.iface) ==> (r.Success? <==> CType(t.iface.storageType).Some?)
    ensures t.tag == Interface && IsEnumLike(t.iface) && r.Success? ==> r.value == CType(t.iface.storageType).value
    ensures t.tag == Interface && !IsEnumLike(t.iface) && t.iface.name in registered ==>
              r == Success(registered[t.iface.name].ctype)
    ensures t.tag == Interface && !IsEnumLike(t.iface) && t.iface.name !in registered ==> r == Success("void*")
    ensures r.Failure? ==> r.error == KeyError
  {
    var tag := if t.tag == Interface && IsEnumLike(t.iface) then t.iface.storageType else t.tag;
    if t.tag == Interface && !IsEnumLike(t.iface) && t.iface.name in registered then
      Success(registered[t.iface.name].ctype)
    else if CType(tag).Some? then Success(CType(tag).value)
    else Failure(KeyError)
  }

  // ---------------------------------------------------------------------
  // camel_down_under
  // ---------------------------------------------------------------------

  predicate IsUpper(c: char) { 'A' <= c <= 'Z' }

  predicate IsLower(c: char) { 'a' <= c <= 'z' }

  /** str.lower on one character (ASCII letters only). */
  function LowerChar(c: char): (r: char)
    ensures !IsUpper(r)
    ensures !IsUpper(c) ==> r == c
    ensures (r == '_') <==> (c == '_')
  {
    if IsUpper(c) then (c as int - 'A' as int + 'a' as int) as char else c
  }

  /** str.upper on one character (ASCII letters only). */
  function UpperChar(c: char): (r: char)
    ensures !IsLower(r)
    ensures !IsLower(c) ==> r == c
  {
    if IsLower(c) then (c as int - 'a' as int + 'A' as int) as char else c
  }

  function Lower(s: string): (r: string)
    ensures |r| == |s| && forall i :: 0 <= i < |s| ==> r[i] == LowerChar(s[i])
  {
    if s == [] then [] else [LowerChar(s[0])] + Lower(s[1..])
  }

  function Upper(s: string): (r: string)
    ensures |r| == |s| && forall i :: 0 <= i < |s| ==> r[i] == UpperChar(s[i])
  {
    if s == [] then [] else [UpperChar(s[0])] + Upper(s[1..])
  }

  /**
   * Where the pattern of camel_down_under matches: an upper-case letter
   * after a lower-case one, or an upper-case letter followed by a character
   * that is neither upper case nor the end of the string. The end, for
   * Python's `$`, is also the position of a newline that ends the string.
   */
  predicate BreaksBefore(s: string, i: nat)
    requires i < |s|
  {
    IsUpper(s[i])
    && ((i > 0 && IsLower(s[i - 1]))
        || (i + 1 < |s| && !IsUpper(s[i + 1]) && !(i + 2 == |s| && s[i + 1] == '\n')))
  }

  /** How many of the first `n` positions the pattern matches at. */
  function Breaks(s: string, n: nat): nat
    requires n <= |s|
  {
    if n == 0 then 0 else Breaks(s, n - 1) + (if BreaksBefore(s, n - 1) then 1 else 0)
  }

  /** The substitution `_\1` applied at every match from position `i` on. */
  function MarkFrom(s: string, i: nat): string
    requires i <= |s|
    decreases |s| - i
  {
    if i == |s| then ""
    else (if BreaksBefore(s, i) then "_" else "") + [s[i]] + MarkFrom(s, i + 1)
  }

  /** The marked text is the original plus one `_` per match. */
  lemma {:induction false} MarkLength(s: string, i: nat)
    requires i <= |s|
    ensures |MarkFrom(s, i)| == |s| - i + Breaks(s, |s|) - Breaks(s, i)
    decreases |s| - i
  {
    if i < |s| {
      MarkLength(s, i + 1);
    }
  }

  /**
   * Where each character lands in the text marked from `i` on: `s[j]` is
   * shifted right by the matches from `i` up to and including `j`, and a
   * match at `j` puts `_` in the position just before it.
   */
  lemma {:induction false} MarkAt(s: string, i: nat, j: nat)
    requires i <= j < |s|
    ensures 0 <= j - i + Breaks(s, j + 1) - Breaks(s, i) < |MarkFrom(s, i)|
    ensures MarkFrom(s, i)[j - i + Breaks(s, j + 1) - Breaks(s, i)] == s[j]
    ensures BreaksBefore(s, j) ==>
              0 <= j - i + Breaks(s, j) - Breaks(s, i) && MarkFrom(s, i)[j - i + Breaks(s, j) - Breaks(s, i)] == '_'
    decreases j - i
  {
    var head := (if BreaksBefore(s, i) then "_" else "") + [s[i]];
    assert MarkFrom(s, i) == head + MarkFrom(s, i + 1);
    if j > i {
      MarkAt(s, i + 1, j);
    }
  }

  /**
   * The substitution in camel_down_under, position by position: with `B(n)`
   * the number of matches among the first `n` characters, `s[j]` lands at
   * `j + B(j + 1)`, an underscore sits at `j + B(j)` exactly when the
   * pattern matches at `j`, and nothing else is inserted.
   */
  lemma UnderscoreBeforeEachMatch(s: string, j: nat)
    requires j < |s|
    ensures |MarkFrom(s, 0)| == |s| + Breaks(s, |s|)
    ensures j + Breaks(s, j + 1) < |MarkFrom(s, 0)| && MarkFrom(s, 0)[j + Breaks(s, j + 1)] == s[j]
    ensures Breaks(s, j + 1) == Breaks(s, j) + (if BreaksBefore(s, j) then 1 else 0)
    ensures BreaksBefore(s, j) ==> MarkFrom(s, 0)[j + Breaks(s, j)] == '_'
  {
    MarkLength(s, 0);
    MarkAt(s, 0, j);
  }

  function StripLeading(s: string): (r: string)
    ensures r == [] || r[0] != '_'
  {
    if s != [] && s[0] == '_' then StripLeading(s[1..]) else s
  }

  function StripTrailing(s: string): (r: string)
    ensures r == [] || r[|r| - 1] != '_'
  {
    if s != [] && s[|s| - 1] == '_' then StripTrailing(s[..|s| - 1]) else s
  }

  /** `.strip('_')` */
  function Strip(s: string): (r: string)
    ensures r == [] || (r[0] != '_' && r[|r| - 1] != '_')
  {
    var t := StripTrailing(s);
    StripLeadingKeepsLast(t);
    StripLeading(t)
  }

  lemma {:induction false} StripLeadingKeepsLast(s: string)
    ensures StripLeading(s) != [] ==> StripLeading(s)[|StripLeading(s)| - 1] == s[|s| - 1]
  {
    if s != [] && s[0] == '_' {
      StripLeadingKeepsLast(s[1..]);
    }
  }

  /**
   * camel_down_under: an underscore before every match, lower case, and no
   * underscore at either end. The result has no upper-case letter.
   */
  function CamelDownUnder(s: string): (r: string)
    ensures forall i :: 0 <= i < |r| ==> !IsUpper(r[i])
    ensures r == [] || (r[0] != '_' && r[|r| - 1] != '_')
  {
    var r := Strip(Lower(MarkFrom(s, 0)));
    assert forall i :: 0 <= i < |r| ==> !IsUpper(r[i]) by {
      StripKeepsNoUpper(Lower(MarkFrom(s, 0)));
    }
    r
  }

  predicate NoUpper(s: string) { forall i :: 0 <= i < |s| ==> !IsUpper(s[i]) }

  lemma {:induction false} StripKeepsNoUpper(s: string)
    requires NoUpper(s)
    ensures NoUpper(StripTrailing(s)) && NoUpper(Strip(s))
  {
    StripTrailingKeepsNoUpper(s);
    StripLeadingKeepsNoUpper(StripTrailing(s));
  }

  lemma {:induction false} StripTrailingKeepsNoUpper(s: string)
    requires NoUpper(s)
    ensures NoUpper(StripTrailing(s))
  {
    if s != [] && s[|s| - 1] == '_' {
      StripTrailingKeepsNoUpper(s[..|s| - 1]);
    }
  }

  lemma {:induction false} StripLeadingKeepsNoUpper(s: string)
    requires NoUpper(s)
    ensures NoUpper(StripLeading(s))
  {
    if s != [] && s[0] == '_' {
      StripLeadingKeepsNoUpper(s[1..]);
    }
  }

  /** Without upper-case letters there is nothing to match. */
  lemma {:induction false} MarkWithoutUpper(s: string, i: nat)
    requires i <= |s| && NoUpper(s)
    ensures MarkFrom(s, i) == s[i..]
    decreases |s| - i
  {
    if i < |s| {
      MarkWithoutUpper(s, i + 1);
      assert s[i..] == [s[i]] + s[i + 1..];
    }
  }

  lemma {:induction false} LowerWithoutUpper(s: string)
    requires NoUpper(s)
    ensures Lower(s) == s
  {
  }

  lemma {:induction false} StripWithoutEnds(s: string)
    requires s == [] || (s[0] != '_' && s[|s| - 1] != '_')
    ensures Strip(s) == s
  {
  }

  /** Mangling a mangled name changes nothing. */
  lemma CamelDownUnderIsIdempotent(s: string)
    ensures CamelDownUnder(CamelDownUnder(s)) == CamelDownUnder(s)
  {
    var r := CamelDownUnder(s);
    MarkWithoutUpper(r, 0);
    assert r[0..] == r;
    LowerWithoutUpper(r);
    StripWithoutEnds(r);
  }

  /** The characters other than `_`, in order. */
  function Letters(s: string): (r: string)
    ensures forall i :: 0 <= i < |r| ==> r[i] != '_'
  {
    if s == [] then [] else (if s[0] == '_' then [] else [s[0]]) + Letters(s[1..])
  }

  lemma {:induction false} LettersOfConcat(a: string, b: string)
    ensures Letters(a + b) == Letters(a) + Letters(b)
  {
    if a == [] {
      assert a + b == b;
    } else {
      assert (a + b)[0] == a[0];
      assert (a + b)[1..] == a[1..] + b;
      LettersOfConcat(a[1..], b);
    }
  }

  lemma {:induction false} LettersOfMark(s: string, i: nat)
    requires i <= |s|
    ensures Letters(MarkFrom(s, i)) == Letters(s[i..])
    decreases |s| - i
  {
    if i < |s| {
      LettersOfMark(s, i + 1);
      var head := (if BreaksBefore(s, i) then "_" else "") + [s[i]];
      LettersOfConcat(head, MarkFrom(s, i + 1));
      assert s[i..] == [s[i]] + s[i + 1..];
      LettersOfConcat([s[i]], s[i + 1..]);
      if BreaksBefore(s, i) {
        LettersOfConcat("_", [s[i]]);
      }
    }
  }

  lemma {:induction false} LettersOfLower(s: string)
    ensures Letters(Lower(s)) == Lower(Letters(s))
  {
    if s != [] {
      LettersOfLower(s[1..]);
      assert Lower(s)[1..] == Lower(s[1..]);
    }
  }

  lemma {:induction false} LettersOfStripLeading(s: string)
    ensures Letters(StripLeading(s)) == Letters(s)
  {
    if s != [] && s[0] == '_' {
      LettersOfStripLeading(s[1..]);
    }
  }

  lemma {:induction false} LettersOfStripTrailing(s: string)
    ensures Letters(StripTrailing(s)) == Letters(s)
  {
    if s != [] && s[|s| - 1] == '_' {
      var p := s[..|s| - 1];
      LettersOfStripTrailing(p);
      assert s == p + "_";
      LettersOfConcat(p, "_");
    }
  }

  /**
   * Mangling only inserts and removes underscores and lowers letters: the
   * other characters come out in order, lower-cased.
   */
  lemma CamelDownUnderKeepsLetters(s: string)
    ensures Letters(CamelDownUnder(s)) == Lower(Letters(s))
  {
    var m := MarkFrom(s, 0);
    LettersOfMark(s, 0);
    assert s[0..] == s;
    LettersOfLower(m);
    LettersOfStripTrailing(Lower(m));
    LettersOfStripLeading(StripTrailing(Lower(m)));
  }

  /**
   * A worked example on the struct name of GObject.Object's wrapper: both
   * alternatives of the pattern match (`G` after a lower-case letter, `P`
   * and `O` before one), and the `G` of the acronym run stays a word.
   */
  lemma CamelDownUnderExample()
    ensures CamelDownUnder("PyGObject") == "py_g_object"
  {
    MarkPyGObject();
    LowerPyGObject();
    StripPyGObject();
  }

  lemma MarkPyGObject()
    ensures MarkFrom("PyGObject", 0) == "_Py_G_Object"
  {
    var s := "PyGObject";
    assert MarkFrom(s, 9) == "";
    assert MarkFrom(s, 8) == "t";
    assert MarkFrom(s, 7) == "ct";
    assert MarkFrom(s, 6) == "ect";
    assert MarkFrom(s, 5) == "ject";
    assert MarkFrom(s, 4) == "bject";
    assert BreaksBefore(s, 3);
    assert MarkFrom(s, 3) == "_Object";
    assert BreaksBefore(s, 2);
    assert MarkFrom(s, 2) == "_G_Object";
    assert MarkFrom(s, 1) == "y_G_Object";
    assert BreaksBefore(s, 0);
  }

  lemma LowerPyGObject()
    ensures Lower("_Py_G_Object") == "_py_g_object"
  {
    var a, b, c := "_Py_", "G_", "Object";
    calc {
      Lower("_Py_G_Object");
      { SplitPyGObject(); }
      Lower(a + (b + c));
      { LowerSplit(a, b + c); LowerSplit(b, c); }
      Lower(a) + (Lower(b) + Lower(c));
      { LowerPy(); LowerG(); LowerObject(); }
      "_py_" + ("g_" + "object");
      { SplitPyGObject(); }
      "_py_g_object";
    }
  }

  lemma SplitPyGObject()
    ensures "_Py_G_Object" == "_Py_" + ("G_" + "Object")
    ensures "_py_g_object" == "_py_" + ("g_" + "object")
  {
  }

  /** Lower works character by character, so it distributes over `+`. */
  lemma LowerSplit(a: string, b: string)
    ensures Lower(a + b) == Lower(a) + Lower(b)
  {
    var l, r := Lower(a + b), Lower(a) + Lower(b);
    assert forall k :: 0 <= k < |a| ==> l[k] == r[k];
    assert forall k :: |a| <= k < |a + b| ==> (a + b)[k] == b[k - |a|] && l[k] == r[k];
  }

  lemma LowerPy()
    ensures Lower("_Py_") == "_py_"
  {
    var l := Lower("_Py_");
    assert l[1] == LowerChar('P') == 'p';
    assert l == "_py_";
  }

  lemma LowerG()
    ensures Lower("G_") == "g_"
  {
    var l := Lower("G_");
    assert l[0] == LowerChar('G') == 'g';
    assert l == "g_";
  }

  lemma LowerObject()
    ensures Lower("Object") == "object"
  {
    var l := Lower("Object");
    assert l[0] == LowerChar('O') == 'o';
    assert l == "object";
  }

  lemma StripPyGObject()
    ensures Strip("_py_g_object") == "py_g_object"
  {
    var t := "_py_g_object";
    assert StripTrailing(t) == t;
    assert StripLeading(t[1..]) == t[1..];
  }

  // ---------------------------------------------------------------------
  // Function and method builders
  // ---------------------------------------------------------------------

  /** keyword.kwlist, in five parts of seven. */
  const Keywords0: seq<string> := ["False", "None", "True", "and", "as", "assert", "async"]
  const Keywords1: seq<string> := ["await", "break", "class", "continue", "def", "del", "elif"]
  const Keywords2: seq<string> := ["else", "except", "finally", "for", "from", "global", "if"]
  const Keywords3: seq<string> := ["import", "in", "is", "lambda", "nonlocal", "not", "or"]
  const Keywords4: seq<string> := ["pass", "raise", "return", "try", "while", "with", "yield"]
  const Keywords: seq<string> := Keywords0 + Keywords1 + Keywords2 + Keywords3 + Keywords4

  /** `name in list`, unfolded one entry at a time. */
  predicate Listed(name: string, list: seq<string>)
  {
    list != [] && (list[0] == name || Listed(name, list[1..]))
  }

  predicate IsKeyword(name: string) { Listed(name, Keywords) }

  lemma {:induction false} ListedIsMember(name: string, list: seq<string>)
    ensures Listed(name, list) <==> name in list
  {
    if list != [] {
      ListedIsMember(name, list[1..]);
      assert list == [list[0]] + list[1..];
    }
  }

  predicate EndsWithUnderscore(name: string) { name != [] && name[|name| - 1] == '_' }

  lemma NotInPart(name: string, part: seq<string>)
    requires EndsWithUnderscore(name)
    requires part == Keywords0 || part == Keywords1 || part == Keywords2 || part == Keywords3 || part == Keywords4
    ensures name !in part
  {
    assert forall i :: 0 <= i < |part| ==> !EndsWithUnderscore(part[i]);
  }

  /** No keyword ends with an underscore, so an escaped name is not one. */
  lemma NoKeywordEndsWithUnderscore(name: string)
    requires EndsWithUnderscore(name)
    ensures !IsKeyword(name)
  {
    NotInPart(name, Keywords0);
    NotInPart(name, Keywords1);
    NotInPart(name, Keywords2);
    NotInPart(name, Keywords3);
    NotInPart(name, Keywords4);
    ListedIsMember(name, Keywords);
  }

  /** A Python keyword gets a trailing `_`; the result is never a keyword. */
  function PyName(name: string): (r: string)
    ensures !IsKeyword(name) ==> r == name
    ensures IsKeyword(name) ==> r == name + "_"
    ensures !IsKeyword(r)
  {
    if IsKeyword(name) then
      var r := name + "_";
      NoKeywordEndsWithUnderscore(r);
      r
    else name
  }

  datatype FunctionBuilder = FunctionBuilder(
    info: Info,
    symbolName: string,
    wrapperName: string,
    selfObjectStruct: string,
    name: string,
    arguments: seq<ArgInfo>,
    pyFlags: string)

  const MethNoArgs: string := "METH_NOARGS"
  const MethVarArgs: string := "METH_VARARGS | METH_KEYWORDS"
  const MethStatic: string := " | METH_STATIC"

  /**
   * FunctionBuilder.__init__: the wrapper is `py<symbol>`, the Python name
   * escapes keywords, and the flags are METH_NOARGS exactly when there are
   * no arguments.
   */
  function NewFunctionBuilder(info: Info): (b: FunctionBuilder)
    ensures b.wrapperName == "py" + info.symbol && b.symbolName == info.symbol
    ensures b.name == PyName(info.name) && !IsKeyword(b.name)
    ensures b.selfObjectStruct == "PyObject" && b.arguments == info.args
    ensures b.pyFlags == MethNoArgs <==> info.args == []
    ensures b.pyFlags == MethNoArgs || b.pyFlags == MethVarArgs
  {
    FunctionBuilder(info, info.symbol, "py" + info.symbol, "PyObject", PyName(info.name), info.args,
                    if info.args != [] then MethVarArgs else MethNoArgs)
  }

  /** MethodBuilder.__init__: the object struct of its class, and METH_STATIC for constructors and non-methods. */
  function NewMethodBuilder(info: Info, objectStructName: string): (b: FunctionBuilder)
    ensures b.selfObjectStruct == objectStructName
    ensures b.name == NewFunctionBuilder(info).name
    ensures info.isConstructor || !info.isMethod ==> b.pyFlags == NewFunctionBuilder(info).pyFlags + MethStatic
    ensures !(info.isConstructor || !info.isMethod) ==> b.pyFlags == NewFunctionBuilder(info).pyFlags
    ensures b.(selfObjectStruct := NewFunctionBuilder(info).selfObjectStruct, pyFlags := NewFunctionBuilder(info).pyFlags)
            == NewFunctionBuilder(info)
  {
    var f := NewFunctionBuilder(info);
    f.(selfObjectStruct := objectStructName,
       pyFlags := if info.isConstructor || !info.isMethod then f.pyFlags + MethStatic else f.pyFlags)
  }

  // ---------------------------------------------------------------------
  // print_wrapper_body
  // ---------------------------------------------------------------------

  /**
   * What print_wrapper_body emits: either the NotImplementedError body for
   * the first type it cannot declare, or the declarations, the parser
   * format and arguments, the callee arguments and the return conversion.
   * The template expansion that turns these into C text is not modelled.
   */
  datatype WrapperBody =
    | NotImplementedBody(tag: TypeTag)
    | WrapperBody(
        decls: seq<string>,
        parserFormat: string,
        parserArgs: seq<string>,
        calleeArgs: seq<string>,
        returnFormat: string,
        returnArgs: seq<string>)

  /** Why the argument loop stops: an undeclarable tag, or an exception from a lookup. */
  datatype Stop = Unmarshallable(tag: TypeTag) | Raised(error: PyError)

  /** The declarations, parser format and parser arguments the argument loop accumulates. */
  datatype ArgsPart = ArgsPart(decls: seq<string>, parserFormat: string, parserArgs: seq<string>)

  /** One argument's parser arguments: its converter, if any, then `&name`. */
  function ParserArgsOf(a: ArgInfo, registered: map<string, ClassBuilder>): (r: seq<string>)
    ensures |r| == 1 || |r| == 2
    ensures r[|r| - 1] == "&" + a.name
    ensures |r| == 2 <==> TypeInfoToPyParse(a.argType, registered).converter.Some?
  {
    var f := TypeInfoToPyParse(a.argType, registered);
    (if f.converter.Some? then [f.converter.value] else []) + ["&" + a.name]
  }

  /** One argument's declaration `<ctype> <name>;`, or why the loop stops at it. */
  function ArgDecl(a: ArgInfo, registered: map<string, ClassBuilder>): (r: Result<string, Stop>)
    ensures r.Success? <==> CType(a.argType.tag).Some? && TypeInfoToCType(a.argType, registered).Success?
    ensures r.Success? ==> r.value == TypeInfoToCType(a.argType, registered).value + " " + a.name + ";"
    ensures r.Failure? && r.error.Unmarshallable? ==> r.error.tag == a.argType.tag && CType(a.argType.tag).None?
    ensures r.Failure? && r.error.Raised? ==> r.error.error == KeyError
  {
    if CType(a.argType.tag).None? then Failure(Unmarshallable(a.argType.tag))
    else
      match TypeInfoToCType(a.argType, registered)
      case Failure(e) => Failure(Raised(e))
      case Success(ctype) => Success(ctype + " " + a.name + ";")
  }

  /** One iteration of the argument loop. */
  function ArgStep(part: ArgsPart, a: ArgInfo, registered: map<string, ClassBuilder>): (r: Result<ArgsPart, Stop>)
    ensures r.Success? <==> ArgDecl(a, registered).Success?
    ensures r.Success? ==> r.value.decls == part.decls + [ArgDecl(a, registered).value]
  {
    match ArgDecl(a, registered)
    case Failure(stop) => Failure(stop)
    case Success(decl) =>
      Success(ArgsPart(part.decls + [decl],
                       part.parserFormat + TypeInfoToPyParse(a.argType, registered).fmt,
                       part.parserArgs + ParserArgsOf(a, registered)))
  }

  /** The argument loop over a prefix of the arguments. */
  function ArgsLoop(args: seq<ArgInfo>, registered: map<string, ClassBuilder>): (r: Result<ArgsPart, Stop>)
    ensures r.Success? ==> |r.value.decls| == |args|
    ensures r.Failure? && r.error.Raised? ==> r.error.error == KeyError
  {
    if args == [] then Success(ArgsPart([], "", []))
    else
      match ArgsLoop(args[..|args| - 1], registered)
      case Failure(stop) => Failure(stop)
      case Success(part) => ArgStep(part, args[|args| - 1], registered)
  }

  /**
   * The loop succeeds exactly when every argument can be declared; when it
   * stops at a tag without a C type, some argument has that tag.
   */
  lemma {:induction false} ArgsLoopOutcome(args: seq<ArgInfo>, registered: map<string, ClassBuilder>)
    ensures ArgsLoop(args, registered).Success? <==> forall k :: 0 <= k < |args| ==> ArgDecl(args[k], registered).Success?
  {
    if args != [] {
      var p := args[..|args| - 1];
      ArgsLoopOutcome(p, registered);
      if ArgsLoop(p, registered).Failure? {
        FailedPrefixOutcome(args, p, registered);
      } else {
        SucceededPrefixOutcome(args, p, registered);
      }
    }
  }

  lemma FailedPrefixOutcome(args: seq<ArgInfo>, p: seq<ArgInfo>, registered: map<string, ClassBuilder>)
    requires args != [] && p == args[..|args| - 1]
    requires ArgsLoop(p, registered).Failure?
    requires exists k :: 0 <= k < |p| && ArgDecl(p[k], registered).Failure?
    ensures ArgsLoop(args, registered).Failure?
    ensures exists k :: 0 <= k < |args| && ArgDecl(args[k], registered).Failure?
  {
    var k :| 0 <= k < |p| && ArgDecl(p[k], registered).Failure?;
    assert args[k] == p[k];
  }

  lemma SucceededPrefixOutcome(args: seq<ArgInfo>, p: seq<ArgInfo>, registered: map<string, ClassBuilder>)
    requires args != [] && p == args[..|args| - 1]
    requires ArgsLoop(p, registered).Success?
    requires forall k :: 0 <= k < |p| ==> ArgDecl(p[k], registered).Success?
    ensures ArgsLoop(args, registered).Success? <==> forall k :: 0 <= k < |args| ==> ArgDecl(args[k], registered).Success?
  {
    var a := args[|args| - 1];
    var step := ArgStep(ArgsLoop(p, registered).value, a, registered);
    assert ArgsLoop(args, registered) == step;
    if ArgDecl(a, registered).Success? {
      assert step.Success?;
      AllDeclared(args, p, registered);
    } else {
      assert step.Failure?;
    }
  }

  lemma AllDeclared(args: seq<ArgInfo>, p: seq<ArgInfo>, registered: map<string, ClassBuilder>)
    requires args != [] && p == args[..|args| - 1]
    requires forall k :: 0 <= k < |p| ==> ArgDecl(p[k], registered).Success?
    requires ArgDecl(args[|args| - 1], registered).Success?
    ensures forall k :: 0 <= k < |args| ==> ArgDecl(args[k], registered).Success?
  {
    forall k | 0 <= k < |args| ensures ArgDecl(args[k], registered).Success? {
      if k < |p| {
        assert args[k] == p[k];
      }
    }
  }



  /** A loop stopped by an unmarshallable type names the type of one of the arguments. */
  lemma {:induction false} ArgsLoopStopsAtArgument(args: seq<ArgInfo>, registered: map<string, ClassBuilder>)
    ensures ArgsLoop(args, registered).Failure? && ArgsLoop(args, registered).error.Unmarshallable? ==>
              exists k :: 0 <= k < |args| && args[k].argType.tag == ArgsLoop(args, registered).error.tag
  {
    if args != [] {
      var p := args[..|args| - 1];
      var a := args[|args| - 1];
      var r := ArgsLoop(args, registered);
      var rp := ArgsLoop(p, registered);
      if rp.Failure? {
        assert r == rp;
        ArgsLoopStopsAtArgument(p, registered);
        if r.error.Unmarshallable? {
          var k :| 0 <= k < |p| && p[k].argType.tag == r.error.tag;
          assert args[k] == p[k];
        }
      } else {
        assert r == ArgStep(rp.value, a, registered);
        if r.Failure? && r.error.Unmarshallable? {
          assert args[|args| - 1].argType.tag == r.error.tag;
        }
      }
    }
  }


  /** The parser format of some arguments: each argument's format, in order. */
  function ParserFormatOf(args: seq<ArgInfo>, registered: map<string, ClassBuilder>): string
  {
    if args == [] then ""
    else ParserFormatOf(args[..|args| - 1], registered) + TypeInfoToPyParse(args[|args| - 1].argType, registered).fmt
  }

  /** The parser arguments of some arguments: each argument's converter and address, in order. */
  function ParserArgList(args: seq<ArgInfo>, registered: map<string, ClassBuilder>): seq<string>
  {
    if args == [] then []
    else ParserArgList(args[..|args| - 1], registered) + ParserArgsOf(args[|args| - 1], registered)
  }

  /**
   * When the loop gets through, its parser format and parser arguments are
   * those of every argument, in the arguments' order.
   */
  lemma {:induction false} ArgsLoopParser(args: seq<ArgInfo>, registered: map<string, ClassBuilder>)
    requires ArgsLoop(args, registered).Success?
    ensures ArgsLoop(args, registered).value.parserFormat == ParserFormatOf(args, registered)
    ensures ArgsLoop(args, registered).value.parserArgs == ParserArgList(args, registered)
  {
    if args != [] {
      var p := args[..|args| - 1];
      ArgsLoopParser(p, registered);
      assert ArgsLoop(args, registered) == ArgStep(ArgsLoop(p, registered).value, args[|args| - 1], registered);
    }
  }

  /** Each argument is declared as `<ctype> <name>;`, in order. */
  lemma {:induction false} ArgDeclsInOrder(args: seq<ArgInfo>, registered: map<string, ClassBuilder>)
    requires ArgsLoop(args, registered).Success?
    ensures forall k :: 0 <= k < |args| ==>
              ArgDecl(args[k], registered).Success?
              && ArgsLoop(args, registered).value.decls[k] == ArgDecl(args[k], registered).value
  {
    if args != [] {
      var p := args[..|args| - 1];
      var a := args[|args| - 1];
      var part := ArgsLoop(p, registered).value;
      ArgDeclsInOrder(p, registered);
      assert ArgsLoop(args, registered) == ArgStep(part, a, registered);
      DeclsExtend(args, p, part.decls, ArgsLoop(args, registered).value.decls, registered);
    }
  }

  lemma DeclsExtend(args: seq<ArgInfo>, p: seq<ArgInfo>, before: seq<string>, after: seq<string>,
                    registered: map<string, ClassBuilder>)
    requires args != [] && p == args[..|args| - 1]
    requires |before| == |p|
    requires forall k :: 0 <= k < |p| ==> ArgDecl(p[k], registered).Success? && before[k] == ArgDecl(p[k], registered).value
    requires ArgDecl(args[|args| - 1], registered).Success?
    requires after == before + [ArgDecl(args[|args| - 1], registered).value]
    ensures forall k :: 0 <= k < |args| ==> ArgDecl(args[k], registered).Success? && after[k] == ArgDecl(args[k], registered).value
  {
    forall k | 0 <= k < |args|
      ensures ArgDecl(args[k], registered).Success? && after[k] == ArgDecl(args[k], registered).value
    {
      if k < |p| {
        assert args[k] == p[k] && after[k] == before[k];
      }
    }
  }


  /** The argument names in order. */
  function Names(args: seq<ArgInfo>): (r: seq<string>)
    ensures |r| == |args| && forall k :: 0 <= k < |args| ==> r[k] == args[k].name
  {
    if args == [] then [] else Names(args[..|args| - 1]) + [args[|args| - 1].name]
  }

  /** `static char *kwlist[] = { "a", "b", NULL };` */
  function KwlistDecl(args: seq<ArgInfo>): string
  {
    "static char *kwlist[] = { " + Join(Quoted(Names(args)), ", ") + ", NULL };"
  }

  function Quoted(names: seq<string>): (r: seq<string>)
    ensures |r| == |names| && forall k :: 0 <= k < |names| ==> r[k] == "\"" + names[k] + "\""
  {
    if names == [] then [] else Quoted(names[..|names| - 1]) + ["\"" + names[|names| - 1] + "\""]
  }

  /** The callee's arguments: `self->obj` for a method, the argument names, `&error` when it throws. */
  function CalleeArgs(info: Info): (r: seq<string>)
    ensures |r| == |info.args| + (if info.isMethod then 1 else 0) + (if info.throws then 1 else 0)
    ensures info.isMethod ==> r[0] == "self->obj"
    ensures forall k :: 0 <= k < |info.args| ==>
              r[k + (if info.isMethod then 1 else 0)] == info.args[k].name
    ensures info.throws ==> r[|r| - 1] == "&error"
  {
    (if info.isMethod then ["self->obj"] else []) + Names(info.args) + (if info.throws then ["&error"] else [])
  }

  /** The return conversion: its format, and `converter, &res` or `res`. */
  function ReturnConversion(t: TypeInfo, registered: map<string, ClassBuilder>): (r: (string, seq<string>))
    ensures r.0 == TypeInfoToBuildValue(t, registered).fmt
    ensures TypeInfoToBuildValue(t, registered).converter.Some? ==>
              r.1 == [TypeInfoToBuildValue(t, registered).converter.value, "&res"]
    ensures TypeInfoToBuildValue(t, registered).converter.None? ==> r.1 == ["res"]
  {
    var f := TypeInfoToBuildValue(t, registered);
    (f.fmt, if f.converter.Some? then [f.converter.value, "&res"] else ["res"])
  }

  /**
   * print_wrapper_body, as a value: a non-VOID return type without a C
   * type, or then the first argument without one, gives the
   * NotImplementedError body; otherwise the pieces of the wrapper.
   */
  function WrapperBodyOf(info: Info, registered: map<string, ClassBuilder>): (r: Result<WrapperBody, PyError>)
    ensures info.returnType.tag != Void && CType(info.returnType.tag).None? ==>
              r == Success(NotImplementedBody(info.returnType.tag))
    ensures r.Success? && r.value.WrapperBody? ==> info.returnType.tag == Void || CType(info.returnType.tag).Some?
    ensures r.Success? && r.value.WrapperBody? ==>
              forall k :: 0 <= k < |info.args| ==> CType(info.args[k].argType.tag).Some?
    ensures r.Success? && r.value.WrapperBody? ==> r.value.calleeArgs == CalleeArgs(info)
    ensures r.Success? && r.value.WrapperBody? && info.args != [] ==>
              |r.value.decls| > 0 && r.value.decls[0] == KwlistDecl(info.args)
    ensures r.Success? && r.value.WrapperBody? ==> (info.returnType.tag == Void <==> r.value.returnFormat == "")
    ensures r.Success? && r.value.NotImplementedBody? && r.value.tag != info.returnType.tag ==>
              exists k :: 0 <= k < |info.args| && info.args[k].argType.tag == r.value.tag
    ensures r.Failure? ==> r.error == KeyError
  {
    var rt := info.returnType;
    if rt.tag != Void && CType(rt.tag).None? then Success(NotImplementedBody(rt.tag))
    else
      match ReturnDecls(rt, registered)
      case Failure(e) => Failure(e)
      case Success(resDecls) =>
        ArgsBody(info, registered, resDecls + (if info.throws then ["GError *error = NULL;"] else []))
  }

  /** The declarations of the result: none for VOID, else `<ctype> res;` and the Python result. */
  function ReturnDecls(rt: TypeInfo, registered: map<string, ClassBuilder>): (r: Result<seq<string>, PyError>)
    ensures rt.tag == Void ==> r == Success([])
    ensures rt.tag != Void ==> (r.Success? <==> TypeInfoToCType(rt, registered).Success?)
    ensures rt.tag != Void && r.Success? ==>
              r.value == [TypeInfoToCType(rt, registered).value + " res;", "PyObject *py_res = NULL;"]
    ensures r.Failure? ==> r.error == KeyError
  {
    if rt.tag == Void then Success([])
    else match TypeInfoToCType(rt, registered)
         case Failure(e) => Failure(e)
         case Success(ctype) => Success([ctype + " res;", "PyObject *py_res = NULL;"])
  }

  /**
   * The part of print_wrapper_body after the return declarations: the
   * argument loop, the call and the return conversion.
   */
  function ArgsBody(info: Info, registered: map<string, ClassBuilder>, decls: seq<string>): (r: Result<WrapperBody, PyError>)
    ensures r.Success? && r.value.WrapperBody? ==>
              forall k :: 0 <= k < |info.args| ==> ArgDecl(info.args[k], registered).Success?
    ensures r.Success? && r.value.WrapperBody? ==>
              ArgsLoop(info.args, registered).Success? && r.value == FullBody(info, registered, decls, ArgsLoop(info.args, registered).value)
    ensures r.Success? && r.value.NotImplementedBody? ==>
              exists k :: 0 <= k < |info.args| && info.args[k].argType.tag == r.value.tag
    ensures r.Failure? ==> r.error == KeyError
  {
    ArgsLoopOutcome(info.args, registered);
    ArgsLoopStopsAtArgument(info.args, registered);
    match ArgsLoop(info.args, registered)
    case Failure(stop) => if stop.Unmarshallable? then Success(NotImplementedBody(stop.tag)) else Failure(stop.error)
    case Success(part) => Success(FullBody(info, registered, decls, part))
  }

  /** The wrapper once every argument is declared. */
  function FullBody(info: Info, registered: map<string, ClassBuilder>, decls: seq<string>, part: ArgsPart): (r: WrapperBody)
    ensures r.WrapperBody? && r.calleeArgs == CalleeArgs(info)
    ensures r.parserFormat == part.parserFormat && r.parserArgs == part.parserArgs
    ensures info.args != [] ==> |r.decls| > 0 && r.decls[0] == KwlistDecl(info.args)
    ensures info.returnType.tag == Void <==> r.returnFormat == ""
  {
    var allDecls := if info.args != [] then [KwlistDecl(info.args)] + decls + part.decls else decls;
    var ret := if info.returnType.tag == Void then ("", []) else ReturnConversion(info.returnType, registered);
    WrapperBody(allDecls, part.parserFormat, part.parserArgs, CalleeArgs(info), ret.0, ret.1)
  }


  /** The argument loop, stopping at the first argument it cannot declare. */
  method ArgumentLoop(args: seq<ArgInfo>, registered: map<string, ClassBuilder>) returns (r: Result<ArgsPart, Stop>)
    ensures r == ArgsLoop(args, registered)
  {
    var part := ArgsPart([], "", []);
    var i := 0;
    while i < |args|
      invariant 0 <= i <= |args|
      invariant ArgsLoop(args[..i], registered) == Success(part)
    {
      assert args[..i + 1][..i] == args[..i];
      assert ArgsLoop(args[..i + 1], registered) == ArgStep(part, args[i], registered);
      var step := DeclareArgument(part, args[i], registered);
      if step.Failure? {
        ArgsLoopStopsAtFirst(args, i + 1, registered);
        return step;
      }
      part := step.value;
      i := i + 1;
    }
    assert args[..i] == args;
    r := Success(part);
  }

  /** One pass of the argument loop: the declaration, the parser format unit and the parser arguments. */
  method DeclareArgument(part: ArgsPart, a: ArgInfo, registered: map<string, ClassBuilder>) returns (r: Result<ArgsPart, Stop>)
    ensures r == ArgStep(part, a, registered)
  {
    var tp := a.argType;
    if CType(tp.tag).None? {
      return Failure(Unmarshallable(tp.tag));
    }
    var ctype := TypeInfoToCType(tp, registered);
    if ctype.Failure? {
      return Failure(Raised(ctype.error));
    }
    var decls := part.decls + [ctype.value + " " + a.name + ";"];
    var f := TypeInfoToPyParse(tp, registered);
    var parserArgs := part.parserArgs;
    if f.converter.Some? {
      parserArgs := parserArgs + [f.converter.value];
    }
    parserArgs := parserArgs + ["&" + a.name];
    assert parserArgs == part.parserArgs + ParserArgsOf(a, registered);
    r := Success(ArgsPart(decls, part.parserFormat + f.fmt, parserArgs));
  }


  /** Once the loop has stopped, later arguments change nothing. */
  lemma {:induction false} ArgsLoopStopsAtFirst(args: seq<ArgInfo>, n: nat, registered: map<string, ClassBuilder>)
    requires n <= |args| && ArgsLoop(args[..n], registered).Failure?
    ensures ArgsLoop(args, registered) == ArgsLoop(args[..n], registered)
    decreases |args| - n
  {
    if n < |args| {
      assert args[..n + 1][..n] == args[..n];
      ArgsLoopStopsAtFirst(args, n + 1, registered);
    } else {
      assert args[..n] == args;
    }
  }

  /** print_wrapper_body: the return declarations, the error declaration, then the argument loop. */
  method PrintWrapperBody(info: Info, registered: map<string, ClassBuilder>) returns (r: Result<WrapperBody, PyError>)
    ensures r == WrapperBodyOf(info, registered)
  {
    var returnType := info.returnType;
    var decls: seq<string> := [];
    if returnType.tag != Void {
      if CType(returnType.tag).None? {
        return Success(NotImplementedBody(returnType.tag));
      }
      var ctype := TypeInfoToCType(returnType, registered);
      if ctype.Failure? {
        return Failure(ctype.error);
      }
      decls := [ctype.value + " res;", "PyObject *py_res = NULL;"];
    }
    assert ReturnDecls(returnType, registered) == Success(decls);
    if info.throws {
      decls := decls + ["GError *error = NULL;"];
    } else {
      assert decls + [] == decls;
    }
    r := PrintArgsAndCall(info, registered, decls);
  }

  /** The rest of print_wrapper_body: kwlist, the argument loop, the callee arguments and the return conversion. */
  method PrintArgsAndCall(info: Info, registered: map<string, ClassBuilder>, decls: seq<string>)
    returns (r: Result<WrapperBody, PyError>)
    ensures r == ArgsBody(info, registered, decls)
  {
    var allDecls := decls;
    var parserFormat := "";
    var parserArgs: seq<string> := [];
    var part := ArgumentLoop(info.args, registered);
    if info.args != [] {
      allDecls := [KwlistDecl(info.args)] + allDecls;
      if part.Failure? {
        if part.error.Unmarshallable? {
          return Success(NotImplementedBody(part.error.tag));
        }
        return Failure(part.error.error);
      }
      allDecls := allDecls + part.value.decls;
      parserFormat, parserArgs := part.value.parserFormat, part.value.parserArgs;
    }
    var calleeArgs := (if info.isMethod then ["self->obj"] else []) + Names(info.args);
    if info.throws {
      calleeArgs := calleeArgs + ["&error"];
    } else {
      assert calleeArgs + [] == calleeArgs;
    }
    var returnFormat := "";
    var returnArgs: seq<string> := [];
    if info.returnType.tag != Void {
      var f := TypeInfoToBuildValue(info.returnType, registered);
      returnFormat := returnFormat + f.fmt;
      assert returnFormat == f.fmt;
      if f.converter.Some? {
        returnArgs := [f.converter.value, "&res"];
      } else {
        returnArgs := ["res"];
      }
      assert (returnFormat, returnArgs) == ReturnConversion(info.returnType, registered);
    }
    assert part == ArgsLoop(info.args, registered);
    assert calleeArgs == CalleeArgs(info);
    r := Success(WrapperBody(allDecls, parserFormat, parserArgs, calleeArgs, returnFormat, returnArgs));
  }

  // ---------------------------------------------------------------------
  // Class, enum and module builders
  // ---------------------------------------------------------------------

  /** The names a ClassBuilder (or EnumBuilder) derives from its info. */
  /**
   * What ClassBuilder.__init__ stores that depends on the kind of builder;
   * the names it derives from the info's namespace and name are the
   * member functions.
   */
  datatype ClassBuilder = ClassBuilder(
    info: Info,
    wrappedType: Option<string>,
    ctype: string,
    tpBase: string,
    tpRepr: string,
    methodBuilders: seq<FunctionBuilder>,
    refFunc: Option<string>,
    unrefFunc: Option<string>)
  {
    function Name(): string { info.name }
    function FullName(): string { info.namespace + "." + info.name }
    function PyObjectStructName(): string { "Py" + info.namespace + info.name }
    function PyTypeObjectName(): string { PyObjectStructName() + "_Type" }
    function CustomSetupMacro(): string { MacroName(PyTypeObjectName(), "_CUSTOM_SETUP") }
    function TpMethods(): string { PyObjectStructName() + "_methods" }
    function TpName(): string { "\"" + FullName() + "\"" }
    function TpSize(): string { "sizeof(" + PyObjectStructName() + ")" }
    function MethodTableMacro(): string { MacroName(TpMethods(), "_CUSTOM_ENTRIES") }
    function GetWrappedFunc(): string { PyObjectStructName() + "_get" }
    function FromPyConverter(): string { Lower(info.name) + "_from_py" }
    function ToPyConverter(): string { Lower(info.name) + "_to_py" }
  }

  /** `[MethodBuilder(m, structName) for m in methods]` */
  function MethodBuilders(methods: seq<Info>, structName: string): (r: seq<FunctionBuilder>)
    ensures |r| == |methods|
    ensures forall k :: 0 <= k < |methods| ==> r[k] == NewMethodBuilder(methods[k], structName)
  {
    if methods == [] then []
    else [NewMethodBuilder(methods[0], structName)] + MethodBuilders(methods[1..], structName)
  }

  /** A macro name: the mangled name upper-cased, with a suffix. */
  function MacroName(base: string, suffix: string): (r: string)
    ensures |r| == |CamelDownUnder(base)| + |suffix| && r[|r| - |suffix|..] == suffix
    ensures forall i :: 0 <= i < |r| - |suffix| ==> !IsLower(r[i])
    ensures forall i :: 0 <= i < |r| - |suffix| ==> r[i] == UpperChar(CamelDownUnder(base)[i])
  {
    Upper(CamelDownUnder(base)) + suffix
  }

  /**
   * ClassBuilder.__init__ as written: the object struct is
   * `Py<namespace><name>`, the C type is the wrapped type name (or void)
   * plus `*`, every method gets a MethodBuilder bound to the struct, and
   * for an object info both the ref and the unref function are taken from
   * the info's ref function.
   */
  function NewClassBuilder(info: Info): (b: ClassBuilder)
    ensures b.info == info && b.tpBase == "&PyType_Type" && b.tpRepr == "NULL"
    ensures b.wrappedType.Some? && b.ctype == b.wrappedType.value + "*"
    ensures info.typeName.None? ==> b.ctype == "void*"
    ensures |b.methodBuilders| == |info.methods|
    ensures forall k :: 0 <= k < |info.methods| ==>
              b.methodBuilders[k] == NewMethodBuilder(info.methods[k], b.PyObjectStructName())
    ensures info.infoType == ObjectKind ==> b.refFunc == info.refFunction && b.unrefFunc == info.refFunction
    ensures info.infoType != ObjectKind ==> b.refFunc.None? && b.unrefFunc.None?
  {
    var wrapped := if info.typeName.Some? then info.typeName.value else "void";
    var isObject := info.infoType == ObjectKind;
    ClassBuilder(info, Some(wrapped), wrapped + "*", "&PyType_Type", "NULL",
                 MethodBuilders(info.methods, "Py" + info.namespace + info.name),
                 if isObject then info.refFunction else None,
                 if isObject then info.refFunction else None)
  }

  /** An object info whose ref and unref functions differ: the builder's unref function is the ref function. */
  lemma UnrefFunctionIsTheRefFunction()
    ensures var info := Info(ObjectKind, "GObject", "ParamSpec", 76, Some("GParamSpec"), [],
                             Some("g_param_spec_ref"), Some("g_param_spec_unref"), "", [],
                             TypeInfo(Void, Iface(InvalidKind, Void, "")), false, false, false);
            NewClassBuilder(info).unrefFunc == Some("g_param_spec_ref") != info.unrefFunction
  {
  }

  /** The builder the code evidently intends: the unref function comes from the info's unref function. */
  function NewClassBuilderIntended(info: Info): (b: ClassBuilder)
    ensures info.infoType == ObjectKind ==> b.refFunc == info.refFunction && b.unrefFunc == info.unrefFunction
    ensures info.infoType != ObjectKind ==> b.refFunc.None? && b.unrefFunc.None?
    ensures b.(unrefFunc := None) == NewClassBuilder(info).(unrefFunc := None)
  {
    NewClassBuilder(info).(unrefFunc := if info.infoType == ObjectKind then info.unrefFunction else None)
  }

  /** EnumBuilder.__init__: a class builder based on PyLong that wraps nothing and has C type long. */
  function NewEnumBuilder(info: Info): (b: ClassBuilder)
    ensures b.tpBase == "&PyLong_Type" && b.tpRepr == "pygi_codegen_enum_repr"
    ensures b.wrappedType.None? && b.ctype == "long"
    ensures b.info == info && b.methodBuilders == NewClassBuilder(info).methodBuilders
  {
    NewClassBuilder(info).(tpBase := "&PyLong_Type", tpRepr := "pygi_codegen_enum_repr",
                           wrappedType := None, ctype := "long")
  }

  /** Which builder ModuleBuilder makes for an info kind; the remaining kinds are ignored. */
  datatype BuilderKind = EnumBuilderKind | ClassBuilderKind | FunctionBuilderKind | NoBuilder

  function KindOf(t: InfoType): BuilderKind
  {
    match t
    case EnumKind => EnumBuilderKind
    case FlagsKind => EnumBuilderKind
    case ObjectKind => ClassBuilderKind
    case InterfaceKind => ClassBuilderKind
    case BoxedKind => ClassBuilderKind
    case StructKind => ClassBuilderKind
    case UnionKind => ClassBuilderKind
    case TypeKind => ClassBuilderKind
    case FunctionKind => FunctionBuilderKind
    case SignalKind => FunctionBuilderKind
    case VFuncKind => FunctionBuilderKind
    case _ => NoBuilder
  }

  /** The kinds behind each builder. */
  lemma KindOfCases(t: InfoType)
    ensures KindOf(t) == EnumBuilderKind <==> t == EnumKind || t == FlagsKind
    ensures KindOf(t) == ClassBuilderKind <==>
              t == ObjectKind || t == InterfaceKind || t == BoxedKind || t == StructKind || t == UnionKind || t == TypeKind
    ensures KindOf(t) == FunctionBuilderKind <==> t == FunctionKind || t == SignalKind || t == VFuncKind
  {
  }

  predicate GetsClassBuilder(info: Info)
  {
    KindOf(info.infoType) == EnumBuilderKind || KindOf(info.infoType) == ClassBuilderKind
  }

  /** The builder of an info that gets one in `class_builders`. */
  function ClassBuilderFor(info: Info): ClassBuilder
  {
    if KindOf(info.infoType) == EnumBuilderKind then NewEnumBuilder(info) else NewClassBuilder(info)
  }

  /** The infos that get a class or enum builder, in order. */
  function ClassInfos(infos: seq<Info>): (r: seq<Info>)
    ensures forall i :: i in r <==> i in infos && GetsClassBuilder(i)
  {
    if infos == [] then []
    else
      var last := infos[|infos| - 1];
      assert infos == infos[..|infos| - 1] + [last];
      ClassInfos(infos[..|infos| - 1]) + (if GetsClassBuilder(last) then [last] else [])
  }

  /** The infos that get a function builder, in order. */
  function FunctionInfos(infos: seq<Info>): (r: seq<Info>)
    ensures forall i :: i in r <==> i in infos && KindOf(i.infoType) == FunctionBuilderKind
  {
    if infos == [] then []
    else
      var last := infos[|infos| - 1];
      assert infos == infos[..|infos| - 1] + [last];
      FunctionInfos(infos[..|infos| - 1]) + (if KindOf(last.infoType) == FunctionBuilderKind then [last] else [])
  }

  /** The three collections ModuleBuilder.__init__ fills. */
  datatype Classification = Classification(
    classBuilders: seq<ClassBuilder>,
    methodBuilders: seq<FunctionBuilder>,
    registeredStructs: map<string, ClassBuilder>)

  /**
   * The classification loop over a prefix of the infos: class and enum
   * builders for registered types, function builders for callables,
   * nothing for the rest; only (non-enum) class builders are registered
   * by name, a later one replacing an earlier one of the same name.
   */
  function Classify(infos: seq<Info>): Classification
  {
    if infos == [] then Classification([], [], map[])
    else ClassifyStep(Classify(infos[..|infos| - 1]), infos[|infos| - 1])
  }

  /** One iteration of the classification loop. */
  function ClassifyStep(c: Classification, info: Info): Classification
  {
    match KindOf(info.infoType)
    case EnumBuilderKind => c.(classBuilders := c.classBuilders + [NewEnumBuilder(info)])
    case ClassBuilderKind =>
      var b := NewClassBuilder(info);
      c.(classBuilders := c.classBuilders + [b], registeredStructs := c.registeredStructs[info.name := b])
    case FunctionBuilderKind => c.(methodBuilders := c.methodBuilders + [NewFunctionBuilder(info)])
    case NoBuilder => c
  }

  /** One class or enum builder per info that gets one, in order. */
  lemma {:induction false} ClassBuildersInOrder(infos: seq<Info>)
    ensures |Classify(infos).classBuilders| == |ClassInfos(infos)|
    ensures forall k :: 0 <= k < |ClassInfos(infos)| ==>
              Classify(infos).classBuilders[k] == ClassBuilderFor(ClassInfos(infos)[k])
  {
    if infos != [] {
      ClassBuildersInOrder(infos[..|infos| - 1]);
    }
  }

  /** One function builder per callable info, in order. */
  lemma {:induction false} FunctionBuildersInOrder(infos: seq<Info>)
    ensures |Classify(infos).methodBuilders| == |FunctionInfos(infos)|
    ensures forall k :: 0 <= k < |FunctionInfos(infos)| ==>
              Classify(infos).methodBuilders[k] == NewFunctionBuilder(FunctionInfos(infos)[k])
  {
    if infos != [] {
      FunctionBuildersInOrder(infos[..|infos| - 1]);
    }
  }

  /** An info that gets a registered class builder under the name `n`. */
  predicate RegistersAs(info: Info, n: string)
  {
    KindOf(info.infoType) == ClassBuilderKind && info.name == n
  }

  /** One step of the classification loop, as far as the registered builders go. */
  lemma RegisteredStep(c: Classification, info: Info, n: string)
    ensures n in ClassifyStep(c, info).registeredStructs <==> RegistersAs(info, n) || n in c.registeredStructs
    ensures RegistersAs(info, n) ==> ClassifyStep(c, info).registeredStructs[n] == NewClassBuilder(info)
    ensures !RegistersAs(info, n) && n in c.registeredStructs ==>
              ClassifyStep(c, info).registeredStructs[n] == c.registeredStructs[n]
  {
  }

  /** A name is registered exactly when some (non-enum) class info has it. */
  lemma {:induction false} RegisteredNames(infos: seq<Info>, n: string)
    ensures n in Classify(infos).registeredStructs <==> exists k :: 0 <= k < |infos| && RegistersAs(infos[k], n)
  {
    if infos != [] {
      var p := infos[..|infos| - 1];
      RegisteredStep(Classify(p), infos[|infos| - 1], n);
      RegisteredNames(p, n);
      SomeRegistersAsSplit(infos, p, n);
    }
  }

  lemma SomeRegistersAsSplit(infos: seq<Info>, p: seq<Info>, n: string)
    requires infos != [] && p == infos[..|infos| - 1]
    ensures (exists k :: 0 <= k < |infos| && RegistersAs(infos[k], n))
            <==> RegistersAs(infos[|infos| - 1], n) || exists k :: 0 <= k < |p| && RegistersAs(p[k], n)
  {
    if exists k :: 0 <= k < |infos| && RegistersAs(infos[k], n) {
      var k :| 0 <= k < |infos| && RegistersAs(infos[k], n);
      if k < |p| {
        assert p[k] == infos[k];
      }
    }
    if exists k :: 0 <= k < |p| && RegistersAs(p[k], n) {
      var k :| 0 <= k < |p| && RegistersAs(p[k], n);
      assert infos[k] == p[k];
    }
  }

  /** A registered name maps to the builder of the last class info with that name. */
  lemma {:induction false} RegisteredIsLastOfName(infos: seq<Info>, n: string)
    requires n in Classify(infos).registeredStructs
    ensures exists k :: 0 <= k < |infos| && RegistersAs(infos[k], n)
              && Classify(infos).registeredStructs[n] == NewClassBuilder(infos[k])
              && forall j :: k < j < |infos| ==> !RegistersAs(infos[j], n)
  {
    var p := infos[..|infos| - 1];
    var info := infos[|infos| - 1];
    RegisteredStep(Classify(infos[..|infos| - 1]), infos[|infos| - 1], n);
    if RegistersAs(info, n) {
      var k := |infos| - 1;
      assert RegistersAs(infos[k], n) && Classify(infos).registeredStructs[n] == NewClassBuilder(infos[k]);
    } else {
      RegisteredIsLastOfName(p, n);
      var k :| 0 <= k < |p| && RegistersAs(p[k], n)
               && Classify(p).registeredStructs[n] == NewClassBuilder(p[k])
               && forall j :: k < j < |p| ==> !RegistersAs(p[j], n);
      assert infos[k] == p[k];
      NoLaterRegistration(infos, p, k, n);
    }
  }

  lemma NoLaterRegistration(infos: seq<Info>, p: seq<Info>, k: nat, n: string)
    requires infos != [] && p == infos[..|infos| - 1] && k < |p| && !RegistersAs(infos[|infos| - 1], n)
    requires forall j :: k < j < |p| ==> !RegistersAs(p[j], n)
    ensures forall j :: k < j < |infos| ==> !RegistersAs(infos[j], n)
  {
    forall j | k < j < |infos| ensures !RegistersAs(infos[j], n) {
      if j < |p| {
        assert infos[j] == p[j];
      }
    }
  }

  /** What ModuleBuilder.__init__ stores. */
  datatype ModuleBuilder = ModuleBuilder(
    prefix: string,
    namespace: string,
    commandLine: string,
    namespaceLower: string,
    tpMethods: string,
    methodTableMacro: string,
    inputTemplate: string,
    outputFilename: string,
    outputBasename: string,
    classBuilders: seq<ClassBuilder>,
    methodBuilders: seq<FunctionBuilder>,
    registeredStructs: map<string, ClassBuilder>)

  /**
   * ModuleBuilder.__init__ over the namespace's infos (`infos`, the
   * repository's answer). `outputStem` is the base name of `output` without
   * its extension, which the source computes with os.path.
   */
  method NewModuleBuilder(namespace: string, output: string, outputStem: string, prefix: string,
                          commandLine: string, template: string, infos: seq<Info>)
    returns (m: ModuleBuilder)
    ensures m.namespaceLower == prefix + Lower(namespace)
    ensures m.tpMethods == m.namespaceLower + "_functions"
    ensures m.methodTableMacro == MacroName(m.tpMethods, "_CUSTOM_ENTRIES")
    ensures output != "" ==> m.outputFilename == output && m.outputBasename == outputStem
    ensures output == "" ==> m.outputBasename == Lower(prefix + namespace) && m.outputFilename == m.outputBasename + ".c"
    ensures m.classBuilders == Classify(infos).classBuilders
    ensures m.methodBuilders == Classify(infos).methodBuilders
    ensures m.registeredStructs == Classify(infos).registeredStructs
  {
    var namespaceLower := prefix + Lower(namespace);
    var tpMethods := namespaceLower + "_functions";
    var outputFilename, outputBasename;
    if output != "" {
      outputFilename, outputBasename := output, outputStem;
    } else {
      outputBasename := Lower(prefix + namespace);
      outputFilename := outputBasename + ".c";
    }
    var c := ClassifyInfos(infos);
    m := ModuleBuilder(prefix, namespace, commandLine, namespaceLower, tpMethods,
                       MacroName(tpMethods, "_CUSTOM_ENTRIES"), template, outputFilename, outputBasename,
                       c.classBuilders, c.methodBuilders, c.registeredStructs);
  }

  /** The classification loop of ModuleBuilder.__init__. */
  method ClassifyInfos(infos: seq<Info>) returns (c: Classification)
    ensures c == Classify(infos)
  {
    var classBuilders: seq<ClassBuilder> := [];
    var methodBuilders: seq<FunctionBuilder> := [];
    var registeredStructs: map<string, ClassBuilder> := map[];
    var i := 0;
    while i < |infos|
      invariant 0 <= i <= |infos|
      invariant Classify(infos[..i]) == Classification(classBuilders, methodBuilders, registeredStructs)
    {
      assert infos[..i + 1][..i] == infos[..i];
      ghost var before := Classification(classBuilders, methodBuilders, registeredStructs);
      var info := infos[i];
      match KindOf(info.infoType) {
        case EnumBuilderKind =>
          classBuilders := classBuilders + [NewEnumBuilder(info)];
        case ClassBuilderKind =>
          var builder := NewClassBuilder(info);
          classBuilders := classBuilders + [builder];
          registeredStructs := registeredStructs[info.name := builder];
        case FunctionBuilderKind =>
          methodBuilders := methodBuilders + [NewFunctionBuilder(info)];
        case NoBuilder =>
      }
      assert Classification(classBuilders, methodBuilders, registeredStructs) == ClassifyStep(before, info);
      i := i + 1;
    }
    assert infos[..i] == infos;
    c := Classification(classBuilders, methodBuilders, registeredStructs);
  }
}
