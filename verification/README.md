# PyGObject core, modelled in Dafny

This project models the parts of PyGObject (the Python bindings for
GObject-based libraries driven by GObject Introspection) whose behaviour is
decided by tables, indices and strings:

- **Callback argument cache** (`ArgCallback`): how a callback argument's cache
  is set up from introspection data, and how a Python callable is turned into
  a native closure at call time. This covers the hidden user-data and
  destroy-notify child slots, the shared destroy notifier, the leak warning
  and the call-scope cleanup.
- **Array buffer view** (`ArrayBuffer`): the PEP 3118 format character of a
  GArray element, wrapping a GArray with its reference transfer, and the view
  it exports.
- **Struct wrapper** (`StructWrapper`): field lookup, construction of a
  zeroed struct, the release decision on dealloc, and the validation chain and
  flag-gated filling of `struct_getbuffer`.
- **Generic pointer wrapper** (`Wrapper`): the per-GType class registry, the
  copy/free function block attached to a class, pointer comparison and
  hashing, and dealloc.
- **Signal closure** (`SignalClosure`): signal lookup on a GType's
  introspection data, notified-scope closure creation and invalidation, and
  the argument rewriting done on each emission.
- **Docstring generator** (`Docstring`): splitting arguments into in and out
  lists, type hints, the callable signature, constructor overload
  resolution, and the class docstring.
- **Static binding generator** (`Codegen`): the type-tag tables,
  `camel_down_under`, keyword escaping, the builders' derived names and flags,
  the body of a function wrapper, and the classification of a namespace's
  infos into builders.
- **Overrides registry** (`Overrides`): the validating registry dictionary,
  `register`, `register_func`, the `override` decorator and `deprecated`.

Shared definitions live in `GI` (type tags, info kinds, GTypes, Python values
and exceptions, `Option`/`Result`). `Native` models native memory as a map
from addresses to blocks of integers, plus the `Py_buffer` view and the
PEP 3118 request flags. `Closures` models the heap of closure records.

Each foreign service becomes a parameter of the operation that calls it. This
covers the Python C API's failures, libffi closure preparation, repository
queries and allocation failures. Examples are `allocFails`, `exhausted`,
`failsAt`, `factoryFails`, `warningRaises`, `infos` and `read`.

Code that updates state in place is modelled with classes whose methods
carry `modifies` clauses:

- the callable cache's slot array;
- the invocation's native argument array;
- the wrapper registry;
- the overrides registry;
- the buffer view;
- the native heap.

Each such method is tied to a pure function of its inputs, and the
properties are proved about those functions. Loops in the source stay loops
(`FindField`, `SplitFunctionInfoArgs`, `InParams`, `GetConstructorOverloads`,
`ArgumentLoop`, `ClassifyInfos`, ...) and are proved equal to the function
that specifies them.

Where the code and its surrounding documentation disagree, the model follows
the code. The differences found are listed under "## Findings". Each comes
with a member modelling the code as written and a corrected member.

In `_generate_callable_info_sig`, the out-argument loop compares positions in
the out-list with the in-arguments' ignore indices
(gi/docstring.py:167-169). The model keeps this as written.

## Model

| member | source | states |
|---|---|---|
| ArgCallback.ChildOffset | gi/pygi-arg-callback.c:269-272 | the child offset is 1 exactly for a method or vfunc callable, else 0 |
| ArgCallback.WithChildren | gi/pygi-arg-callback.c:225-240 | only the user-data and destroy slots change: a non-negative destroy index gets a destroy child slot, a non-negative user-data index a user-data child slot |
| ArgCallback.SetupFromInfo | gi/pygi-arg-callback.c:246-290 | transfer and direction are recorded; the to-Python marshaller is installed for the to-Python direction; both indices are the metadata index shifted by the child offset, with -1 never shifted; scope is copied; for the from-Python direction the child slots are written and the from-Python marshaller and cleanup installed |
| ArgCallback.CapturedUserData | gi/pygi-arg-callback.c:108-121 | no user data when there is no user-data slot, its Python index is past the given arguments, or the value is the default placeholder; otherwise the data is the Python argument at the user-data slot's Python index |
| ArgCallback.AttachClosure | gi/pygi-arg-callback.c:137-178 | the argument gets the closure's entry point and the user-data slot the closure record. With both slots the destroy slot gets the shared notifier. A destroy slot without user data issues the leak warning: escalated, it releases the closure and fails; otherwise the destroy slot gets the dummy. On success the cleanup data is the closure, and no other native argument changes |
| ArgCallback.FromPy | gi/pygi-arg-callback.c:91-181 | a failed user-data fetch raises IndexError, None succeeds and a non-callable raises TypeError, each without creating a closure or writing anything; a callable makes exactly one closure and has the effect of AttachClosure |
| ArgCallback.DestroyNotifier.Create | gi/pygi-arg-callback.c:66-89 | the shared notifier is created once and every call returns the same handle |
| ArgCallback.CreateTwice | gi/pygi-arg-callback.c:66-89 | two calls return the same notifier and prepare it only once |
| ArgCallback.MarshalFromPy | gi/pygi-arg-callback.c:91-181 | the in-place marshaller's outcome, argument, cleanup data, warning and new native argument array are those of FromPy; the closure heap gains exactly the closure made, unless it was released, and its next address advances exactly when a closure was made; the shared notifier is requested exactly when a closure is made with both a user-data and a destroy slot (prepared then if it was not yet), and is otherwise unchanged |
| ArgCallback.CleanupFromPy | gi/pygi-arg-callback.c:207-218 | the closure is freed exactly when it was processed and the scope is call; otherwise nothing changes |
| ArgCallback.CallScopeRoundTrip | gi/pygi-arg-callback.c:207-218 | for a call-scope callback, marshalling followed by cleanup leaves the closure heap as it was |
| ArgCallback.MarshalToPy | gi/pygi-arg-callback.c:183-194 | converting a callback to Python always raises NotImplementedError |
| ArrayBuffer.FirstMatchIsFirst | gi/pygi-array.c:27-44 | the size table answers with the first entry of the requested size, and with nothing exactly when no entry has that size |
| ArrayBuffer.SignedFormat | gi/pygi-array.c:27-44 | char, short, int, long, long long are tried in that order; the result is one of `bhilq`, or none |
| ArrayBuffer.UnsignedFormat | gi/pygi-array.c:46-63 | the upper-case counterpart of the signed answer, one of `BHILQ` |
| ArrayBuffer.TagToFormat | gi/pygi-array.c:65-91 | signed integer tags use the signed table, unsigned ones the unsigned table, FLOAT gives `f`, DOUBLE gives `D`; there is a format exactly for those tags (integers only when the size matches) |
| ArrayBuffer.TagToFormatIntended | gi/pygi-array.c:86-87 | as TagToFormat except that DOUBLE gives the struct-module double `d`; every format is a valid struct format character |
| ArrayBuffer.DoubleFormatIsNotStructDouble | gi/pygi-array.c:86-87 | a DOUBLE array exports `D`, which differs from the intended `d` |
| ArrayBuffer.ArrayView | gi/pygi-array.c:149-173 | one-dimensional view of `len * itemsize` bytes over the array data, writable, without shape or strides; the format is present exactly when requested and the tag has one |
| ArrayBuffer.PyGIArray.GetBuffer | gi/pygi-array.c:149-173 | always succeeds and fills the view as ArrayView describes, owned by the array object |
| ArrayBuffer.PyGIArray.Dealloc | gi/pygi-array.c:142-147 | drops exactly one reference to the GArray; an instance that holds no array changes nothing |
| ArrayBuffer.NewFromGArray | gi/pygi-array.c:115-140 | without a format nothing is wrapped and no error is set; an allocation failure raises MemoryError; otherwise a fresh object stores the tag and the array, and transfer-nothing takes one extra reference |
| ArrayBuffer.WrapThenDealloc | gi/pygi-array.c:115-147 | wrapping succeeds exactly when the tag has a format; wrap followed by dealloc changes the reference count by 0 for transfer-nothing and by -1 for transfer-everything |
| StructWrapper.FieldIndexIsFirst | gi/pygi-struct.c:220-234 | the lookup finds the first field with the name, and nothing exactly when no field has it |
| StructWrapper.FindField | gi/pygi-struct.c:220-234 | the loop returns the first field with the name, or none when no field has it |
| StructWrapper.FindFieldAgrees | gi/pygi-struct.c:220-234 | the loop's answer equals the recursive lookup |
| StructWrapper.WrapStruct | gi/pygi-struct.c:171-196 | a type that is not a gi.Struct subtype raises TypeError; an allocation failure gives MemoryError; otherwise a fresh wrapper holds the pointer, the type's GType and the free-on-dealloc flag |
| StructWrapper.InfoLookupError | gi/pygi-struct.c:95-101 | a missing introspection attribute is reported as TypeError; other errors pass through |
| StructWrapper.StructNew | gi/pygi-struct.c:79-126 | arguments raise TypeError, a failed info lookup its mapped error, size 0 TypeError, and exhausted memory MemoryError; past those, a type that is not a gi.Struct subtype raises TypeError and a failed instance allocation MemoryError, the block being released again; otherwise construction succeeds, wrapping one fresh zeroed block of the struct's size with free-on-dealloc; on every failure memory is unchanged |
| StructWrapper.ReleaseFor | gi/pygi-struct.c:61-77 | exactly one of foreign release (foreign struct), free (free-on-dealloc) or nothing |
| StructWrapper.Dealloc | gi/pygi-struct.c:61-77 | foreign release hands the pointer to the foreign release and frees nothing; free releases exactly the struct's block; otherwise memory is untouched |
| StructWrapper.ResolveBuffer | gi/pygi-struct.c:272-317 | an integer address resolves to the null buffer (the address is lost); a field name succeeds exactly when the field exists, is a void pointer or C array and can be read, giving the read pointer; anything else raises TypeError |
| StructWrapper.ResolveBufferIntended | gi/pygi-struct.c:272-273 | a non-negative integer address resolves to that address; the other cases are those of ResolveBuffer |
| StructWrapper.IntegerAddressIsDropped | gi/pygi-struct.c:272-273 | for the address 4096 the code as written exports a null buffer while the intended resolution gives address 4096 |
| StructWrapper.StructView | gi/pygi-struct.c:319-340 | one-dimensional view of `len * itemsize`; readonly only for True, and the stale value when omitted; the format exactly under PyBUF_FORMAT, stale when omitted; shape exactly under PyBUF_ND; strides exactly under PyBUF_STRIDES |
| StructWrapper.StructViewIntended | gi/pygi-struct.c:319-340 | as StructView, but an omitted readonly is writable and an omitted format gives no format, never the stale one |
| StructWrapper.OmittedFormatIsStale | gi/pygi-struct.c:326-329 | a buffer info without a format, requested with PyBUF_FORMAT, exports the uninitialised format |
| StructWrapper.GetBuffer | gi/pygi-struct.c:236-343 | the validation chain in order (missing `_pygi_getbufferinfo_`, info lookup, buffer info, buffer resolution), each failure returning -1 with the view and memory untouched; on success the view is StructView and a one-entry shape block is allocated exactly under PyBUF_ND |
| StructWrapper.ResolveBufferAttr | gi/pygi-struct.c:272-317 | the branch on the buffer attribute equals ResolveBuffer |
| StructWrapper.FillView | gi/pygi-struct.c:319-340 | the view holds StructView, and the shape block `[len]` is freshly allocated exactly under PyBUF_ND |
| StructWrapper.FillFields | gi/pygi-struct.c:319-329 | every view field except shape is set as StructView describes |
| StructWrapper.ReleaseBuffer | gi/pygi-struct.c:345-349 | frees exactly the shape block |
| StructWrapper.ExportThenRelease | gi/pygi-struct.c:236-349 | getbuffer followed by releasebuffer leaves memory as it was |
| Wrapper.Registry.ClassFromGType | gi/pygi-wrapper.c:146-157 | the class registered on the GType wins; otherwise the imported class, if any |
| Wrapper.Registry.FuncsGet | gi/pygi-wrapper.c:129-138 | there are funcs exactly when the class has the attribute |
| Wrapper.Registry.FuncsAttach | gi/pygi-wrapper.c:71-97 | a failed allocation gives MemoryError; a failed capsule or attribute releases the block and fails; on success the class owns a fresh block that is all zero |
| Wrapper.Registry.FuncsAttachIntended | gi/pygi-wrapper.c:71-97 | as FuncsAttach, but the block stores the copy and free functions, so the class's free function is the one given |
| Wrapper.Registry.CreateClass | gi/pygi-wrapper.c:214-245 | a fresh class with the name and module and zeroed funcs, or, when a step fails, nothing created and memory unchanged |
| Wrapper.Registry.CreateClassIntended | gi/pygi-wrapper.c:214-245 | as CreateClass with the funcs block of FuncsAttachIntended |
| Wrapper.Registry.ClassNewFull | gi/pygi-wrapper.c:195-262 | an existing class for the GType is returned and nothing is created; otherwise a new class is registered on the GType (not for NONE) with its `__gtype__`; on success the new class has the given name and module, existing classes are untouched, and the only new native block is its zeroed funcs block; a failure before the GType step creates nothing; a failed `__gtype__` leaves the GType pointing at the destroyed class |
| Wrapper.Registry.ClassNewFullIntended | gi/pygi-wrapper.c:195-262 | an existing class for the GType is returned and nothing is created; on success, as ClassNewFull, a new class with the given name, module and `__gtype__` is registered on the GType (not for NONE), existing classes are untouched and the only new block is its funcs block, which here holds the copy and free functions; any class returned is the one the GType's lookup then answers; a failure at any step leaves classes, qdata and native memory unchanged |
| Wrapper.ClassNewFullIsIdempotent | gi/pygi-wrapper.c:207-212 | a second creation for the same GType returns the first class and adds no class |
| Wrapper.QdataOutlivesClass | gi/pygi-wrapper.c:248-258 | when setting `__gtype__` fails, the GType still names a class that no longer exists |
| Wrapper.PyGIWrapper.Init | gi/pygi-wrapper.c:317-329 | always fails: arguments give TypeError, otherwise NotImplementedError after nulling the wrapped pointer |
| Wrapper.PyGIWrapper.Dealloc | gi/pygi-wrapper.c:331-340 | free is called once on the wrapped pointer, which then becomes null, exactly when the class has a free function and the pointer is non-null; otherwise nothing changes |
| Wrapper.DeallocTwice | gi/pygi-wrapper.c:331-340 | two deallocs call free at most once |
| Wrapper.FreeIsNeverCalled | gi/pygi-wrapper.c:79-96 | with the code as written, a class created with a free function never calls it on dealloc |
| Wrapper.RichCompare | gi/pygi-wrapper.c:290-301 | different types give NotImplemented; the same type answers each of the six operators `<`, `<=`, `==`, `!=`, `>`, `>=` on the wrapped addresses |
| Wrapper.Hash | gi/pygi-wrapper.c:303-307 | the hash is the wrapped address read as a signed 64-bit value |
| Wrapper.HashMatchesEquality | gi/pygi-wrapper.c:290-307 | two wrappers of the same type compare equal exactly when their hashes are equal |
| SignalClosure.CallArgs | gi/pygi-signal-closure.c:64-85 | non-tuple user data raises TypeError; otherwise the length is that of the arguments plus the user data, without swap data the result is the arguments followed by the user data, and with it element 0 is the swap object and every other element is unchanged |
| SignalClosure.SwapHitsUserDataWhenNoArgs | gi/pygi-signal-closure.c:64-87 | the append comes before the swap: with no emission arguments the swap object replaces the first user-data item |
| SignalClosure.CallbackArgs | gi/pygi-signal-closure.c:57-91 | as written: without a swap object the callback is called with the rewritten arguments; with one the rewritten arguments are a list, which `PyObject_CallObject` refuses with TypeError, so the callback never runs |
| SignalClosure.SwappedCallIsRefused | gi/pygi-signal-closure.c:74-87 | a handler with a swap object and one emission argument: the rewritten list is `[swap]`, the call as written raises TypeError, the corrected call passes `[swap]` |
| SignalClosure.CallbackArgsIntended | gi/pygi-signal-closure.c:74-87 | the corrected call: it fails exactly when the user data is not a tuple, agrees with the code when there is no swap object, and passes the swap object first with every other argument unchanged |
| SignalClosure.SignalIndex | gi/pygi-signal-closure.c:35-40 | the first signal of that name, and none exactly when there is none |
| SignalClosure.LookupSignal | gi/pygi-signal-closure.c:22-44 | nothing without introspection data or for a kind other than object or interface; otherwise found exactly when the object's (interface's) signal list has the name |
| SignalClosure.SignalClosureNew | gi/pygi-signal-closure.c:94-128 | an unknown signal or a failed closure factory creates nothing; otherwise exactly one fresh notified-scope record holding the callback, extra arguments and swap data |
| SignalClosure.Invalidate | gi/pygi-signal-closure.c:46-50 | the record is released and nothing else changes |
| SignalClosure.ConnectThenInvalidate | gi/pygi-signal-closure.c:94-128 | creating then invalidating a closure leaves no record behind |
| Docstring.InArgs | gi/docstring.py:62-78 | exactly the IN and INOUT arguments |
| Docstring.OutArgs | gi/docstring.py:62-78 | exactly the OUT and INOUT arguments |
| Docstring.InOutOnBothSides | gi/docstring.py:62-78 | an INOUT argument is on both sides, IN only in the in-list, OUT only in the out-list |
| Docstring.SplitFunctionInfoArgs | gi/docstring.py:62-78 | the loop builds the in- and out-lists in argument order |
| Docstring.PyTypeHint | gi/docstring.py:81-121 | a mapped tag gives its Python type name; an INTERFACE gives `namespace.name`, or the tag string for an unnamed one; anything else the tag string; the hint is `void` exactly for VOID |
| Docstring.SelfPrefix | gi/docstring.py:126-131 | `self` is first exactly for a vfunc or a method function |
| Docstring.IgnoreIndices | gi/docstring.py:138-142 | exactly the destroy and array-length indices of the in-arguments |
| Docstring.UserDataIndices | gi/docstring.py:138-143 | exactly the closure indices of the in-arguments |
| Docstring.Annotated | gi/docstring.py:148-151 | the name, with `:hint` unless the hint is `void` |
| Docstring.InArgStr | gi/docstring.py:148-156 | nullable or user-data arguments get `=None`, otherwise optional ones get `=<optional>` |
| Docstring.Kept | gi/docstring.py:145-147 | the positions below n that are not ignored, increasing, and all of them |
| Docstring.InArgStrsAreKeptArgs | gi/docstring.py:145-157 | one string per kept in-argument, in order, each as InArgStr describes |
| Docstring.Render | gi/docstring.py:176-179 | `(ins)` without out strings, otherwise starting `(ins) -> ` |
| Docstring.CallableSig | gi/docstring.py:124-179 | as written: line 162 tests the `skip_return` accessor without calling it, and a bound method is always true, so the return hint is never listed; the signature is `(ins)` without out-argument strings and `(ins) -> outs` with them |
| Docstring.ReturnNeverAffectsSig | gi/docstring.py:160-165 | as written, the signature is the same whatever the return type, its skip flag and its nullability |
| Docstring.ReturnHintIsNeverListed | gi/docstring.py:160-165 | `get_name()` without arguments returning a string documents as `()` as written, and as `() -> str` in the corrected version |
| Docstring.CallableSigCallAdded | gi/docstring.py:160-165 | the signature if only the call to `skip_return` were added: UnboundLocalError exactly when a nullable return is listed and no in-argument string was built; otherwise the bare return hint comes before the out strings, and an unlisted return gives the signature as written |
| Docstring.ReturnNullabilityIsLost | gi/docstring.py:162-165 | with only the call added, a produced signature is the same whether or not the return may be null |
| Docstring.NullableReturnWithoutArgsRaises | gi/docstring.py:163-164 | with only the call added, `get_name()` returning a nullable string raises UnboundLocalError |
| Docstring.ReturnStr | gi/docstring.py:161-165 | the intended return string: the hint, with ` or None` appended exactly when the return may be null |
| Docstring.CallableSigIntended | gi/docstring.py:124-179 | the corrected signature (`skip_return()` called, ` or None` on the return hint): equal to the code's when the return is not listed, otherwise the return string comes first among the out strings; for a non-nullable return it equals the call-added version |
| Docstring.CollectIndices | gi/docstring.py:138-143 | the loop collects IgnoreIndices and UserDataIndices |
| Docstring.InParams | gi/docstring.py:145-158 | the loop builds the in-argument strings |
| Docstring.OutParams | gi/docstring.py:167-174 | the loop builds the out-argument strings |
| Docstring.GenerateCallableInfoSig | gi/docstring.py:124-179 | the imperative generator returns CallableSig; its return-hint block never runs |
| Docstring.TableMeaning | gi/docstring.py:186-198 | after the loop a key has an overload exactly when it occurs once, is blacklisted exactly when it occurs twice or more, and the overloads have distinct keys |
| Docstring.GetConstructorOverloads | gi/docstring.py:186-198 | exactly the constructors whose argument-name set occurs once |
| Docstring.NotOverloaded | gi/docstring.py:220-221 | exactly the constructors that are not overloads |
| Docstring.EachConstructorListedOnce | gi/docstring.py:212-223 | overloads plus named constructors are the constructors, as a multiset |
| Docstring.Constructors | gi/docstring.py:212 | exactly the methods that are constructors |
| Docstring.SortByNameLength | gi/docstring.py:216 | a permutation of its input |
| Docstring.SortIsSorted | gi/docstring.py:216 | the result is ordered by name length |
| Docstring.DefaultCtorLine | gi/docstring.py:205-210 | no default line exactly for a struct of size 0; an object gets `Name(**properties)` |
| Docstring.CtorLineList | gi/docstring.py:216-223 | one line per constructor |
| Docstring.CtorLineListAt | gi/docstring.py:216-223 | the lines keep the constructors' order: the line at each position is `Name<sig>` (or `Name.ctor<sig>`) for the constructor at that position |
| Docstring.ListsCoverConstructors | gi/docstring.py:212-223 | every constructor is listed, either as an overload or by name, and nothing else is |
| Docstring.ClassDoc | gi/docstring.py:201-225 | starts with the `:Constructors:` header and the default constructor line, and is exactly that when the class has no constructor |
| Docstring.ClassDocLines | gi/docstring.py:201-225 | after the head come a line per sorted overload, then a line per other constructor in its original order |
| Docstring.SingleConstructorIsOverload | gi/docstring.py:184-223 | a class with a single constructor lists it once, as `Name<sig>` after the head |
| Docstring.OverloadLines | gi/docstring.py:216-217 | the loop over the sorted overloads gives their unqualified lines |
| Docstring.NamedLines | gi/docstring.py:220-223 | the loop over the other constructors gives their qualified lines |
| Docstring.GenerateClassInfoDoc | gi/docstring.py:201-225 | the imperative generator returns ClassDoc |
| Codegen.PyParse | gi/codegen/codegen.py:28-54 | every tag has a format; strings parse with `s`, 64-bit integers with `L`/`K`; converters exactly for VOID, BOOLEAN and INTERFACE, always with `O&` |
| Codegen.BuildValue | gi/codegen/codegen.py:72-98 | the parse table's format units except `z` for strings; converters exactly for VOID and BOOLEAN |
| Codegen.CType | gi/codegen/codegen.py:116-145 | no C type exactly for VOID, GTYPE and the container and error tags; INTERFACE is `void*` |
| Codegen.GLibTypeName | gi/codegen/codegen.py:163-179 | no GLib name exactly for the container, error and unichar tags; VOID and INTERFACE are `gpointer` |
| Codegen.TypeInfoToPyParse | gi/codegen/codegen.py:57-69 | enums and flags by storage tag, a registered struct by its builder's from-Python converter, other interfaces by the table |
| Codegen.TypeInfoToBuildValue | gi/codegen/codegen.py:101-113 | as TypeInfoToPyParse with the to-Python converter and the build table |
| Codegen.TypeInfoToCType | gi/codegen/codegen.py:148-160 | enums and flags by storage tag, a registered struct by its builder's C type, other interfaces `void*`; a tag without a C type raises KeyError |
| Codegen.CamelDownUnder | gi/codegen/codegen.py:182-183 | the result has no upper-case letter and no `_` at either end; where the underscores go is stated by UnderscoreBeforeEachMatch |
| Codegen.MarkLength | gi/codegen/codegen.py:182-183 | the substitution inserts exactly one `_` per match |
| Codegen.MarkAt | gi/codegen/codegen.py:182-183 | from any start position, each character is shifted right by the matches up to and including it, and a match puts `_` just before it |
| Codegen.UnderscoreBeforeEachMatch | gi/codegen/codegen.py:182-183 | with B(n) the matches among the first n characters: `s[j]` lands at `j + B(j+1)`, `_` sits at `j + B(j)` exactly when the pattern matches at `j`, and the length is `|s|` plus all matches, so nothing else is inserted |
| Codegen.CamelDownUnderExample | gi/codegen/codegen.py:182-183 | `PyGObject` becomes `py_g_object` |
| Codegen.CamelDownUnderIsIdempotent | gi/codegen/codegen.py:182-183 | mangling a mangled name changes nothing |
| Codegen.CamelDownUnderKeepsLetters | gi/codegen/codegen.py:182-183 | apart from underscores, the result is the input lower-cased, in order |
| Codegen.NoKeywordEndsWithUnderscore | gi/codegen/codegen.py:289-291 | no Python keyword ends with `_` |
| Codegen.PyName | gi/codegen/codegen.py:289-291 | a keyword gets a trailing `_`, other names are unchanged, and the result is never a keyword |
| Codegen.NewFunctionBuilder | gi/codegen/codegen.py:283-297 | wrapper `py<symbol>`, escaped name, `PyObject` self struct; METH_NOARGS exactly when there are no arguments |
| Codegen.NewMethodBuilder | gi/codegen/codegen.py:412-418 | the class's object struct, and `\| METH_STATIC` added exactly for constructors and non-methods; every other field is the function builder's |
| Codegen.ParserArgsOf | gi/codegen/codegen.py:339-343 | the converter, when there is one, then `&name` |
| Codegen.ArgDecl | gi/codegen/codegen.py:329-337 | `<ctype> <name>;` exactly when the tag has a C type and the lookup succeeds; otherwise the tag that stops the loop, or KeyError |
| Codegen.ArgStep | gi/codegen/codegen.py:328-343 | one iteration succeeds exactly when the argument can be declared, appending its declaration |
| Codegen.ArgsLoop | gi/codegen/codegen.py:326-343 | on success one declaration per argument; a raised error is KeyError |
| Codegen.ArgsLoopOutcome | gi/codegen/codegen.py:326-343 | the loop succeeds exactly when every argument can be declared |
| Codegen.ArgsLoopStopsAtArgument | gi/codegen/codegen.py:332-334 | a tag that stops the loop is the tag of one of the arguments |
| Codegen.ArgDeclsInOrder | gi/codegen/codegen.py:336-337 | the k-th declaration is that of the k-th argument |
| Codegen.ArgsLoopStopsAtFirst | gi/codegen/codegen.py:332-334 | once the loop has stopped, later arguments change nothing |
| Codegen.ArgsLoopParser | gi/codegen/codegen.py:326-343 | on success the parser format is every argument's format, and the parser arguments every argument's converter and address, in argument order |
| Codegen.Names | gi/codegen/codegen.py:320 | the argument names in order |
| Codegen.CalleeArgs | gi/codegen/codegen.py:356-363 | `self->obj` first exactly for a method, then the argument names in order, then `&error` exactly when it throws |
| Codegen.ReturnConversion | gi/codegen/codegen.py:387-398 | the build format, with `converter, &res` when there is a converter, else `res` |
| Codegen.ReturnDecls | gi/codegen/codegen.py:306-312 | none for VOID, otherwise `<ctype> res;` and the Python result, or KeyError |
| Codegen.WrapperBodyOf | gi/codegen/codegen.py:299-400 | a non-VOID return without a C type gives the NotImplemented body. A full body has declarable return and arguments, the callee arguments of CalleeArgs, the kwlist first when there are arguments, and an empty return format exactly for VOID. Any other NotImplemented tag is an argument's |
| Codegen.ArgsBody | gi/codegen/codegen.py:320-400 | a full body exactly when every argument can be declared, built from the loop's result; a NotImplemented body names an argument's tag; failures are KeyError |
| Codegen.FullBody | gi/codegen/codegen.py:345-400 | the parser format and arguments of the loop, CalleeArgs, the kwlist first when there are arguments, an empty return format exactly for VOID |
| Codegen.ArgumentLoop | gi/codegen/codegen.py:326-343 | the loop, stopping at the first argument it cannot declare, equals ArgsLoop |
| Codegen.DeclareArgument | gi/codegen/codegen.py:329-343 | one pass of the loop equals ArgStep |
| Codegen.PrintWrapperBody | gi/codegen/codegen.py:299-400 | the imperative body equals WrapperBodyOf |
| Codegen.PrintArgsAndCall | gi/codegen/codegen.py:320-400 | the argument loop, call and return part equals ArgsBody |
| Codegen.MethodBuilders | gi/codegen/codegen.py:521-522 | one method builder per method, in order, bound to the struct |
| Codegen.MacroName | gi/codegen/codegen.py:511-519 | the mangled base, upper-cased character by character, followed by the suffix; no lower-case letter before the suffix |
| Codegen.NewClassBuilder | gi/codegen/codegen.py:493-535 | `PyType_Type` base, C type the wrapped type (or void) plus `*`, one method builder per method bound to the object struct; an object's ref and unref function are both the info's ref function, others have none |
| Codegen.UnrefFunctionIsTheRefFunction | gi/codegen/codegen.py:530-532 | for GObject.ParamSpec, whose ref and unref functions differ, the builder's unref function is `g_param_spec_ref` |
| Codegen.NewClassBuilderIntended | gi/codegen/codegen.py:530-535 | as NewClassBuilder but the unref function is the info's unref function |
| Codegen.NewEnumBuilder | gi/codegen/codegen.py:575-581 | `PyLong_Type` base, enum repr, wraps nothing, C type `long`, the class builder's methods |
| Codegen.KindOfCases | gi/codegen/codegen.py:626-637 | enums and flags get enum builders, the six class kinds class builders, functions, signals and vfuncs function builders |
| Codegen.ClassBuildersInOrder | gi/codegen/codegen.py:626-634 | one class or enum builder per info that gets one, in order |
| Codegen.FunctionBuildersInOrder | gi/codegen/codegen.py:636-637 | one function builder per callable info, in order |
| Codegen.RegisteredNames | gi/codegen/codegen.py:631-634 | a name is registered exactly when some class-kind info has it |
| Codegen.RegisteredIsLastOfName | gi/codegen/codegen.py:634 | a registered name maps to the builder of the last class-kind info with that name |
| Codegen.NewModuleBuilder | gi/codegen/codegen.py:601-637 | the names derived from prefix and namespace, the output file names with or without `-o`, and the three collections of the classification |
| Codegen.ClassifyInfos | gi/codegen/codegen.py:622-637 | the classification loop equals Classify |
| Overrides.ModuleSuffix | gi/overrides/__init__.py:29-30 | the module name minus its first 13 characters, empty for shorter names |
| Overrides.RegistryKey | gi/overrides/__init__.py:29-31 | the module suffix, a dot, and the name |
| Overrides.KeyOfOverrideModule | gi/overrides/__init__.py:29-31 | a value from `gi.overrides.M` is stored under `M.name` |
| Overrides.KeyOfMarshallingOverride | tests/test_overrides.py:34-51 | the override of `boolean_return_true` in `gi.overrides.GIMarshallingTests` is stored under `GIMarshallingTests.boolean_return_true` |
| Overrides.KeysSeparateNames | gi/overrides/__init__.py:29-32 | within one module, two values share a key exactly when they share a name |
| Overrides.Registry.SetItem | gi/overrides/__init__.py:14-32 | KeyError, with the registry unchanged, when key and value differ or the module is outside `gi.overrides`; otherwise the value is stored under its registry key |
| Overrides.Registry.Register | gi/overrides/__init__.py:34-47 | no `__info__` raises TypeError; GType NONE fails the assertion when assertions are on; INVALID changes nothing; otherwise (NONE included under `python -O`) `pytype` is set and then the class is stored, or KeyError with `pytype` already set |
| Overrides.Registry.RegisterFunc | gi/overrides/__init__.py:49-54 | an introspection function without `__info__` raises TypeError; otherwise the override is stored as SetItem does |
| Overrides.Registry.ApplyFuncDecorator | gi/overrides/__init__.py:60-64 | the decorator registers the override and returns it unchanged, failing as RegisterFunc does |
| Overrides.Registry.Override | gi/overrides/__init__.py:67-73 | a function yields a decorator and changes nothing; a class is registered and returned itself |
| Overrides.RegisterThenLookUp | tests/test_overrides.py:48-51 | after the decorator, the registry holds the override under its key |
| Overrides.Deprecated | gi/overrides/__init__.py:76-85 | a distinct function from `gi.overrides` with the same name, doc, dict and info, which forwards to the original |
| Overrides.DeprecatedForwards | gi/overrides/__init__.py:76-85 | calling the wrapper gives the original's result, with one deprecation warning naming the function and its replacement before the original's warnings |
| Overrides.CallReachesCode | gi/overrides/__init__.py:76-85 | a chain of deprecation wrappers runs the innermost code on the same arguments and warns once per layer |

## Left out

- Python object model, reference counting (other than the GArray count), the GIL, capsules and their destructors: these are modelled as values and parameters.
- libffi closure preparation: the native closure is a fresh record in the closure heap. The closure factory's answer is the `factoryFails` parameter in `SignalClosureNew`.
- GObject Introspection repository queries: each is a parameter (`info`, `repo`, `infos`, `read`).
- `pygi_arg_base_setup`, `pygi_arg_callback_new_from_info` and `_callback_cache_free_func`: base argument setup and cache allocation come from the argument-cache machinery, which is not part of this model. Setup is modelled from the point where it succeeds.
- `_pygi_destroy_notify_dummy` and `_pygi_destroy_notify_callback_closure`: the notifier's native callbacks run only in C. The model records which notifier is stored.
- `_pygi_array_new`, `_pygi_array_releasebuffer`, `_struct_init`, `_pygi_struct_new_from_g_type`, the `repr` functions and the type registration functions are not part of this model. They were not named among the core operations.
- `pygi_wrapper_funcs_attach_static`, `pygi_wrapper_class_from_object_info` and `pygi_wrapper_class_new_from_object_info` are not part of this model. They wrap the modelled operations around repository lookups.
- `PyObject_CallObject` in `signal_closure_call`: the callback's own run and its result are not modelled. The model stops at the arguments it is called with, or at the TypeError the call raises.
- SignalClosure.CallArgs: does not record the IndexError that `PyList_SetItem` leaves pending when the list is empty. It only states that the list stays empty; the call that follows fails with TypeError either way (CallbackArgs). `PySequence_List` allocation failures are not modelled.
- `_generate_callable_info_doc`, `_generate_doc_dispatch` and the docstring generator hook: they only prefix the name or dispatch on the info class.
- Code generation plumbing: `magic_print`, the C templates, the `print_*` methods other than `print_wrapper_body`, `generate` and `main`. The wrapper body is modelled as the pieces it prints, not as C text.
- `os.path` in `ModuleBuilder.__init__`: the base name of `output` is the `outputStem` parameter.
- `str.lower` and `str.upper` are modelled on ASCII letters only, and `keyword.iskeyword` by the fixed Python 3 keyword list.
- `deprecated`: keyword arguments are folded into the argument list. The warning category (`PyGIDeprecationWarning`) and `stacklevel` are not modelled. Warnings filters are not modelled either: under a filter that turns the deprecation warning into an exception (`-W error`), the call stops at the warning and the original never runs, which DeprecatedForwards and CallReachesCode do not cover. The wrapped function is identified by an `id` field.
- Wrapper.Hash: assumes a 64-bit `long`. CPython's reading of a hash of -1 as an error is not modelled.
- Native.NativeHeap.Alloc: always succeeds, because the shape allocation it models (the `malloc` in the struct buffer export, gi/pygi-struct.c:332) is never checked for NULL. A failed `malloc` there is not modelled.
- Wrapper.Registry.DestroyClass: models the `Py_DECREF` of a half-built class as destroying it at once. CPython frees heap types through the cyclic garbage collector, so the class (and its funcs block) may outlive the call. QdataOutlivesClass holds either way.
- Floating-point values appear only as format characters. Native memory holds integers.

## Findings

| source | as written | input that shows it | evidently intended | confidence | as-written member | corrected member |
|---|---|---|---|---|---|---|
| gi/pygi-wrapper.c:79-96 | the funcs block is zero-allocated and `copy_func`/`free_func` are never stored in it | any class created with a free function; deallocating its instance calls nothing | store the copy and free functions in the block | not executed | Wrapper.FreeIsNeverCalled | Wrapper.Registry.FuncsAttachIntended |
| gi/pygi-struct.c:272-273 | the integer-address branch sets `view->buf`, which line 325 overwrites with the still-NULL `buffer_ptr` | a buffer info whose buffer is the integer 4096 exports a NULL buffer | keep the given address as the buffer | not executed | StructWrapper.IntegerAddressIsDropped | StructWrapper.ResolveBufferIntended |
| gi/docstring.py:162-164 | the test reads the `skip_return` accessor without calling it, so `not info.skip_return` is always false and the return hint is never listed; behind it, ` or None` goes to the stale in-argument string `argstr` | `get_name()` returning a string documents as `()` instead of `() -> str`; once the call is added, a nullable return still loses ` or None`, and raises UnboundLocalError when there is no in-argument | call `skip_return()` and append ` or None` to the return hint | not executed | Docstring.ReturnHintIsNeverListed | Docstring.CallableSigIntended |
| gi/codegen/codegen.py:531-532 | the unref function is read with `get_ref_function()` | GObject.ParamSpec's info, with ref `g_param_spec_ref` and unref `g_param_spec_unref`, gets `g_param_spec_ref` as its unref function | `get_unref_function()` | not executed | Codegen.UnrefFunctionIsTheRefFunction | Codegen.NewClassBuilderIntended |
| gi/pygi-wrapper.c:248-257 | the qdata is set on the GType before `__gtype__`; when setting the attribute fails the class is released but the qdata keeps pointing at it | a new GType whose `__gtype__` assignment fails | register the class on the GType only once it is complete | not executed | Wrapper.QdataOutlivesClass | Wrapper.Registry.ClassNewFullIntended |
| gi/pygi-array.c:86-87 | DOUBLE maps to the format `D` | a GArray of doubles exports format `D`, which the struct module does not know as a double | `d` | not executed | ArrayBuffer.DoubleFormatIsNotStructDouble | ArrayBuffer.TagToFormatIntended |
| gi/pygi-struct.c:326-329 | `format` and `py_readonly` are uninitialised locals that stay unset when the buffer info omits them | a buffer info `(0, 4, 1)` requested with PyBUF_FORMAT exports an uninitialised format pointer | initialise them to NULL and False | not executed | StructWrapper.OmittedFormatIsStale | StructWrapper.StructViewIntended |
| gi/pygi-signal-closure.c:74-87 | with a swap object, the rewritten arguments are the list from `PySequence_List`, and `PyObject_CallObject` accepts only a tuple | any emission on a handler connected with a swap object: the call raises TypeError and the handler never runs | turn the list back into a tuple (`PyList_AsTuple`) before the call | not executed | SignalClosure.SwappedCallIsRefused | SignalClosure.CallbackArgsIntended |
