/**
 * Vocabulary shared by the marshalling core: the introspection enums
 * (type tags, transfer, scope, info kinds), an Option/Result pair for the
 * source's NULL returns and raised exceptions, and an abstract view of the
 * Python values the core inspects.
 */
module GI {

  datatype Option<+T> = None | Some(value: T)

  datatype Result<+T, +E> = Success(value: T) | Failure(error: E)

  /** The Python exception classes the core raises (or that a collaborator raised). */
  datatype PyError =
    | TypeError
    | KeyError
    | IndexError
    | MemoryError
    | AttributeError
    | AssertionError
    | NotImplementedError
    | UnboundLocalError
    | RuntimeWarningError   // a RuntimeWarning escalated to an error by the warnings filter
    | NoExceptionSet        // -1 returned without setting any Python exception
    | CollaboratorError     // raised by code that is not part of this model

  /** GITypeTag, in the order of the GObject-Introspection enumeration. */
  datatype TypeTag =
    | Void | Boolean
    | Int8 | UInt8 | Int16 | UInt16 | Int32 | UInt32 | Int64 | UInt64
    | Float | Double | GType | Utf8 | Filename
    | Array | Interface | GList | GSList | GHash | Error | Unichar

  predicate IsSignedIntTag(t: TypeTag) { t.Int8? || t.Int16? || t.Int32? || t.Int64? }

  predicate IsUnsignedIntTag(t: TypeTag) { t.UInt8? || t.UInt16? || t.UInt32? || t.UInt64? }

  /** GITransfer: who owns native memory after a conversion. */
  datatype Transfer = Nothing | Container | Everything

  /** GIScopeType: lifetime rule of a callback closure. */
  datatype ScopeType = InvalidScope | Call | Async | Notified

  /** GIDirection of an argument as the introspection data declares it. */
  datatype Direction = In | Out | InOut

  /** GIInfoType: the kind of an introspection info. */
  datatype InfoType =
    | InvalidKind | FunctionKind | CallbackKind | StructKind | BoxedKind
    | EnumKind | FlagsKind | ObjectKind | InterfaceKind | ConstantKind
    | UnionKind | ValueKind | SignalKind | VFuncKind | PropertyKind
    | FieldKind | ArgKind | TypeKind | UnresolvedKind

  /** A GType is a number; G_TYPE_INVALID and G_TYPE_NONE are the first two fundamentals. */
  type GTypeId = nat

  const G_TYPE_INVALID: GTypeId := 0
  const G_TYPE_NONE: GTypeId := 4

  /**
   * The Python values the core distinguishes: None, the placeholder the
   * invoker substitutes for an omitted defaulted argument, callables,
   * tuples, and every other object by identity.
   */
  datatype PyValue =
    | PyNone
    | PyDefaultPlaceholder
    | PyCallable(id: nat)
    | PyTuple(items: seq<PyValue>)
    | PyObject(id: nat)

  predicate IsCallable(v: PyValue) { v.PyCallable? }

  /** `sep.join(parts)` */
  function Join(parts: seq<string>, sep: string): string
  {
    if parts == [] then ""
    else if |parts| == 1 then parts[0]
    else Join(parts[..|parts| - 1], sep) + sep + parts[|parts| - 1]
  }

  /** The pointer-sized value a native argument slot or a struct field holds. */
  datatype Ptr = Null | Addr(address: nat)
}
