/** The values a request document holds, the class tags the parser records for
    native dispatch, the faults the parser and the dispatcher raise, and the
    library routines whose bodies are not part of this model. */
module Json {
  import opened Wrappers

  /** A value found in a JSON request, or any other object a Java `JSONObject`
      may hold (`Opaque`, named by its class). Numbers are abstract reals:
      floating-point rounding is not modelled. */
  datatype Value =
    | Null
    | Bool(b: bool)
    | Num(n: real)
    | Str(s: string)
    | Obj(fields: map<string, Value>)
    | Arr(items: seq<Value>)
    | Opaque(className: string)

  /** A `JSONObject`: get-by-key over string keys. */
  type JsonObject = map<string, Value>

  /** `JSONObject.get`: a missing key reads as null. */
  function Get(obj: JsonObject, key: string): (r: Value)
    ensures key in obj ==> r == obj[key]
    ensures !r.Null? ==> key in obj
  {
    if key in obj then obj[key] else Null
  }

  /** The parameter classes `parseFunction` records in `types[]`. */
  datatype ClassTag =
    | BooleanClass
    | NumberClass
    | StringClass
    | MapClass
    | ListClass
    | ObjectClass
    | JSONObjectClass

  /** What the callable itself threw, as carried by an `InvocationTargetException`. */
  datatype Thrown = Thrown(className: string, message: Option<string>, isException: bool)

  /** Why a call is refused with `UnsupportedOperationException`. */
  datatype Denial =
    | RemoteDisabled
    | NotRegistered(name: string)
    | BadType(kind: int)
    | ScriptDisabled(kind: int)
    | VersionTooLow(callerVersion: int, minVersion: int)
    | TagMismatch(callerTag: Option<string>, requiredTag: string)
    | MethodNotAllowed(callerMethod: string, allowed: seq<string>)

  /** Why a call is refused with `IllegalArgumentException`. */
  datatype Issue =
    | BadFunctionName(name: Option<string>)
    | SchemaNotAllowed(schema: string)
    | BadSchemaName(schema: string)
    | NoSuchRemoteFunction(call: string, signature: string)
    | RemoteArgumentMismatch(call: string, signature: string)

  /** The Java exceptions of the core, by class. */
  datatype Fault =
    | UnsupportedOperation(denial: Denial)
    | IllegalArgument(issue: Issue)
    | UnsupportedDataType(key: string)
    | StringIndexOutOfBounds
    | NullPointer
    | WrongMethodType(name: string, actual: Option<string>, declared: Option<string>)
    | NoSuchMethod(name: string)
    | InvocationTarget(target: Thrown)
    | Raised(thrown: Thrown)

  /** The library routines the core calls but whose bodies are not part of this
      model, as uninterpreted functions: `StringUtil.isName`,
      `StringUtil.isEmpty(s, true)`, `StringUtil.split`, `StringUtil.isSmallName`
      and `Double.valueOf` (None when it throws). A null argument is handled at
      each call site: null is not a name, is empty, is not a small name, and
      splits to null. */
  datatype Library = Library(
    isName: string -> bool,
    isBlank: string -> bool,
    split: string -> Option<seq<string>>,
    isSmallName: string -> bool,
    parseDouble: string -> Option<real>)

  /** `StringUtil.isEmpty(s, true)` on a possibly-null string. */
  predicate Blank(lib: Library, s: Option<string>)
  {
    s.None? || lib.isBlank(s.value)
  }
}
