/** The static `invoke`: the ordered, fail-closed access checks a remote
    function call must pass against its registry row and the caller, the
    dispatch to the native or script callable, and the remapping of the
    reflection faults that dispatch raises. */
module RemoteInvoke {
  import opened Wrappers
  import opened Json
  import opened FunctionParse
  import opened Render

  /** `TYPE_REMOTE_FUNCTION` and `TYPE_SCRIPT_FUNCTION`. */
  const RemoteFunction: int := 0
  const ScriptFunction: int := 1

  /** The process-wide switches: `ENABLE_REMOTE_FUNCTION`,
      `ENABLE_SCRIPT_FUNCTION`, `IS_PARSE_ARG_VALUE` and `Log.DEBUG`. */
  datatype Config = Config(enableRemote: bool, enableScript: bool, parseArgValue: bool, debug: bool)

  /** What the parser knows about the request being served: its method (by
      the name of its `RequestMethod` constant, null possible), its tag and its
      version. */
  datatype Caller = Caller(requestMethod: Option<string>, tag: Option<string>, version: int)

  /** A row of `FUNCTION_MAP`, read with `getIntValue` (a missing number reads
      as 0) and `getString` (a missing string reads as null). */
  datatype Row = Row(kind: int, version: int, tag: Option<string>, methods: Option<string>, returnType: Option<string>)

  /** The callables themselves, which Java reaches by reflection and through
      the script engine:
      - `returnTypeOf(name, types)`: the simple name of the return type of the
        public method `getMethod(name, types)` finds, None when it throws
        `NoSuchMethodException`;
      - `call(name, args)`: `Method.invoke`;
      - `script(name, types, args)`: the script path up to its result;
      - `assignable(fullName, v)`: `Class.forName(fullName).isAssignableFrom`
        the class of `v`, false also when the class is not found. */
  datatype Backend = Backend(
    returnTypeOf: (string, seq<Option<ClassTag>>) -> Option<string>,
    call: (string, seq<Value>) -> Result<Value, Fault>,
    script: (string, seq<Option<ClassTag>>, seq<Value>) -> Result<Value, Fault>,
    assignable: (string, Value) -> bool)

  /** A return type named `void` counts as none. */
  function Normalize(t: Option<string>): (r: Option<string>)
    ensures r.None? <==> t.None? || t == Some("void")
    ensures r.Some? ==> r == t
  {
    if t == Some("void") then None else t
  }

  /** The debug check of a native method's return type against the declared
      one: after `void` is read as none, both absent or the same text. */
  function NativeReturnTypeMatches(actual: Option<string>, declared: Option<string>): (ok: bool)
    ensures ok <==> Normalize(actual) == Normalize(declared)
  {
    var rt, returnType := Normalize(actual), Normalize(declared);
    var mismatch := !(rt.None? && returnType.None?)
                    && (rt.None? || returnType.None? || rt.value != returnType.value);
    !mismatch
  }

  /** The class name a script's declared return type stands for: a small
      name as it is, a `JSON...` name in `com.alibaba.fastjson`, anything else
      in `java.lang`; a null declared type fails on `startsWith`. */
  function FullReturnType(returnType: Option<string>, lib: Library): (r: Result<string, Fault>)
    ensures r.Err? <==> returnType.None?
    ensures r.Err? ==> r.error == NullPointer
    ensures r.Ok? ==> var t := returnType.value;
      && (r.value == t || r.value == "com.alibaba.fastjson." + t || r.value == "java.lang." + t)
      && (r.value == t <==> lib.isSmallName(t))
      && (r.value == "com.alibaba.fastjson." + t <==> !lib.isSmallName(t) && |t| >= 4 && t[..4] == "JSON")
  {
    if returnType.None? then Err(NullPointer)
    else
      var t := returnType.value;
      if lib.isSmallName(t) then Ok(t)
      else Ok((if |t| >= 4 && t[..4] == "JSON" then "com.alibaba.fastjson." else "java.lang.") + t)
  }

  /** The row's `methods` split into a list; a null or empty list means
      every method is allowed. */
  function AllowedMethods(row: Row, lib: Library): (r: Option<seq<string>>)
    ensures r.Some? ==> |r.value| > 0 && row.methods.Some? && lib.split(row.methods.value) == r
    ensures r.None? ==> row.methods.None? || lib.split(row.methods.value) in {None, Some([])}
  {
    if row.methods.None? then None
    else match lib.split(row.methods.value)
      case None => None
      case Some(ms) => if |ms| <= 0 then None else Some(ms)
  }

  /** The parsed call the checks refer to: never an SQL function, so a
      result's schema is null or blank; values resolved only when
      `IS_PARSE_ARG_VALUE`. */
  function Parsed(cfg: Config, lib: Library, raw: map<string, string>, call: string,
                  current: JsonObject, containRaw: bool): (r: Result<FunctionBean, Fault>)
    ensures r.Ok? ==> r.value.call == call && lib.isName(r.value.name) && Blank(lib, r.value.schema)
  {
    FunctionBeanOf(call, current, false, containRaw, cfg.parseArgValue, lib, raw)
  }

  /** The checks of the static `invoke` that follow the parse, in their
      order, each failing closed: a registry row for the method, a type in
      [0, 1], scripts enabled for type 1, a caller version not below the
      row's, the row's tag (when it has one) equal to the caller's, and the
      caller's method in the row's list (when it has one). On success, the row. */
  function Checks(cfg: Config, caller: Caller, lib: Library, registry: map<string, Row>, fb: FunctionBean)
    : (r: Result<Row, Fault>)
    ensures r.Err? ==> r.error.UnsupportedOperation? || r.error == NullPointer
    ensures r.Err? && r.error == NullPointer ==> caller.requestMethod.None?
    ensures r.Ok? ==> fb.name in registry && r.value == registry[fb.name]
                      && RemoteFunction <= r.value.kind <= ScriptFunction
  {
    if fb.name !in registry then Err(UnsupportedOperation(NotRegistered(fb.name)))
    else
      var row := registry[fb.name];
      if row.kind < RemoteFunction || row.kind > ScriptFunction then
        Err(UnsupportedOperation(BadType(row.kind)))
      else if !cfg.enableScript && row.kind == ScriptFunction then
        Err(UnsupportedOperation(ScriptDisabled(row.kind)))
      else if caller.version < row.version then
        Err(UnsupportedOperation(VersionTooLow(caller.version, row.version)))
      else if row.tag.Some? && Some(row.tag.value) != caller.tag then
        Err(UnsupportedOperation(TagMismatch(caller.tag, row.tag.value)))
      else match AllowedMethods(row, lib)
        case None => Ok(row)
        case Some(ml) =>
          if caller.requestMethod.None? then Err(NullPointer)
          else if caller.requestMethod.value !in ml then
            Err(UnsupportedOperation(MethodNotAllowed(caller.requestMethod.value, ml)))
          else Ok(row)
  }

  /** The gate of the static `invoke`: remote functions enabled (checked
      before anything is parsed), the call parses, then the row checks. On
      success, the parsed call and its row. */
  function Gate(cfg: Config, caller: Caller, lib: Library, raw: map<string, string>,
                registry: map<string, Row>, call: string, current: JsonObject, containRaw: bool)
    : (r: Result<(FunctionBean, Row), Fault>)
    ensures !cfg.enableRemote ==> r == Err(UnsupportedOperation(RemoteDisabled))
    ensures r.Err? ==> !r.error.NoSuchMethod? && !r.error.InvocationTarget? && !r.error.WrongMethodType?
    ensures r.Ok? ==> var (fb, row) := r.value;
      && Parsed(cfg, lib, raw, call, current, containRaw) == Ok(fb)
      && fb.name in registry && row == registry[fb.name]
      && RemoteFunction <= row.kind <= ScriptFunction
  {
    if !cfg.enableRemote then Err(UnsupportedOperation(RemoteDisabled))
    else
      var fb :- Parsed(cfg, lib, raw, call, current, containRaw);
      var row :- Checks(cfg, caller, lib, registry, fb);
      Ok((fb, row))
  }

  /** The inner `invoke`: a script row goes to the script path, whose non-null
      result is checked (in debug) against the qualified declared type; a
      native row needs the method to exist and (in debug) its return type to
      match the declared one before it is called. */
  function Dispatch(cfg: Config, backend: Backend, fb: FunctionBean, row: Row, lib: Library): (r: Result<Value, Fault>)
    ensures row.kind != ScriptFunction && backend.returnTypeOf(fb.name, fb.types).None? ==>
      r == Err(NoSuchMethod(fb.name))
    ensures row.kind != ScriptFunction && backend.returnTypeOf(fb.name, fb.types).Some? ==>
      var rt := backend.returnTypeOf(fb.name, fb.types);
      && (cfg.debug && !NativeReturnTypeMatches(rt, row.returnType) ==>
            r == Err(WrongMethodType(fb.name, Normalize(rt), Normalize(row.returnType))))
      && (!cfg.debug || NativeReturnTypeMatches(rt, row.returnType) ==> r == backend.call(fb.name, fb.values))
    ensures row.kind == ScriptFunction ==>
      var s := backend.script(fb.name, fb.types, fb.values);
      && (s.Err? ==> r == s)
      && (s.Ok? && (!cfg.debug || s.value == Null) ==> r == s)
      && (s.Ok? && cfg.debug && s.value != Null && row.returnType.None? ==> r == Err(NullPointer))
      && (s.Ok? && cfg.debug && s.value != Null && row.returnType.Some? ==>
            var full := FullReturnType(row.returnType, lib).value;
            && (backend.assignable(full, s.value) ==> r == s)
            && (!backend.assignable(full, s.value) ==> r == Err(WrongMethodType(fb.name, None, Some(full)))))
  {
    if row.kind == ScriptFunction then
      var v :- backend.script(fb.name, fb.types, fb.values);
      if cfg.debug && v != Null then
        var full :- FullReturnType(row.returnType, lib);
        if backend.assignable(full, v) then Ok(v) else Err(WrongMethodType(fb.name, None, Some(full)))
      else Ok(v)
    else
      match backend.returnTypeOf(fb.name, fb.types)
      case None => Err(NoSuchMethod(fb.name))
      case Some(rt) =>
        if cfg.debug && !NativeReturnTypeMatches(Some(rt), row.returnType) then
          Err(WrongMethodType(fb.name, Normalize(Some(rt)), Normalize(row.returnType)))
        else backend.call(fb.name, fb.values)
  }

  /** The `catch` around dispatch: a missing method becomes an illegal
      argument naming the expected signature; a fault thrown by the callable
      is rethrown when it carries a message (as an `Exception`), and becomes an
      illegal argument about the argument types otherwise; anything else
      passes unchanged. No reflection wrapper escapes. */
  function Remap(call: string, fb: FunctionBean, e: Fault, lib: Library): (r: Fault)
    ensures !r.NoSuchMethod? && !r.InvocationTarget?
    ensures e.NoSuchMethod? ==> r == IllegalArgument(NoSuchRemoteFunction(call, Signature(fb.name, fb.keys)))
    ensures e.InvocationTarget? && !Blank(lib, e.target.message) ==>
      r.Raised? && r.thrown.message == e.target.message && r.thrown.isException
      && (e.target.isException ==> r.thrown == e.target)
    ensures e.InvocationTarget? && Blank(lib, e.target.message) ==>
      r == IllegalArgument(RemoteArgumentMismatch(call, Signature(fb.name, fb.keys)))
    ensures !e.NoSuchMethod? && !e.InvocationTarget? ==> r == e
  {
    match e
    case NoSuchMethod(_) => IllegalArgument(NoSuchRemoteFunction(call, Signature(fb.name, fb.keys)))
    case InvocationTarget(te) =>
      if !Blank(lib, te.message) then
        Raised(if te.isException then te else Thrown("java.lang.Exception", te.message, true))
      else IllegalArgument(RemoteArgumentMismatch(call, Signature(fb.name, fb.keys)))
    case _ => e
  }

  /** The static `invoke(parser, function, currentObject, containRaw)`. */
  function Invoke(cfg: Config, caller: Caller, lib: Library, raw: map<string, string>,
                  registry: map<string, Row>, backend: Backend,
                  call: string, current: JsonObject, containRaw: bool): (r: Result<Value, Fault>)
    ensures var g := Gate(cfg, caller, lib, raw, registry, call, current, containRaw);
      g.Err? ==> r == Err(g.error)
    ensures r.Err? ==> !r.error.NoSuchMethod? && !r.error.InvocationTarget?
  {
    var (fb, row) :- Gate(cfg, caller, lib, raw, registry, call, current, containRaw);
    match Dispatch(cfg, backend, fb, row, lib)
    case Ok(v) => Ok(v)
    case Err(e) => Err(Remap(call, fb, e, lib))
  }
}

/** What the access checks guarantee. */
module RemoteInvokeProofs {
  import opened Wrappers
  import opened Json
  import opened FunctionParse
  import opened RemoteInvoke

  /** Every condition the caller and the row must meet, all at once. */
  predicate Admitted(cfg: Config, caller: Caller, lib: Library, fb: FunctionBean, registry: map<string, Row>)
  {
    && fb.name in registry
    && var row := registry[fb.name];
    && RemoteFunction <= row.kind <= ScriptFunction
    && (cfg.enableScript || row.kind != ScriptFunction)
    && caller.version >= row.version
    && (row.tag.None? || caller.tag == row.tag)
    && (AllowedMethods(row, lib).None?
        || (caller.requestMethod.Some? && caller.requestMethod.value in AllowedMethods(row, lib).value))
  }

  /** The row checks pass exactly when every condition holds. */
  lemma ChecksAdmit(cfg: Config, caller: Caller, lib: Library, registry: map<string, Row>, fb: FunctionBean)
    ensures Checks(cfg, caller, lib, registry, fb).Ok? <==> Admitted(cfg, caller, lib, fb, registry)
  {
    if fb.name in registry {
      var row := registry[fb.name];
      if row.tag.Some? {
        assert (Some(row.tag.value) != caller.tag) == (caller.tag != row.tag);
      }
    }
  }

  /** The gate lets a call through exactly when remote functions are on, the
      call parses, and every check on its row holds. */
  lemma GateAdmits(cfg: Config, caller: Caller, lib: Library, raw: map<string, string>,
                   registry: map<string, Row>, call: string, current: JsonObject, containRaw: bool)
    ensures var p := Parsed(cfg, lib, raw, call, current, containRaw);
      Gate(cfg, caller, lib, raw, registry, call, current, containRaw).Ok?
      <==> cfg.enableRemote && p.Ok? && Admitted(cfg, caller, lib, p.value, registry)
  {
    var p := Parsed(cfg, lib, raw, call, current, containRaw);
    if p.Ok? {
      ChecksAdmit(cfg, caller, lib, registry, p.value);
    }
  }

  /** The order in which the row checks report a refusal: each check's
      denial is reported only when every earlier check passed. */
  lemma ChecksOrder(cfg: Config, caller: Caller, lib: Library, registry: map<string, Row>, fb: FunctionBean)
    ensures var r := Checks(cfg, caller, lib, registry, fb);
      && (fb.name !in registry ==> r == Err(UnsupportedOperation(NotRegistered(fb.name))))
      && (fb.name in registry ==>
            var row := registry[fb.name];
            && (!(RemoteFunction <= row.kind <= ScriptFunction) ==> r == Err(UnsupportedOperation(BadType(row.kind))))
            && (row.kind == ScriptFunction && !cfg.enableScript ==> r == Err(UnsupportedOperation(ScriptDisabled(row.kind))))
            && (RemoteFunction <= row.kind <= ScriptFunction && (cfg.enableScript || row.kind != ScriptFunction) ==>
                  && (caller.version < row.version ==>
                        r == Err(UnsupportedOperation(VersionTooLow(caller.version, row.version))))
                  && (caller.version >= row.version && row.tag.Some? && caller.tag != row.tag ==>
                        r == Err(UnsupportedOperation(TagMismatch(caller.tag, row.tag.value))))
                  && (caller.version >= row.version && (row.tag.None? || caller.tag == row.tag) ==>
                        && (AllowedMethods(row, lib).Some? && caller.requestMethod.None? ==> r == Err(NullPointer))
                        && (AllowedMethods(row, lib).Some? && caller.requestMethod.Some?
                            && caller.requestMethod.value !in AllowedMethods(row, lib).value ==>
                              r == Err(UnsupportedOperation(MethodNotAllowed(
                                     caller.requestMethod.value, AllowedMethods(row, lib).value)))))))
  {
    if fb.name in registry {
      var row := registry[fb.name];
      if row.tag.Some? {
        assert (Some(row.tag.value) != caller.tag) == (caller.tag != row.tag);
      }
    }
  }

  /** The order of the whole gate: remote functions disabled is reported
      before anything is parsed, a parse fault before any row is consulted,
      and then the row checks in their order. */
  lemma DenialOrder(cfg: Config, caller: Caller, lib: Library, raw: map<string, string>,
                    registry: map<string, Row>, call: string, current: JsonObject, containRaw: bool)
    ensures var p := Parsed(cfg, lib, raw, call, current, containRaw);
      var r := Gate(cfg, caller, lib, raw, registry, call, current, containRaw);
      && (!cfg.enableRemote ==> r == Err(UnsupportedOperation(RemoteDisabled)))
      && (cfg.enableRemote && p.Err? ==> r == Err(p.error))
      && (cfg.enableRemote && p.Ok? ==>
            var c := Checks(cfg, caller, lib, registry, p.value);
            && (c.Err? ==> r == Err(c.error))
            && (c.Ok? ==> r == Ok((p.value, c.value))))
  {
  }

  /** A refused call never reaches dispatch: whatever the callables do, its
      outcome is the gate's fault. */
  lemma RefusedNeverDispatched(cfg: Config, caller: Caller, lib: Library, raw: map<string, string>,
                               registry: map<string, Row>, b1: Backend, b2: Backend,
                               call: string, current: JsonObject, containRaw: bool)
    requires Gate(cfg, caller, lib, raw, registry, call, current, containRaw).Err?
    ensures Invoke(cfg, caller, lib, raw, registry, b1, call, current, containRaw)
         == Invoke(cfg, caller, lib, raw, registry, b2, call, current, containRaw)
         == Err(Gate(cfg, caller, lib, raw, registry, call, current, containRaw).error)
  {
  }

  /** A newer caller never loses access: raising the caller's version keeps
      the row checks' verdict on an admitted call. */
  lemma VersionMonotone(cfg: Config, caller: Caller, v: int, lib: Library,
                        registry: map<string, Row>, fb: FunctionBean)
    requires Checks(cfg, caller, lib, registry, fb).Ok?
    requires v >= caller.version
    ensures Checks(cfg, caller.(version := v), lib, registry, fb) == Checks(cfg, caller, lib, registry, fb)
  {
    ChecksAdmit(cfg, caller, lib, registry, fb);
    ChecksAdmit(cfg, caller.(version := v), lib, registry, fb);
  }

  /** A row without a tag does not look at the caller's tag. */
  lemma UntaggedRow(cfg: Config, caller: Caller, tag: Option<string>, lib: Library,
                    registry: map<string, Row>, fb: FunctionBean)
    requires fb.name in registry && registry[fb.name].tag.None?
    ensures Checks(cfg, caller.(tag := tag), lib, registry, fb) == Checks(cfg, caller, lib, registry, fb)
  {
  }

  /** A row without a method list (null or empty) does not look at the
      caller's method. */
  lemma UnlistedRow(cfg: Config, caller: Caller, requestMethod: Option<string>, lib: Library,
                    registry: map<string, Row>, fb: FunctionBean)
    requires fb.name in registry && AllowedMethods(registry[fb.name], lib).None?
    ensures Checks(cfg, caller.(requestMethod := requestMethod), lib, registry, fb)
         == Checks(cfg, caller, lib, registry, fb)
  {
  }

  /** Gate, dispatch and remapping together: a successful call is an admitted
      one whose callable returned that value, and a failed admitted call
      reports the remapped fault of its dispatch. */
  lemma InvokeOutcome(cfg: Config, caller: Caller, lib: Library, raw: map<string, string>,
                      registry: map<string, Row>, backend: Backend,
                      call: string, current: JsonObject, containRaw: bool)
    ensures var g := Gate(cfg, caller, lib, raw, registry, call, current, containRaw);
      var r := Invoke(cfg, caller, lib, raw, registry, backend, call, current, containRaw);
      && (r.Ok? ==> g.Ok? && Dispatch(cfg, backend, g.value.0, g.value.1, lib) == r)
      && (g.Ok? && Dispatch(cfg, backend, g.value.0, g.value.1, lib).Err? ==>
            r == Err(Remap(call, g.value.0, Dispatch(cfg, backend, g.value.0, g.value.1, lib).error, lib)))
  {
  }
}
