/** The parser object: the caller's context (request method, tag, version and
    request) and the position being evaluated, all updated in place by
    chained setters, and the instance `invoke` that checks a remote call
    against that context. */
module Parser {
  import opened Wrappers
  import opened Json
  import opened RemoteInvoke

  /** The default request method. */
  const DefaultMethod: string := "GET"

  class FunctionParser {
    var requestMethod: Option<string>
    var tag: Option<string>
    var version: int
    var request: Option<JsonObject>
    var key: Option<string>
    var parentPath: Option<string>
    var currentName: Option<string>
    var currentObject: Option<JsonObject>

    /** The no-argument constructor: method GET, no tag, version 0, no request. */
    constructor ()
      ensures requestMethod == Some(DefaultMethod) && tag.None? && version == 0 && request.None?
      ensures key.None? && parentPath.None? && currentName.None? && currentObject.None?
    {
      requestMethod := Some(DefaultMethod);
      tag := None;
      version := 0;
      request := None;
      key := None;
      parentPath := None;
      currentName := None;
      currentObject := None;
    }

    /** The four-argument constructor: a null method means GET; the other
        arguments are kept as given. */
    constructor With(requestMethod: Option<string>, tag: Option<string>, version: int, request: Option<JsonObject>)
      ensures this.requestMethod == (if requestMethod.None? then Some(DefaultMethod) else requestMethod)
      ensures this.tag == tag && this.version == version && this.request == request
      ensures key.None? && parentPath.None? && currentName.None? && currentObject.None?
    {
      this.requestMethod := if requestMethod.None? then Some(DefaultMethod) else requestMethod;
      this.tag := tag;
      this.version := version;
      this.request := request;
      key := None;
      parentPath := None;
      currentName := None;
      currentObject := None;
    }

    /** The caller the access checks see. */
    function Context(): (c: Caller)
      reads this
      ensures c.requestMethod == requestMethod && c.tag == tag && c.version == version
    {
      Caller(requestMethod, tag, version)
    }

    method SetMethod(m: Option<string>) returns (self: FunctionParser)
      modifies this`requestMethod
      ensures requestMethod == m && self == this
    {
      requestMethod := m;
      self := this;
    }

    method SetTag(t: Option<string>) returns (self: FunctionParser)
      modifies this`tag
      ensures tag == t && self == this
    {
      tag := t;
      self := this;
    }

    method SetVersion(v: int) returns (self: FunctionParser)
      modifies this`version
      ensures version == v && self == this
    {
      version := v;
      self := this;
    }

    method SetRequest(r: Option<JsonObject>) returns (self: FunctionParser)
      modifies this`request
      ensures request == r && self == this
    {
      request := r;
      self := this;
    }

    method SetKey(k: Option<string>) returns (self: FunctionParser)
      modifies this`key
      ensures key == k && self == this
    {
      key := k;
      self := this;
    }

    method SetParentPath(p: Option<string>) returns (self: FunctionParser)
      modifies this`parentPath
      ensures parentPath == p && self == this
    {
      parentPath := p;
      self := this;
    }

    method SetCurrentName(n: Option<string>) returns (self: FunctionParser)
      modifies this`currentName
      ensures currentName == n && self == this
    {
      currentName := n;
      self := this;
    }

    method SetCurrentObject(o: Option<JsonObject>) returns (self: FunctionParser)
      modifies this`currentObject
      ensures currentObject == o && self == this
    {
      currentObject := o;
      self := this;
    }

    /** The instance `invoke(function, currentObject, containRaw)`: the static
        `invoke` with this parser's context; it changes nothing. */
    method Invoke(cfg: Config, lib: Library, raw: map<string, string>, registry: map<string, Row>,
                  backend: Backend, call: string, current: JsonObject, containRaw: bool)
      returns (r: Result<Value, Fault>)
      ensures r == RemoteInvoke.Invoke(cfg, Context(), lib, raw, registry, backend, call, current, containRaw)
      ensures !cfg.enableRemote ==> r == Err(UnsupportedOperation(RemoteDisabled))
    {
      var caller := Caller(requestMethod, tag, version);
      r := RemoteInvoke.Invoke(cfg, caller, lib, raw, registry, backend, call, current, containRaw);
    }
  }

  /** The conditions under which a parser's request method alone decides
      the row checks: remote functions on, the call parses, and its row is a
      native function with no version floor and no tag and a method list. */
  predicate MethodDecides(cfg: Config, lib: Library, raw: map<string, string>, registry: map<string, Row>,
                          call: string, current: JsonObject, containRaw: bool)
  {
    && cfg.enableRemote
    && var p := Parsed(cfg, lib, raw, call, current, containRaw);
    && p.Ok? && p.value.name in registry
    && var row := registry[p.value.name];
    && row.kind == RemoteFunction && row.version <= 0 && row.tag.None?
    && AllowedMethods(row, lib).Some?
  }

  lemma DefaultPasses(cfg: Config, lib: Library, raw: map<string, string>, registry: map<string, Row>,
                      call: string, current: JsonObject, containRaw: bool)
    requires MethodDecides(cfg, lib, raw, registry, call, current, containRaw)
    requires var fb := Parsed(cfg, lib, raw, call, current, containRaw).value;
      DefaultMethod in AllowedMethods(registry[fb.name], lib).value
    ensures Gate(cfg, Caller(Some(DefaultMethod), None, 0), lib, raw, registry, call, current, containRaw).Ok?
  {
    var fb := Parsed(cfg, lib, raw, call, current, containRaw).value;
    assert Checks(cfg, Caller(Some(DefaultMethod), None, 0), lib, registry, fb) == Ok(registry[fb.name]);
  }

  lemma ClearedFails(cfg: Config, lib: Library, raw: map<string, string>, registry: map<string, Row>,
                     backend: Backend, call: string, current: JsonObject, containRaw: bool)
    requires MethodDecides(cfg, lib, raw, registry, call, current, containRaw)
    ensures RemoteInvoke.Invoke(cfg, Caller(None, None, 0), lib, raw, registry, backend, call, current, containRaw)
         == Err(NullPointer)
  {
    var fb := Parsed(cfg, lib, raw, call, current, containRaw).value;
    assert Checks(cfg, Caller(None, None, 0), lib, registry, fb) == Err(NullPointer);
    assert Gate(cfg, Caller(None, None, 0), lib, raw, registry, call, current, containRaw) == Err(NullPointer);
  }

  /** A parser built without a method passes the method check of any row that
      lists GET, while one whose method was cleared by the setter fails every
      row with a method list with a null pointer. */
  method MethodDefault(cfg: Config, lib: Library, raw: map<string, string>, registry: map<string, Row>,
                       backend: Backend, call: string, current: JsonObject, containRaw: bool)
    returns (built: Result<Value, Fault>, cleared: Result<Value, Fault>)
    requires MethodDecides(cfg, lib, raw, registry, call, current, containRaw)
    requires var fb := Parsed(cfg, lib, raw, call, current, containRaw).value;
      DefaultMethod in AllowedMethods(registry[fb.name], lib).value
    ensures built == RemoteInvoke.Invoke(cfg, Caller(Some(DefaultMethod), None, 0), lib, raw, registry,
                                          backend, call, current, containRaw)
    ensures Gate(cfg, Caller(Some(DefaultMethod), None, 0), lib, raw, registry, call, current, containRaw).Ok?
    ensures cleared == Err(NullPointer)
  {
    var p := new FunctionParser();
    built := p.Invoke(cfg, lib, raw, registry, backend, call, current, containRaw);
    DefaultPasses(cfg, lib, raw, registry, call, current, containRaw);
    var same := p.SetMethod(None);
    cleared := same.Invoke(cfg, lib, raw, registry, backend, call, current, containRaw);
    ClearedFails(cfg, lib, raw, registry, backend, call, current, containRaw);
  }
}
