# APIJSON remote-function parser, modelled in Dafny

This project models the core of APIJSON's `AbstractFunctionParser`. That
class lets a JSON request name a server-side function, written as a call
expression such as `getCount(array,key)`. The model covers the parts of the
class that decide what such a call means and whether it may run:

- **Call-expression parser** (`parseFunction`): splits
  `[schema.]method(k0,k1,...)` into an optional schema, a method name and raw
  key tokens, and applies the naming rules. It then fills the parallel
  `types`/`values` arrays in one of two ways:
  - eager (`isSQLFunction || IS_PARSE_ARG_VALUE`): each key is resolved and
    tagged with its class, and the first null stops the loop;
  - lazy: the request object comes first, then every key as a string.
- **Argument resolver** (`getArgValue`): classifies one token, first match
  wins. The kinds, in order, are:
  - backtick reference;
  - single-quoted literal;
  - raw-SQL table hit;
  - name reference;
  - `true`/`false`;
  - number;
  - plain lookup.
- **Access gate** of the static `invoke`: a fixed sequence of fail-closed
  checks of the registry row (`FUNCTION_MAP`) against the caller's request
  method, tag and version. After it come the dispatch to a native or script
  callable and the remapping of reflection faults.
- **Native return-type check**: `void` is read as no type.
- **Script return-type qualification**: the class name a declared type
  stands for.
- **Renderers**: `getFunction`, the Java signature quoted in error
  messages, and `FunctionBean.toFunctionCallString`.
- **The parser object**: its mutable caller context, updated by chained
  setters. The constructor defaults a null request method to `GET`.

Layout:

| file | module | contents |
|---|---|---|
| `wrappers.dfy` | `Wrappers` | `Option`, `Result` |
| `json.dfy` | `Json` | request values, class tags, the faults (Java exceptions), the library routines |
| `strings.dfy` | `Strings` | `indexOf`, `lastIndexOf` |
| `arg_value.dfy` | `ArgResolver` | `getArgValue` and its precedence lemmas |
| `parse_function.dfy` | `FunctionParse`, `FunctionParseProofs` | `parseFunction` as a pure function; array-filling methods proved equal to it; its properties |
| `render.dfy` | `Render` | `getFunction`, `toFunctionCallString` |
| `invoke.dfy` | `RemoteInvoke`, `RemoteInvokeProofs` | the gate, dispatch, remapping and their properties |
| `parser.dfy` | `Parser` | the `FunctionParser` class with its fields and setters |

Functions the core calls but whose bodies are not part of this model are
parameters of the model. They are gathered in `Json.Library`:

- `StringUtil.isName`;
- `StringUtil.isEmpty(s, true)`;
- `StringUtil.split`;
- `StringUtil.isSmallName`;
- `Double.valueOf`.

Three further inputs are plain parameters: `AbstractSQLConfig.RAW_MAP` is a
`map<string, string>`, `FUNCTION_MAP` is a `map<string, Row>`, and a
`JSONObject` is a `map<string, Value>`. Reflection and the script engine are
`RemoteInvoke.Backend`, a record of functions. The process-wide switches are
`RemoteInvoke.Config`: `ENABLE_REMOTE_FUNCTION`, `ENABLE_SCRIPT_FUNCTION`,
`IS_PARSE_ARG_VALUE` and `Log.DEBUG`.

The model fixes how null reaches these helpers: null is never a name, null
is empty, null is not a small name, and `split(null)` is null. A Java null
is `None` for strings and `Null` for values. A thrown exception is an `Err`
holding a `Json.Fault`.

## Behaviour worth noting

- Script dispatch receives `fb.getValues()`
  (`AbstractFunctionParser.java:226`). `invoke` always parses with
  `isSQLFunction = false` (`:194`), so these are resolved values only when
  `IS_PARSE_ARG_VALUE` is set. Otherwise they are the request followed by
  the raw keys.
- A backtick-quoted token is looked up in the current object whether or
  not `containRaw` is set (`:571-572`).
- The quoted-form tests never look at a token's first character
  (`:571`, `:575`), so `ab'` resolves to the literal `b`.
- A one-character token `` ` `` or `'` passes the test
  and then throws `StringIndexOutOfBoundsException` at `substring(1, 0)`
  (`:572`, `:576`). The model returns that fault.

## Model

| member | source | states |
|---|---|---|
| Json.Get | APIJSONORM/src/main/java/apijson/orm/AbstractFunctionParser.java:572 | `JSONObject.get`: a stored key yields its value; a non-null result means the key is stored |
| Strings.IndexOf | APIJSONORM/src/main/java/apijson/orm/AbstractFunctionParser.java:446 | `indexOf`: -1 exactly when the character is absent, otherwise the index of its first occurrence |
| Strings.LastIndexOf | APIJSONORM/src/main/java/apijson/orm/AbstractFunctionParser.java:447 | `lastIndexOf`: -1 exactly when absent, otherwise the index of its last occurrence |
| ArgResolver.QuotedWith | APIJSONORM/src/main/java/apijson/orm/AbstractFunctionParser.java:571-575 | a token passes the quote test for `q` exactly when it ends with `q` and no `q` lies strictly between its first and last characters; a lone `q` passes |
| ArgResolver.StripAt | APIJSONORM/src/main/java/apijson/orm/AbstractFunctionParser.java:585 | the name an `@` reference checks: the token without its leading `@`, or the token itself |
| ArgResolver.ArgValue | APIJSONORM/src/main/java/apijson/orm/AbstractFunctionParser.java:565-618 | a null token resolves to null; resolution fails only on the one-character tokens `` ` `` and `'`, and then with an index-out-of-bounds fault |
| ArgResolver.BacktickReference | APIJSONORM/src/main/java/apijson/orm/AbstractFunctionParser.java:571-573 | `` c+inner+` `` with no backtick in `inner` is a lookup of `inner`, for any first character of the Basic Multilingual Plane and whatever `containRaw` |
| ArgResolver.QuotedLiteral | APIJSONORM/src/main/java/apijson/orm/AbstractFunctionParser.java:575-577 | `c+text+'` with no quote in `text` is the literal `text`, for any first character of the Basic Multilingual Plane, whatever the context and the raw table hold |
| ArgResolver.FirstCharacterUnchecked | APIJSONORM/src/main/java/apijson/orm/AbstractFunctionParser.java:575-577 | an illustration of `QuotedLiteral`: `ab'` resolves to the string `b`, since the first character is not checked |
| ArgResolver.RawTableNeedsPermission | APIJSONORM/src/main/java/apijson/orm/AbstractFunctionParser.java:580-583 | without `containRaw` the result does not depend on the raw table |
| ArgResolver.RawTableHit | APIJSONORM/src/main/java/apijson/orm/AbstractFunctionParser.java:580-583 | an unquoted token in the raw table yields the table's text; an empty text echoes the token |
| ArgResolver.NameReference | APIJSONORM/src/main/java/apijson/orm/AbstractFunctionParser.java:585-586 | a token that no quote test or raw-table hit claims and that is a name after an optional leading `@` is dropped is looked up as written |
| ArgResolver.AtReference | APIJSONORM/src/main/java/apijson/orm/AbstractFunctionParser.java:585-587 | `@name` with a name-valid rest is looked up with the `@` kept |
| ArgResolver.BooleanLiterals | APIJSONORM/src/main/java/apijson/orm/AbstractFunctionParser.java:580-594 | `true`/`false` are booleans only when neither a raw hit nor a name reference claims them first |
| ArgResolver.NumberOrLookup | APIJSONORM/src/main/java/apijson/orm/AbstractFunctionParser.java:607-617 | a token no earlier rule claims is a number when it parses as one, otherwise a plain lookup |
| FunctionParse.CallParts | APIJSONORM/src/main/java/apijson/orm/AbstractFunctionParser.java:446-448 | on success the call is `prefix(args)`, with `prefix` non-empty and free of `(` |
| FunctionParse.SchemaParts | APIJSONORM/src/main/java/apijson/orm/AbstractFunctionParser.java:450-452 | without a `.` the method is the whole prefix; otherwise the prefix is `schema.method` and the schema has no `.` |
| FunctionParse.EagerTag | APIJSONORM/src/main/java/apijson/orm/AbstractFunctionParser.java:490-515 | Boolean, Number, String, Map and List each get their own class; null and any other kind get none; no accepted kind is recorded as `Object` |
| FunctionParse.Eager | APIJSONORM/src/main/java/apijson/orm/AbstractFunctionParser.java:476-516 | on success one type and one value per key; an error is either an unsupported-type fault naming one of the keys or the fault some key's resolution raised |
| FunctionParse.KeyList | APIJSONORM/src/main/java/apijson/orm/AbstractFunctionParser.java:471 | the keys the loops run over: as many as `split` returned, none when it returned null |
| FunctionParse.Lazy | APIJSONORM/src/main/java/apijson/orm/AbstractFunctionParser.java:518-529 | slot 0 is `JSONObject`/request, slot i+1 is `String`/key i, length keys+1 |
| FunctionParse.Header | APIJSONORM/src/main/java/apijson/orm/AbstractFunctionParser.java:446-470 | the naming rules fail only with `IllegalArgumentException` |
| FunctionParse.FunctionBeanOf | APIJSONORM/src/main/java/apijson/orm/AbstractFunctionParser.java:444-540 | `parseFunction` fails only with an illegal-argument, unsupported-type or index fault; a result keeps the call text and has a name-valid method |
| FunctionParse.FillEager | APIJSONORM/src/main/java/apijson/orm/AbstractFunctionParser.java:476-516 | the eager loop over arrays, including its `break`, computes `Eager` |
| FunctionParse.FillPrefix | APIJSONORM/src/main/java/apijson/orm/AbstractFunctionParser.java:481-515 | the loop leaves at the first failing or null key, or past the last; every earlier slot is filled with its key's value and class, every later one unset |
| FunctionParse.FillSlot | APIJSONORM/src/main/java/apijson/orm/AbstractFunctionParser.java:482-514 | one turn: a failed resolution or an unsupported kind is the fault; null sets `Object`/null and stops; a supported value is stored with its class; no other slot changes |
| FunctionParse.EagerOutcome | APIJSONORM/src/main/java/apijson/orm/AbstractFunctionParser.java:476-516 | wherever the loop left, the eager result is its fault or the arrays as the loop left them |
| FunctionParse.FillLazy | APIJSONORM/src/main/java/apijson/orm/AbstractFunctionParser.java:518-529 | the lazy loop computes `Lazy`, with arrays of length keys+1 |
| FunctionParse.ParseHeader | APIJSONORM/src/main/java/apijson/orm/AbstractFunctionParser.java:446-470 | the imperative split and naming checks compute `Header` |
| FunctionParse.ParseFunction | APIJSONORM/src/main/java/apijson/orm/AbstractFunctionParser.java:444-540 | the whole method computes `FunctionBeanOf` |
| FunctionParseProofs.CallPartsExact | APIJSONORM/src/main/java/apijson/orm/AbstractFunctionParser.java:446-448 | the split finds `(prefix, args)` exactly when the call is `prefix(args)` with a non-empty, `(`-free prefix |
| FunctionParseProofs.HeaderNamingRules | APIJSONORM/src/main/java/apijson/orm/AbstractFunctionParser.java:446-470 | the header is accepted exactly when the naming rules hold; it then holds the split's schema, method and keys |
| FunctionParseProofs.ParseNamingRules | APIJSONORM/src/main/java/apijson/orm/AbstractFunctionParser.java:454-470 | `parseFunction` throws `IllegalArgumentException` exactly when a naming rule fails; otherwise schema, method and keys are the split's |
| FunctionParseProofs.LazyConvention | APIJSONORM/src/main/java/apijson/orm/AbstractFunctionParser.java:518-529 | lazy mode succeeds exactly when the names are valid; slot 0 is `JSONObject`/request and slot i+1 is `String`/key i, with no key resolved |
| FunctionParseProofs.EagerTagged | APIJSONORM/src/main/java/apijson/orm/AbstractFunctionParser.java:482-511 | every slot set to a class other than `Object` holds its key's resolved value, tagged with that value's class |
| FunctionParseProofs.EagerStopsAtNull | APIJSONORM/src/main/java/apijson/orm/AbstractFunctionParser.java:482-487 | an `Object` slot holds null, its key resolved to null, and every later slot is unset |
| FunctionParseProofs.EagerUnsetAfterStop | APIJSONORM/src/main/java/apijson/orm/AbstractFunctionParser.java:482-487 | an unset slot is never the first and follows an unset slot or the `Object` slot of the stop |
| FunctionParseProofs.EagerAllSet | APIJSONORM/src/main/java/apijson/orm/AbstractFunctionParser.java:482-511 | when no key resolves to null, every slot is set to a supported class |
| FunctionParseProofs.EagerFirstFailure | APIJSONORM/src/main/java/apijson/orm/AbstractFunctionParser.java:482-515 | after supported values, the first failed resolution or unsupported kind is the error, naming its key |
| Render.Signature | APIJSONORM/src/main/java/apijson/orm/AbstractFunctionParser.java:548-560 | the signature starts with the method name and `(JSONObject request` and ends with `)` |
| Render.GetFunction | APIJSONORM/src/main/java/apijson/orm/AbstractFunctionParser.java:548-560 | the accumulating loop yields `name(JSONObject request` + `, String k` per key + `)` |
| Render.ParamsAppend | APIJSONORM/src/main/java/apijson/orm/AbstractFunctionParser.java:551-555 | the parameter text of two key lists in sequence is the concatenation of their texts |
| Render.SignatureFront | APIJSONORM/src/main/java/apijson/orm/AbstractFunctionParser.java:548-560 | read from the front, each key contributes `, String k` in order |
| Render.SignatureNoKeys | APIJSONORM/src/main/java/apijson/orm/AbstractFunctionParser.java:548-560 | null keys and no keys both give `name(JSONObject request)` |
| Render.Text | APIJSONORM/src/main/java/apijson/orm/AbstractFunctionParser.java:697 | `toString` of an argument: `null`, `true`/`false`, a string itself; other kinds by `show` |
| Render.ArgText | APIJSONORM/src/main/java/apijson/orm/AbstractFunctionParser.java:697 | booleans and numbers bare; a string `s` as `q+s+q`; null as `q+"null"+q`; maps, lists and other objects quoted around their `show` text |
| Render.Texts | APIJSONORM/src/main/java/apijson/orm/AbstractFunctionParser.java:695-698 | one text per argument: a string `s` becomes `q+s+q`, a boolean `true`/`false`, a number its `show` text unquoted |
| Render.CallArgs | APIJSONORM/src/main/java/apijson/orm/AbstractFunctionParser.java:688 | the values when `useValue`; otherwise the keys as strings, one per key, and none for null keys |
| Render.CallString | APIJSONORM/src/main/java/apijson/orm/AbstractFunctionParser.java:683-702 | the call text starts with the method name and `(` and ends with `)` |
| Render.AppendArgs | APIJSONORM/src/main/java/apijson/orm/AbstractFunctionParser.java:694-698 | the loop appends each argument's text in turn, a comma before all but the first, which is the joined texts |
| Render.ToFunctionCallString | APIJSONORM/src/main/java/apijson/orm/AbstractFunctionParser.java:683-702 | the accumulating loop yields the method, `(`, the arguments (values or keys, default quote `'`) joined with `,`, then `)`; no schema |
| Render.JoinedAppend | APIJSONORM/src/main/java/apijson/orm/AbstractFunctionParser.java:695-698 | joining is comma-separated concatenation: a comma between two non-empty parts, none otherwise |
| Render.SeparatorCount | APIJSONORM/src/main/java/apijson/orm/AbstractFunctionParser.java:695-698 | when no argument text holds a comma, the joined text holds exactly one comma per pair of neighbours |
| Render.KeysCallString | APIJSONORM/src/main/java/apijson/orm/AbstractFunctionParser.java:686-701 | rendering the keys gives the method, `(`, each key between quotes joined with `,`, then `)` |
| Render.EmptyCall | APIJSONORM/src/main/java/apijson/orm/AbstractFunctionParser.java:686-701 | null or empty arguments give `name()` |
| Render.CallStringRoundTrip | APIJSONORM/src/main/java/apijson/orm/AbstractFunctionParser.java:686-701 | the rendered call splits back into the method name (no schema) and the joined arguments |
| RemoteInvoke.Normalize | APIJSONORM/src/main/java/apijson/orm/AbstractFunctionParser.java:285-290 | `void` and null read as no type; other names are kept |
| RemoteInvoke.NativeReturnTypeMatches | APIJSONORM/src/main/java/apijson/orm/AbstractFunctionParser.java:282-295 | the check passes exactly when the actual and declared types agree once `void` is read as absent |
| RemoteInvoke.FullReturnType | APIJSONORM/src/main/java/apijson/orm/AbstractFunctionParser.java:396-397 | a null type fails with a null pointer; a small name is kept; a `JSON...` name goes to `com.alibaba.fastjson.`, anything else to `java.lang.` |
| RemoteInvoke.AllowedMethods | APIJSONORM/src/main/java/apijson/orm/AbstractFunctionParser.java:219-220 | a list only when `methods` is present and splits to a non-empty list; otherwise unrestricted |
| RemoteInvoke.Parsed | APIJSONORM/src/main/java/apijson/orm/AbstractFunctionParser.java:194 | the call `invoke` parses is never an SQL function: a result's schema is null or blank, and a result keeps the call text and has a name-valid method |
| RemoteInvoke.Checks | APIJSONORM/src/main/java/apijson/orm/AbstractFunctionParser.java:196-223 | the row checks fail only with an unsupported-operation denial or, for a caller without a method, a null pointer; a pass yields the registry row, with type in [0, 1] |
| RemoteInvoke.Gate | APIJSONORM/src/main/java/apijson/orm/AbstractFunctionParser.java:188-223 | disabled remote functions refuse first; a refusal is never a reflection fault; an admitted call has a registry row with type in [0, 1] |
| RemoteInvoke.Dispatch | APIJSONORM/src/main/java/apijson/orm/AbstractFunctionParser.java:273-298 | a native method that is not found is `NoSuchMethod`; in debug a return-type mismatch is `WrongMethodType`; otherwise the callable's result. A script result is checked only in debug and when non-null: it fails with a null pointer without a declared type, and is kept when it is assignable to the qualified declared type, otherwise `WrongMethodType` |
| RemoteInvoke.Remap | APIJSONORM/src/main/java/apijson/orm/AbstractFunctionParser.java:228-245 | a missing method becomes an illegal argument naming the signature; a target with a message is rethrown as an `Exception`; one without becomes an argument-type illegal argument; other faults pass unchanged; no reflection wrapper escapes |
| RemoteInvoke.Invoke | APIJSONORM/src/main/java/apijson/orm/AbstractFunctionParser.java:188-247 | a refusal by the gate is the result; no `NoSuchMethod` or `InvocationTarget` fault ever escapes |
| RemoteInvokeProofs.ChecksAdmit | APIJSONORM/src/main/java/apijson/orm/AbstractFunctionParser.java:196-223 | the row checks pass exactly when the row exists, its type is in range and allowed, the version suffices, the tag matches and the method is listed |
| RemoteInvokeProofs.ChecksOrder | APIJSONORM/src/main/java/apijson/orm/AbstractFunctionParser.java:196-223 | each row-check denial (no row, type, script, version, tag, null method, method list) is the result when its check fails and every earlier check passed |
| RemoteInvokeProofs.GateAdmits | APIJSONORM/src/main/java/apijson/orm/AbstractFunctionParser.java:189-223 | the gate admits exactly when remote functions are on, the call parses, and every row check holds |
| RemoteInvokeProofs.DenialOrder | APIJSONORM/src/main/java/apijson/orm/AbstractFunctionParser.java:189-223 | disabled remote functions are reported before a parse fault, a parse fault before the row checks; otherwise the gate reports the row checks' result |
| RemoteInvokeProofs.RefusedNeverDispatched | APIJSONORM/src/main/java/apijson/orm/AbstractFunctionParser.java:189-226 | a refused call gives the gate's fault whatever the callables do |
| RemoteInvokeProofs.VersionMonotone | APIJSONORM/src/main/java/apijson/orm/AbstractFunctionParser.java:211-214 | raising the caller's version never revokes a pass of the row checks |
| RemoteInvokeProofs.UntaggedRow | APIJSONORM/src/main/java/apijson/orm/AbstractFunctionParser.java:215-218 | the row checks of a row without a tag do not depend on the caller's tag |
| RemoteInvokeProofs.UnlistedRow | APIJSONORM/src/main/java/apijson/orm/AbstractFunctionParser.java:219-223 | the row checks of a row with a null or empty method list do not depend on the caller's method |
| RemoteInvokeProofs.InvokeOutcome | APIJSONORM/src/main/java/apijson/orm/AbstractFunctionParser.java:225-245 | a success is an admitted call's dispatch result; a failed dispatch of an admitted call reports the remapped fault |
| Parser.FunctionParser.constructor | APIJSONORM/src/main/java/apijson/orm/AbstractFunctionParser.java:68-70 | a fresh parser has method GET, no tag, version 0 and no request |
| Parser.FunctionParser.With | APIJSONORM/src/main/java/apijson/orm/AbstractFunctionParser.java:71-76 | a null method becomes GET; tag, version and request are kept |
| Parser.FunctionParser.Context | APIJSONORM/src/main/java/apijson/orm/AbstractFunctionParser.java:79-99 | the caller the gate sees is the parser's method, tag and version |
| Parser.FunctionParser.SetMethod | APIJSONORM/src/main/java/apijson/orm/AbstractFunctionParser.java:83-86 | sets the method, null included, and returns the parser itself |
| Parser.FunctionParser.SetTag | APIJSONORM/src/main/java/apijson/orm/AbstractFunctionParser.java:92-95 | sets the tag and returns the parser itself |
| Parser.FunctionParser.SetVersion | APIJSONORM/src/main/java/apijson/orm/AbstractFunctionParser.java:101-104 | sets the version and returns the parser itself |
| Parser.FunctionParser.SetKey | APIJSONORM/src/main/java/apijson/orm/AbstractFunctionParser.java:112-115 | sets the key and returns the parser itself |
| Parser.FunctionParser.SetParentPath | APIJSONORM/src/main/java/apijson/orm/AbstractFunctionParser.java:123-126 | sets the parent path and returns the parser itself |
| Parser.FunctionParser.SetCurrentName | APIJSONORM/src/main/java/apijson/orm/AbstractFunctionParser.java:133-136 | sets the current name and returns the parser itself |
| Parser.FunctionParser.SetRequest | APIJSONORM/src/main/java/apijson/orm/AbstractFunctionParser.java:144-147 | sets the request and returns the parser itself |
| Parser.FunctionParser.SetCurrentObject | APIJSONORM/src/main/java/apijson/orm/AbstractFunctionParser.java:156-159 | sets the current object and returns the parser itself |
| Parser.FunctionParser.Invoke | APIJSONORM/src/main/java/apijson/orm/AbstractFunctionParser.java:177-180 | the instance `invoke` is the static one with this parser's context |
| Parser.DefaultPasses | APIJSONORM/src/main/java/apijson/orm/AbstractFunctionParser.java:68-72 | for a parsed call whose native row has no version floor, no tag and a method list holding GET, a default-method caller passes the gate |
| Parser.ClearedFails | APIJSONORM/src/main/java/apijson/orm/AbstractFunctionParser.java:219-223 | for such a row with any method list, a caller without a method fails with a null pointer |
| Parser.MethodDefault | APIJSONORM/src/main/java/apijson/orm/AbstractFunctionParser.java:68-72 | a default parser passes a method list that holds GET; clearing the method makes every listed row fail with a null pointer |

## Left out

- Reflection (`getClass().getMethod`, `Method.invoke`) is the `Backend` oracle. Overload resolution over the recorded parameter classes is not modelled.
- The JavaScript engine is left out: its static initialisation, `eval`, `invokeFunction`, and the `SCRIPT_MAP` lookup of `invokeScript`. It is a foreign runtime, so the script path is the oracle `Backend.script` up to its result.
- `Class.forName(...).isAssignableFrom(...)` in the script return check is the oracle `Backend.assignable`. `RemoteInvoke.Dispatch` does not report the actual class name in that fault.
- `Double.valueOf` is an abstract partial parser, and numbers are reals. Floating-point behaviour is not modelled.
- `TypeUtils.cast` of a list argument is the identity.
- Exception message texts are left out, as are the `Log.d` calls and the message suffixes that depend on `Log.DEBUG`. A fault keeps only its class and the data it names.
- Thread safety of the static `FUNCTION_MAP`, `SCRIPT_MAP` and switches is out of scope. They are passed in as immutable parameters.
- The bodies of `StringUtil.isName`, `isEmpty`, `split`, `isSmallName` and of `RAW_MAP` are uninterpreted.
- The `toString` of numbers, maps, lists and other objects in `toFunctionCallString` is the `show` parameter.
- ArgResolver.ArgValue: Java strings are sequences of UTF-16 code units, while a Dafny `string` is a sequence of Unicode scalar values. The quote tests of `getArgValue` (`:571`, `:575`) and the `substring` calls after them split a supplementary character, such as an emoji written as a surrogate pair, into two units. The model treats it as one character. For a token such as an emoji followed by a backtick, Java looks up the low surrogate, while the model looks up the empty name. The "whatever the first character" lemmas therefore match Java only for first characters in the Basic Multilingual Plane.
- RemoteInvoke.Parsed: `StringUtil.isName` is uninterpreted, so the model does not know that it rejects blank text. In Java the checks at :459-468 refuse every non-null schema in `invoke`: a non-blank one at :459 and a blank one at :464, but the model promises only that a result's schema is null or blank.
- The convenience overloads that only supply a default argument are not separate members. The model passes the default itself:
  - `invoke(function, currentObject)` (`containRaw = false`);
  - `parseFunction(function, request, isSQLFunction)`;
  - `getArgValue(currentObject, keyOrValue)`;
  - `toFunctionCallString(useValue)` (null quote).
- The getters of the parser and of `FunctionBean` are not separate members: they are the fields themselves.
- `RequestMethod` is represented by the name of its constant.
