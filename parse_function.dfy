/** `parseFunction`: splits `[schema.]method(k0,k1,...)` into a schema, a
    method name and raw keys, checks the naming rules, and fills the parallel
    `types[]`/`values[]` arrays in the eager or the lazy convention. */
module FunctionParse {
  import opened Wrappers
  import opened Json
  import opened Strings
  import opened ArgResolver

  /** `FunctionBean`: the parsed call. `keys` is null when `split` returns null;
      `types` holds None in the slots Java leaves null. */
  datatype FunctionBean = FunctionBean(
    call: string,
    schema: Option<string>,
    name: string,
    keys: Option<seq<string>>,
    types: seq<Option<ClassTag>>,
    values: seq<Value>)

  /** The parallel arrays handed to dispatch. */
  datatype Slots = Slots(types: seq<Option<ClassTag>>, values: seq<Value>)

  /** The text before the first `(` and the text between it and a final `)`,
      when the first `(` is past index 0 and the last `)` ends the string. */
  function CallParts(call: string): (r: Option<(string, string)>)
    ensures r.Some? ==> call == r.value.0 + "(" + r.value.1 + ")"
    ensures r.Some? ==> r.value.0 != "" && '(' !in r.value.0
  {
    var start := IndexOf(call, '(');
    var end := LastIndexOf(call, ')');
    if start <= 0 || end != |call| - 1 then None
    else
      assert call == call[..start] + "(" + call[start + 1..end] + ")";
      Some((call[..start], call[start + 1..end]))
  }

  /** The optional schema (before the first `.`) and the method name (after it). */
  function SchemaParts(prefix: string): (r: (Option<string>, string))
    ensures r.0.None? ==> '.' !in prefix && r.1 == prefix
    ensures r.0.Some? ==> prefix == r.0.value + "." + r.1 && '.' !in r.0.value
  {
    var dot := IndexOf(prefix, '.');
    if dot < 0 then (None, prefix)
    else
      assert prefix == prefix[..dot] + "." + prefix[dot + 1..];
      (Some(prefix[..dot]), prefix[dot + 1..])
  }

  /** The class recorded for a resolved, non-null argument in eager mode;
      None for a kind eager mode does not accept. Each accepted kind has its
      own class, and none of them is the `Object` the stop records. */
  function EagerTag(v: Value): (t: Option<ClassTag>)
    ensures t.None? <==> v.Null? || v.Opaque?
    ensures t.Some? ==> t.value != ObjectClass && t.value != JSONObjectClass
    ensures (t == Some(BooleanClass) <==> v.Bool?) && (t == Some(NumberClass) <==> v.Num?)
         && (t == Some(StringClass) <==> v.Str?) && (t == Some(MapClass) <==> v.Obj?)
         && (t == Some(ListClass) <==> v.Arr?)
  {
    match v
    case Bool(_) => Some(BooleanClass)
    case Num(_) => Some(NumberClass)
    case Str(_) => Some(StringClass)
    case Obj(_) => Some(MapClass)
    case Arr(_) => Some(ListClass)
    case _ => None
  }

  /** `n` array slots Java leaves unset. */
  function Unset(n: nat): seq<Option<ClassTag>>
  {
    seq(n, _ => None)
  }

  function Nulls(n: nat): seq<Value>
  {
    seq(n, _ => Null)
  }

  /** `getArgValue` on one key, as eager mode calls it. */
  function Resolver(request: JsonObject, containRaw: bool, lib: Library,
                    raw: map<string, string>): string -> Result<Value, Fault>
  {
    k => ArgValue(request, Some(k), containRaw, lib, raw)
  }

  /** Eager mode: each key is resolved and tagged in turn; the first null sets
      its slot to `Object`/null and stops; any other kind throws. */
  function Eager(keys: seq<string>, resolve: string -> Result<Value, Fault>): (r: Result<Slots, Fault>)
    ensures r.Ok? ==> |r.value.types| == |r.value.values| == |keys|
    ensures r.Err? ==> (r.error.UnsupportedDataType? && r.error.key in keys) ||
                       exists j :: 0 <= j < |keys| && resolve(keys[j]) == Err(r.error)
    decreases |keys|
  {
    if keys == [] then Ok(Slots([], []))
    else
      var v :- resolve(keys[0]);
      if v.Null? then
        Ok(Slots([Some(ObjectClass)] + Unset(|keys| - 1), [Null] + Nulls(|keys| - 1)))
      else if EagerTag(v).None? then
        Err(UnsupportedDataType(keys[0]))
      else
        var rest := Eager(keys[1..], resolve);
        if rest.Err? then
          assert forall j :: 0 <= j < |keys| - 1 ==> keys[1..][j] == keys[j + 1];
          Err(rest.error)
        else Ok(Slots([EagerTag(v)] + rest.value.types, [v] + rest.value.values))
  }

  /** Lazy mode: the request object first, then every key as a string. */
  function Lazy(request: JsonObject, keys: seq<string>): (r: Slots)
    ensures |r.types| == |r.values| == |keys| + 1
    ensures r.types[0] == Some(JSONObjectClass) && r.values[0] == Obj(request)
    ensures forall j :: 0 <= j < |keys| ==> r.types[j + 1] == Some(StringClass) && r.values[j + 1] == Str(keys[j])
  {
    Slots([Some(JSONObjectClass)] + seq(|keys|, _ => Some(StringClass)),
          [Obj(request)] + seq(|keys|, j requires 0 <= j < |keys| => Str(keys[j])))
  }

  /** The schema, the method name and the raw keys `parseFunction` extracts,
      or the `IllegalArgumentException` its naming rules throw. */
  function Header(call: string, isSQLFunction: bool, lib: Library): (r: Result<(Option<string>, string, Option<seq<string>>), Fault>)
    ensures r.Err? ==> r.error.IllegalArgument?
  {
    var parts := CallParts(call);
    var split := if parts.None? then (None, None) else var (s, m) := SchemaParts(parts.value.0); (s, Some(m));
    var schema, name := split.0, split.1;
    if name.None? || !lib.isName(name.value) then
      Err(IllegalArgument(BadFunctionName(name)))
    else if !isSQLFunction && !Blank(lib, schema) then
      Err(IllegalArgument(SchemaNotAllowed(schema.value)))
    else if schema.Some? && !lib.isName(schema.value) then
      Err(IllegalArgument(BadSchemaName(schema.value)))
    else
      Ok((schema, name.value, lib.split(parts.value.1)))
  }

  /** The keys as an array: none when `split` returns null. */
  function KeyList(keys: Option<seq<string>>): (r: seq<string>)
    ensures |r| == if keys.None? then 0 else |keys.value|
    ensures keys.Some? ==> r == keys.value
  {
    if keys.None? then [] else keys.value
  }

  /** What `parseFunction(call, request, isSQLFunction, containRaw)` returns or
      throws, with `parseArgValue` for `IS_PARSE_ARG_VALUE`. */
  function FunctionBeanOf(call: string, request: JsonObject, isSQLFunction: bool, containRaw: bool,
                          parseArgValue: bool, lib: Library, raw: map<string, string>): (r: Result<FunctionBean, Fault>)
    ensures r.Err? ==> r.error.IllegalArgument? || r.error.UnsupportedDataType? || r.error == StringIndexOutOfBounds
    ensures r.Ok? ==> r.value.call == call && lib.isName(r.value.name)
  {
    var (schema, name, keys) :- Header(call, isSQLFunction, lib);
    var slots :- if isSQLFunction || parseArgValue then Eager(KeyList(keys), Resolver(request, containRaw, lib, raw))
                 else Ok(Lazy(request, KeyList(keys)));
    Ok(FunctionBean(call, schema, name, keys, slots.types, slots.values))
  }

  /** The slots already filled in front of what the rest of the loop yields. */
  ghost function Prepend(types: seq<Option<ClassTag>>, values: seq<Value>, rest: Result<Slots, Fault>): Result<Slots, Fault>
  {
    match rest
    case Ok(s) => Ok(Slots(types + s.types, values + s.values))
    case Err(e) => Err(e)
  }

  /** One tagged slot in front of the rest of the eager loop. */
  lemma EagerStep(ks: seq<string>, i: nat, resolve: string -> Result<Value, Fault>)
    requires i < |ks| && resolve(ks[i]).Ok? && !resolve(ks[i]).value.Null?
    requires EagerTag(resolve(ks[i]).value).Some?
    ensures Eager(ks[i..], resolve) ==
      Prepend([EagerTag(resolve(ks[i]).value)], [resolve(ks[i]).value], Eager(ks[i + 1..], resolve))
  {
    assert ks[i..][0] == ks[i] && ks[i..][1..] == ks[i + 1..];
  }

  lemma PrependTwice(t1: seq<Option<ClassTag>>, v1: seq<Value>, t2: seq<Option<ClassTag>>, v2: seq<Value>,
                     rest: Result<Slots, Fault>)
    ensures Prepend(t1, v1, Prepend(t2, v2, rest)) == Prepend(t1 + t2, v1 + v2, rest)
  {
    if rest.Ok? {
      assert t1 + (t2 + rest.value.types) == (t1 + t2) + rest.value.types;
      assert v1 + (v2 + rest.value.values) == (v1 + v2) + rest.value.values;
    }
  }

  /** The arrays at the stop: the filled prefix, `Object`/null, then unset slots. */
  lemma StoppedSlots(types: seq<Option<ClassTag>>, values: seq<Value>, i: nat,
                     doneTypes: seq<Option<ClassTag>>, doneValues: seq<Value>)
    requires i < |types| == |values|
    requires types[..i] == doneTypes && values[..i] == doneValues
    requires types[i] == Some(ObjectClass) && values[i] == Null
    requires forall j :: i < j < |types| ==> types[j].None? && values[j] == Null
    ensures types == doneTypes + ([Some(ObjectClass)] + Unset(|types| - i - 1))
    ensures values == doneValues + ([Null] + Nulls(|values| - i - 1))
  {
    var tt := doneTypes + ([Some(ObjectClass)] + Unset(|types| - i - 1));
    var vv := doneValues + ([Null] + Nulls(|values| - i - 1));
    assert |tt| == |types| && |vv| == |values|;
    forall j | 0 <= j < |types|
      ensures tt[j] == types[j] && vv[j] == values[j]
    {
      if j < i {
        assert tt[j] == doneTypes[j] == types[j];
        assert vv[j] == doneValues[j] == values[j];
      }
    }
  }

  /** Before the loop nothing is filled. */
  lemma EagerStart(ks: seq<string>, resolve: string -> Result<Value, Fault>)
    ensures Eager(ks, resolve) == Prepend([], [], Eager(ks[0..], resolve))
  {
    assert ks[0..] == ks;
    var e := Eager(ks, resolve);
    if e.Ok? {
      assert [] + e.value.types == e.value.types && [] + e.value.values == e.value.values;
    }
  }

  /** The loop leaving at key `i`, given the filled prefix. */
  lemma EagerAtKey(ks: seq<string>, i: nat, resolve: string -> Result<Value, Fault>,
                   doneTypes: seq<Option<ClassTag>>, doneValues: seq<Value>)
    requires i < |ks|
    requires Eager(ks, resolve) == Prepend(doneTypes, doneValues, Eager(ks[i..], resolve))
    ensures resolve(ks[i]).Err? ==> Eager(ks, resolve) == Err(resolve(ks[i]).error)
    ensures resolve(ks[i]) == Ok(Null) ==>
      Eager(ks, resolve) == Ok(Slots(doneTypes + ([Some(ObjectClass)] + Unset(|ks| - i - 1)),
                                     doneValues + ([Null] + Nulls(|ks| - i - 1))))
    ensures resolve(ks[i]).Ok? && !resolve(ks[i]).value.Null? && EagerTag(resolve(ks[i]).value).None? ==>
      Eager(ks, resolve) == Err(UnsupportedDataType(ks[i]))
  {
    assert ks[i..][0] == ks[i] && ks[i..][1..] == ks[i + 1..];
  }

  /** The loop going past a filled key `i`. */
  lemma EagerPastKey(ks: seq<string>, i: nat, resolve: string -> Result<Value, Fault>,
                     doneTypes: seq<Option<ClassTag>>, doneValues: seq<Value>)
    requires i < |ks| && resolve(ks[i]).Ok? && !resolve(ks[i]).value.Null? && EagerTag(resolve(ks[i]).value).Some?
    requires Eager(ks, resolve) == Prepend(doneTypes, doneValues, Eager(ks[i..], resolve))
    ensures Eager(ks, resolve) == Prepend(doneTypes + [EagerTag(resolve(ks[i]).value)],
                                          doneValues + [resolve(ks[i]).value], Eager(ks[i + 1..], resolve))
  {
    var a := resolve(ks[i]);
    EagerStep(ks, i, resolve);
    PrependTwice(doneTypes, doneValues, [EagerTag(a.value)], [a.value], Eager(ks[i + 1..], resolve));
  }

  /** After the last key, the arrays are the result. */
  lemma EagerEnd(ks: seq<string>, resolve: string -> Result<Value, Fault>,
                 types: seq<Option<ClassTag>>, values: seq<Value>)
    requires |types| == |values| == |ks|
    requires Eager(ks, resolve) == Prepend(types, values, Eager(ks[|ks|..], resolve))
    ensures Eager(ks, resolve) == Ok(Slots(types, values))
  {
    assert ks[|ks|..] == [];
    assert types + [] == types && values + [] == values;
  }

  /** A slot the eager loop filled and went past: its key resolved to a
      non-null value of a supported kind, recorded with its class. */
  predicate Filled(k: string, resolve: string -> Result<Value, Fault>, t: Option<ClassTag>, v: Value)
  {
    resolve(k) == Ok(v) && !v.Null? && EagerTag(v).Some? && t == EagerTag(v)
  }

  /** The filled prefix of the arrays is the front of the eager result. */
  lemma {:induction false} EagerOfPrefix(ks: seq<string>, resolve: string -> Result<Value, Fault>, i: nat,
                                         t: seq<Option<ClassTag>>, v: seq<Value>)
    requires i <= |ks| && |t| == |v| == i
    requires forall j :: 0 <= j < i ==> Filled(ks[j], resolve, t[j], v[j])
    ensures Eager(ks, resolve) == Prepend(t, v, Eager(ks[i..], resolve))
    decreases i
  {
    if i == 0 {
      EagerStart(ks, resolve);
      assert t == [] && v == [];
    } else {
      EagerOfPrefix(ks, resolve, i - 1, t[..i - 1], v[..i - 1]);
      assert Filled(ks[i - 1], resolve, t[i - 1], v[i - 1]);
      EagerPastKey(ks, i - 1, resolve, t[..i - 1], v[..i - 1]);
      assert t[..i - 1] + [t[i - 1]] == t && v[..i - 1] + [v[i - 1]] == v;
    }
  }

  /** The ways the eager loop leaves at key `i`, given the filled prefix. */
  lemma EagerExit(ks: seq<string>, i: nat, resolve: string -> Result<Value, Fault>,
                  t: seq<Option<ClassTag>>, v: seq<Value>)
    requires i < |ks| && |t| == |v| == i
    requires forall j :: 0 <= j < i ==> Filled(ks[j], resolve, t[j], v[j])
    ensures resolve(ks[i]).Err? ==> Eager(ks, resolve) == Err(resolve(ks[i]).error)
    ensures resolve(ks[i]) == Ok(Null) ==>
      Eager(ks, resolve) == Ok(Slots(t + ([Some(ObjectClass)] + Unset(|ks| - i - 1)),
                                     v + ([Null] + Nulls(|ks| - i - 1))))
    ensures resolve(ks[i]).Ok? && !resolve(ks[i]).value.Null? && EagerTag(resolve(ks[i]).value).None? ==>
      Eager(ks, resolve) == Err(UnsupportedDataType(ks[i]))
  {
    EagerOfPrefix(ks, resolve, i, t, v);
    EagerAtKey(ks, i, resolve, t, v);
  }

  /** Every key filled: the arrays are the result. */
  lemma EagerComplete(ks: seq<string>, resolve: string -> Result<Value, Fault>,
                      t: seq<Option<ClassTag>>, v: seq<Value>)
    requires |t| == |v| == |ks|
    requires forall j :: 0 <= j < |ks| ==> Filled(ks[j], resolve, t[j], v[j])
    ensures Eager(ks, resolve) == Ok(Slots(t, v))
  {
    EagerOfPrefix(ks, resolve, |ks|, t, v);
    EagerEnd(ks, resolve, t, v);
  }

  /** Eager mode of `parseFunction`: `types[]` and `values[]` filled slot by
      slot with `resolve` (`getArgValue` on the request), leaving the loop at
      the first null. */
  method FillEager(ks: seq<string>, resolve: string -> Result<Value, Fault>) returns (r: Result<Slots, Fault>)
    ensures r == Eager(ks, resolve)
  {
    var types := new Option<ClassTag>[|ks|](_ => None);
    var values := new Value[|ks|](_ => Null);
    var i, stop := FillPrefix(ks, resolve, types, values);
    EagerOutcome(ks, resolve, i, stop, types[..], values[..]);
    if stop.Err? {
      r := Err(stop.error);
    } else {
      r := Ok(Slots(types[..], values[..]));
    }
  }

  /** How the eager loop left the arrays `t` and `v` at key `i`: every earlier
      key filled, every later slot unset, and key `i` failed
      (`stop` an error), resolved to null (`stop == Ok(false)`) or was past
      the end (`stop == Ok(true)`). */
  ghost predicate LoopExit(ks: seq<string>, resolve: string -> Result<Value, Fault>, i: nat, stop: Result<bool, Fault>,
                           t: seq<Option<ClassTag>>, v: seq<Value>)
  {
    && i <= |ks| == |t| == |v|
    && (forall j :: 0 <= j < i ==> Filled(ks[j], resolve, t[j], v[j]))
    && (forall j :: i < j < |ks| ==> t[j].None? && v[j] == Null)
    && (stop == Ok(true) ==> i == |ks|)
    && (stop == Ok(false) ==>
          i < |ks| && resolve(ks[i]) == Ok(Null) && t[i] == Some(ObjectClass) && v[i] == Null)
    && (stop.Err? ==>
          i < |ks| &&
          ((resolve(ks[i]).Err? && stop.error == resolve(ks[i]).error) ||
           (resolve(ks[i]).Ok? && !resolve(ks[i]).value.Null? && EagerTag(resolve(ks[i]).value).None?
            && stop.error == UnsupportedDataType(ks[i]))))
  }

  /** Wherever the loop left, the eager result is its error or the arrays. */
  lemma EagerOutcome(ks: seq<string>, resolve: string -> Result<Value, Fault>, i: nat, stop: Result<bool, Fault>,
                     t: seq<Option<ClassTag>>, v: seq<Value>)
    requires LoopExit(ks, resolve, i, stop, t, v)
    ensures Eager(ks, resolve) == if stop.Err? then Err(stop.error) else Ok(Slots(t, v))
  {
    if stop.Ok? && stop.value {
      EagerComplete(ks, resolve, t, v);
    } else {
      assert stop == Ok(false) || stop.Err?;
      EagerExit(ks, i, resolve, t[..i], v[..i]);
      if stop.Ok? {
        StoppedSlots(t, v, i, t[..i], v[..i]);
      }
    }
  }

  /** The loop of the eager mode: keys are resolved and stored in turn until
      one fails or resolves to null, or all are done. */
  method FillPrefix(ks: seq<string>, resolve: string -> Result<Value, Fault>,
                    types: array<Option<ClassTag>>, values: array<Value>) returns (i: nat, stop: Result<bool, Fault>)
    requires |ks| == types.Length == values.Length
    requires forall j :: 0 <= j < |ks| ==> types[j].None? && values[j] == Null
    modifies types, values
    ensures LoopExit(ks, resolve, i, stop, types[..], values[..])
  {
    i, stop := 0, Ok(true);
    while i < |ks|
      invariant i <= |ks| && stop == Ok(true)
      invariant forall j :: i <= j < |ks| ==> types[j].None? && values[j] == Null
      invariant forall j :: 0 <= j < i ==> Filled(ks[j], resolve, types[j], values[j])
    {
      stop := FillSlot(ks, i, resolve, types, values);
      if stop != Ok(true) {
        return;
      }
      i := i + 1;
    }
  }

  method FillSlot(ks: seq<string>, i: nat, resolve: string -> Result<Value, Fault>,
                  types: array<Option<ClassTag>>, values: array<Value>) returns (next: Result<bool, Fault>)
    requires i < |ks| == types.Length == values.Length
    modifies types, values
    ensures forall j :: 0 <= j < types.Length && j != i ==> types[j] == old(types[j]) && values[j] == old(values[j])
    ensures types[..i] == old(types[..i]) && values[..i] == old(values[..i])
    ensures var a := resolve(ks[i]);
      && (a.Err? ==> next == Err(a.error))
      && (a == Ok(Null) ==> next == Ok(false) && types[i] == Some(ObjectClass) && values[i] == Null)
      && (a.Ok? && !a.value.Null? && EagerTag(a.value).None? ==> next == Err(UnsupportedDataType(ks[i])))
      && (a.Ok? && !a.value.Null? && EagerTag(a.value).Some? ==>
            next == Ok(true) && Filled(ks[i], resolve, types[i], values[i]))
  {
    var v := resolve(ks[i]);
    if v.Err? {
      return Err(v.error);
    }
    values[i] := v.value;
    if v.value.Null? {
      types[i] := Some(ObjectClass);
      values[i] := Null;
      return Ok(false);
    }
    var t := EagerTag(v.value);
    if t.None? {
      return Err(UnsupportedDataType(ks[i]));
    }
    types[i] := t;
    next := Ok(true);
  }

  /** Lazy mode of `parseFunction`: slot 0 is the request, slot `i + 1` the key
      `ks[i]` as a string. */
  method FillLazy(request: JsonObject, ks: seq<string>) returns (s: Slots)
    ensures s == Lazy(request, ks)
    ensures |s.types| == |s.values| == |ks| + 1
  {
    var length := |ks|;
    var types := new Option<ClassTag>[length + 1](_ => None);
    types[0] := Some(JSONObjectClass);
    var values := new Value[length + 1](_ => Null);
    values[0] := Obj(request);
    for i := 0 to length
      invariant types.Length == values.Length == length + 1
      invariant types[0] == Some(JSONObjectClass) && values[0] == Obj(request)
      invariant forall j :: 1 <= j <= i ==> types[j] == Some(StringClass) && values[j] == Str(ks[j - 1])
    {
      types[i + 1] := Some(StringClass);
      values[i + 1] := Str(ks[i]);
    }
    LazyFilled(request, ks, types[..], values[..]);
    s := Slots(types[..], values[..]);
  }

  /** Arrays filled as the lazy loop leaves them are `Lazy`. */
  lemma LazyFilled(request: JsonObject, ks: seq<string>, t: seq<Option<ClassTag>>, v: seq<Value>)
    requires |t| == |v| == |ks| + 1
    requires t[0] == Some(JSONObjectClass) && v[0] == Obj(request)
    requires forall j :: 1 <= j <= |ks| ==> t[j] == Some(StringClass) && v[j] == Str(ks[j - 1])
    ensures Slots(t, v) == Lazy(request, ks)
  {
    var l := Lazy(request, ks);
    forall j | 0 <= j < |t|
      ensures t[j] == l.types[j] && v[j] == l.values[j]
    {
      if j > 0 {
        assert l.types[(j - 1) + 1] == Some(StringClass) && l.values[(j - 1) + 1] == Str(ks[j - 1]);
      }
    }
    assert t == l.types && v == l.values;
  }

  /** The first half of `parseFunction` in the Java statement order: locate
      the parentheses, split off the schema at the first `.`, check the names,
      and split the argument text. It has no loop and no state of its own; it
      is here so the imperative `ParseFunction` follows the source line by
      line, and its contract ties it to `Header`, where the naming rules are
      stated and proved. */
  method ParseHeader(call: string, isSQLFunction: bool, lib: Library)
    returns (r: Result<(Option<string>, string, Option<seq<string>>), Fault>)
    ensures r == Header(call, isSQLFunction, lib)
  {
    var start := IndexOf(call, '(');
    var end := LastIndexOf(call, ')');
    var name: Option<string> := if start <= 0 || end != |call| - 1 then None else Some(call[..start]);
    var dotInd := if name.None? then -1 else IndexOf(name.value, '.');
    var schema: Option<string> := if dotInd < 0 then None else Some(name.value[..dotInd]);
    name := if dotInd < 0 then name else Some(name.value[dotInd + 1..]);

    if name.None? || !lib.isName(name.value) {
      return Err(IllegalArgument(BadFunctionName(name)));
    }
    if !isSQLFunction && !Blank(lib, schema) {
      return Err(IllegalArgument(SchemaNotAllowed(schema.value)));
    }
    if schema.Some? && !lib.isName(schema.value) {
      return Err(IllegalArgument(BadSchemaName(schema.value)));
    }
    var keys := lib.split(call[start + 1..end]);
    r := Ok((schema, name.value, keys));
  }

  /** `parseFunction` as the source runs it: the header, then the arrays in the
      eager or the lazy convention. */
  method ParseFunction(call: string, request: JsonObject, isSQLFunction: bool, containRaw: bool,
                       parseArgValue: bool, lib: Library, raw: map<string, string>)
    returns (r: Result<FunctionBean, Fault>)
    ensures r == FunctionBeanOf(call, request, isSQLFunction, containRaw, parseArgValue, lib, raw)
  {
    var header := ParseHeader(call, isSQLFunction, lib);
    if header.Err? {
      return Err(header.error);
    }
    var (schema, name, keys) := header.value;
    var slots: Slots;
    if isSQLFunction || parseArgValue {
      var filled := FillEager(KeyList(keys), Resolver(request, containRaw, lib, raw));
      if filled.Err? {
        return Err(filled.error);
      }
      slots := filled.value;
    } else {
      slots := FillLazy(request, KeyList(keys));
    }
    r := Ok(FunctionBean(call, schema, name, keys, slots.types, slots.values));
  }
}

module FunctionParseProofs {
  import opened Wrappers
  import opened Json
  import opened Strings
  import opened ArgResolver
  import opened FunctionParse

  /** The call has shape `prefix(args)` with `prefix` non-empty and free of `(`
      exactly when the split finds that prefix and that argument text. */
  lemma {:induction false} CallPartsExact(call: string, prefix: string, args: string)
    ensures CallParts(call) == Some((prefix, args)) <==>
            call == prefix + "(" + args + ")" && prefix != "" && '(' !in prefix
  {
    if call == prefix + "(" + args + ")" && prefix != "" && '(' !in prefix {
      IndexOfAfter(prefix, '(', args + ")");
      assert call == prefix + ['('] + (args + ")");
      LastIndexOfEnd(prefix + "(" + args, ')');
      assert call == (prefix + "(" + args) + [')'];
      assert call[..|prefix|] == prefix;
      assert call[|prefix| + 1..|call| - 1] == args;
    }
  }

  /** The naming rules of `parseFunction`: a `(` past index 0 with a final `)`,
      a name-valid method, and a schema that is a name and, outside SQL
      functions, blank. */
  predicate NamesValid(call: string, isSQLFunction: bool, lib: Library)
  {
    && CallParts(call).Some?
    && var (schema, name) := SchemaParts(CallParts(call).value.0);
    && lib.isName(name)
    && (schema.Some? ==> lib.isName(schema.value) && (isSQLFunction || lib.isBlank(schema.value)))
  }

  /** The naming rules fail exactly when the header is refused; on success the
      schema, the method and the keys are those the split finds. */
  lemma HeaderNamingRules(call: string, isSQLFunction: bool, lib: Library)
    ensures Header(call, isSQLFunction, lib).Ok? <==> NamesValid(call, isSQLFunction, lib)
    ensures Header(call, isSQLFunction, lib).Ok? ==>
      && CallParts(call).Some?
      && var h := Header(call, isSQLFunction, lib).value;
      && (h.0, h.1) == SchemaParts(CallParts(call).value.0)
      && h.2 == lib.split(CallParts(call).value.1)
  {
  }

  /** `parseFunction` throws `IllegalArgumentException` exactly when a naming
      rule fails; on success the schema, the method and the keys are those the
      split finds. */
  lemma ParseNamingRules(call: string, request: JsonObject, isSQLFunction: bool, containRaw: bool,
                         parseArgValue: bool, lib: Library, raw: map<string, string>)
    ensures var r := FunctionBeanOf(call, request, isSQLFunction, containRaw, parseArgValue, lib, raw);
      (r.Err? && r.error.IllegalArgument?) <==> !NamesValid(call, isSQLFunction, lib)
    ensures var r := FunctionBeanOf(call, request, isSQLFunction, containRaw, parseArgValue, lib, raw);
      r.Ok? ==> && CallParts(call).Some?
                && (r.value.schema, r.value.name) == SchemaParts(CallParts(call).value.0)
                && r.value.keys == lib.split(CallParts(call).value.1)
  {
    HeaderNamingRules(call, isSQLFunction, lib);
    var h := Header(call, isSQLFunction, lib);
    if h.Ok? {
      var keys := KeyList(h.value.2);
      var slots := if isSQLFunction || parseArgValue then Eager(keys, Resolver(request, containRaw, lib, raw))
                   else Ok(Lazy(request, keys));
      var r := FunctionBeanOf(call, request, isSQLFunction, containRaw, parseArgValue, lib, raw);
      if slots.Ok? {
        assert r == Ok(FunctionBean(call, h.value.0, h.value.1, h.value.2, slots.value.types, slots.value.values));
      } else {
        assert r == Err(slots.error);
      }
    }
  }

  /** Lazy mode (`!isSQLFunction && !IS_PARSE_ARG_VALUE`) resolves no key: it
      succeeds exactly when the names are valid, and yields the request
      followed by every raw key as a string. */
  lemma LazyConvention(call: string, request: JsonObject, containRaw: bool,
                       lib: Library, raw: map<string, string>)
    ensures var r := FunctionBeanOf(call, request, false, containRaw, false, lib, raw);
      r.Ok? <==> NamesValid(call, false, lib)
    ensures var r := FunctionBeanOf(call, request, false, containRaw, false, lib, raw);
      r.Ok? ==>
        var ks := KeyList(r.value.keys);
        && |r.value.types| == |r.value.values| == |ks| + 1
        && r.value.types[0] == Some(JSONObjectClass) && r.value.values[0] == Obj(request)
        && forall j :: 0 <= j < |ks| ==> r.value.types[j + 1] == Some(StringClass) && r.value.values[j + 1] == Str(ks[j])
  {
    HeaderNamingRules(call, false, lib);
    var h := Header(call, false, lib);
    if h.Ok? {
      var slots := Lazy(request, KeyList(h.value.2));
      assert FunctionBeanOf(call, request, false, containRaw, false, lib, raw)
          == Ok(FunctionBean(call, h.value.0, h.value.1, h.value.2, slots.types, slots.values));
    }
  }

  /** The null branch of eager mode: slot 0 is `Object`/null, the rest unset. */
  lemma EagerNull(keys: seq<string>, resolve: string -> Result<Value, Fault>)
    requires keys != [] && resolve(keys[0]) == Ok(Null)
    ensures Eager(keys, resolve).Ok?
    ensures var r := Eager(keys, resolve).value;
      && |r.types| == |r.values| == |keys|
      && r.types[0] == Some(ObjectClass) && r.values[0] == Null
      && forall l :: 0 < l < |keys| ==> r.types[l].None? && r.values[l] == Null
  {
  }

  /** The tagged branch of eager mode: the head's slot in front of the tail's. */
  lemma EagerCons(keys: seq<string>, resolve: string -> Result<Value, Fault>)
    requires keys != [] && resolve(keys[0]).Ok? && !resolve(keys[0]).value.Null?
    requires EagerTag(resolve(keys[0]).value).Some?
    requires Eager(keys, resolve).Ok?
    ensures Eager(keys[1..], resolve).Ok?
    ensures var r, rest, v := Eager(keys, resolve).value, Eager(keys[1..], resolve).value, resolve(keys[0]).value;
      r.types == [EagerTag(v)] + rest.types && r.values == [v] + rest.values
  {
    var v := resolve(keys[0]).value;
    EagerStep(keys, 0, resolve);
    assert keys[0..] == keys && keys[0 + 1..] == keys[1..];
  }

  /** Slot `j` of the whole is slot `j - 1` of the tail, past the head. */
  lemma EagerConsIndex(keys: seq<string>, resolve: string -> Result<Value, Fault>)
    requires keys != [] && resolve(keys[0]).Ok? && !resolve(keys[0]).value.Null?
    requires EagerTag(resolve(keys[0]).value).Some?
    requires Eager(keys, resolve).Ok?
    ensures Eager(keys[1..], resolve).Ok?
    ensures var r, rest := Eager(keys, resolve).value, Eager(keys[1..], resolve).value;
      forall j :: 1 <= j < |keys| ==>
        keys[j] == keys[1..][j - 1] && r.types[j] == rest.types[j - 1] && r.values[j] == rest.values[j - 1]
  {
    EagerCons(keys, resolve);
    var r, rest, v := Eager(keys, resolve).value, Eager(keys[1..], resolve).value, resolve(keys[0]).value;
    ShiftIndex(keys[0], keys[1..], keys);
    ShiftIndex(EagerTag(v), rest.types, r.types);
    ShiftIndex(v, rest.values, r.values);
  }

  /** Indexing past the head of `[x] + xs`. */
  lemma ShiftIndex<T>(x: T, xs: seq<T>, whole: seq<T>)
    requires whole == [x] + xs || (whole != [] && whole[0] == x && whole[1..] == xs)
    ensures |whole| == |xs| + 1
    ensures forall j :: 1 <= j < |whole| ==> whole[j] == xs[j - 1]
  {
    if whole != [] && whole[0] == x && whole[1..] == xs {
      assert forall j :: 1 <= j < |whole| ==> whole[j] == whole[1..][j - 1];
    }
  }

  /** Eager mode: every slot set with a supported class holds its key's
      resolved value, and that value's class. */
  lemma {:induction false} EagerTagged(keys: seq<string>, resolve: string -> Result<Value, Fault>)
    ensures var r := Eager(keys, resolve);
      r.Ok? ==> forall j :: 0 <= j < |keys| && r.value.types[j].Some? && r.value.types[j] != Some(ObjectClass) ==>
        resolve(keys[j]) == Ok(r.value.values[j]) && r.value.types[j] == EagerTag(r.value.values[j])
    decreases |keys|
  {
    var r := Eager(keys, resolve);
    if keys != [] && r.Ok? {
      var a := resolve(keys[0]);
      if a.Ok? && a.value.Null? {
        EagerNull(keys, resolve);
      } else {
        EagerConsIndex(keys, resolve);
        EagerTagged(keys[1..], resolve);
      }
    }
  }

  /** Eager mode: the first key that resolves to null gets `Object`/null and
      stops the loop, so every later slot stays unset. */
  lemma {:induction false} EagerStopsAtNull(keys: seq<string>, resolve: string -> Result<Value, Fault>)
    ensures var r := Eager(keys, resolve);
      r.Ok? ==> forall j :: 0 <= j < |keys| && r.value.types[j] == Some(ObjectClass) ==>
        && resolve(keys[j]) == Ok(Null) && r.value.values[j] == Null
        && forall l :: j < l < |keys| ==> r.value.types[l].None? && r.value.values[l] == Null
    decreases |keys|
  {
    var r := Eager(keys, resolve);
    if keys != [] && r.Ok? {
      var a := resolve(keys[0]);
      if a.Ok? && a.value.Null? {
        EagerNull(keys, resolve);
      } else {
        EagerConsIndex(keys, resolve);
        EagerStopsAtNull(keys[1..], resolve);
      }
    }
  }

  /** Eager mode: an unset slot only ever follows the stop, never the first
      slot and never a slot set with a supported class. */
  lemma {:induction false} EagerUnsetAfterStop(keys: seq<string>, resolve: string -> Result<Value, Fault>)
    ensures var r := Eager(keys, resolve);
      r.Ok? ==> forall j :: 0 <= j < |keys| && r.value.types[j].None? ==>
        0 < j && (r.value.types[j - 1].None? || r.value.types[j - 1] == Some(ObjectClass))
    decreases |keys|
  {
    var r := Eager(keys, resolve);
    if keys != [] && r.Ok? {
      var a := resolve(keys[0]);
      if a.Ok? && a.value.Null? {
        EagerNull(keys, resolve);
      } else {
        EagerConsIndex(keys, resolve);
        EagerUnsetAfterStop(keys[1..], resolve);
      }
    }
  }

  /** Eager mode: when no key resolves to null, every slot is set with a
      supported class. */
  lemma {:induction false} EagerAllSet(keys: seq<string>, resolve: string -> Result<Value, Fault>)
    requires forall j :: 0 <= j < |keys| ==> resolve(keys[j]) != Ok(Null)
    ensures var r := Eager(keys, resolve);
      r.Ok? ==> forall j :: 0 <= j < |keys| ==> r.value.types[j].Some? && r.value.types[j] != Some(ObjectClass)
    decreases |keys|
  {
    var r := Eager(keys, resolve);
    if keys != [] && r.Ok? {
      EagerConsIndex(keys, resolve);
      assert forall j :: 0 <= j < |keys| - 1 ==> keys[1..][j] == keys[j + 1];
      EagerAllSet(keys[1..], resolve);
    }
  }

  /** Eager mode fails at the first key that does not resolve to a null or a
      supported kind, after every earlier key resolved to a supported kind:
      with the resolver's fault when resolution fails, and with
      `UnsupportedDataTypeException` naming the key when its value is of
      another kind. */
  lemma {:induction false} EagerFirstFailure(keys: seq<string>, i: nat, resolve: string -> Result<Value, Fault>)
    requires i < |keys|
    requires forall j :: 0 <= j < i ==> resolve(keys[j]).Ok? && EagerTag(resolve(keys[j]).value).Some?
    ensures resolve(keys[i]).Err? ==> Eager(keys, resolve) == Err(resolve(keys[i]).error)
    ensures resolve(keys[i]).Ok? && !resolve(keys[i]).value.Null? && EagerTag(resolve(keys[i]).value).None? ==>
      Eager(keys, resolve) == Err(UnsupportedDataType(keys[i]))
    decreases i
  {
    if i > 0 {
      var tail := keys[1..];
      assert forall j :: 0 <= j < i - 1 ==> tail[j] == keys[j + 1];
      assert tail[i - 1] == keys[i];
      EagerFirstFailure(tail, i - 1, resolve);
      assert resolve(keys[0]).Ok? && EagerTag(resolve(keys[0]).value).Some?;
    }
  }
}
