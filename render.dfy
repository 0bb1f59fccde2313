/** The two renderers: `getFunction`, the Java signature named in error
    messages, and `FunctionBean.toFunctionCallString`, the call text. */
module Render {
  import opened Wrappers
  import opened Json
  import opened Strings
  import opened FunctionParse
  import opened FunctionParseProofs

  /** `, String k` for each key, left to right. */
  function Params(keys: seq<string>): string
    decreases |keys|
  {
    if keys == [] then "" else Params(keys[..|keys| - 1]) + ", String " + keys[|keys| - 1]
  }

  /** The text `getFunction(name, keys)` returns. */
  function Signature(name: string, keys: Option<seq<string>>): (r: string)
    ensures |r| >= |name| + 20 && r[..|name|] == name
    ensures r[|name|..|name| + 19] == "(JSONObject request" && r[|r| - 1] == ')'
  {
    name + "(JSONObject request" + Params(KeyList(keys)) + ")"
  }

  /** `getFunction`: the signature accumulated key by key. */
  method GetFunction(name: string, keys: Option<seq<string>>) returns (f: string)
    ensures f == Signature(name, keys)
  {
    f := name + "(JSONObject request";
    if keys.Some? {
      var ks := keys.value;
      for i := 0 to |ks|
        invariant f == name + "(JSONObject request" + Params(ks[..i])
      {
        assert ks[..i + 1][..i] == ks[..i];
        f := f + (", String " + ks[i]);
      }
      assert ks[..|ks|] == ks;
    }
    f := f + ")";
  }

  /** The parameter list of a concatenation is the concatenation of the lists. */
  lemma {:induction false} ParamsAppend(a: seq<string>, b: seq<string>)
    ensures Params(a + b) == Params(a) + Params(b)
    decreases |b|
  {
    if b == [] {
      assert a + b == a;
    } else {
      var b' := b[..|b| - 1];
      assert (a + b)[..|a + b| - 1] == a + b';
      assert (a + b)[|a + b| - 1] == b[|b| - 1];
      ParamsAppend(a, b');
    }
  }

  /** Read from the front, each key contributes `, String k` in order. */
  lemma SignatureFront(name: string, k: string, ks: seq<string>)
    ensures Signature(name, Some([k] + ks)) == name + "(JSONObject request" + ", String " + k + Params(ks) + ")"
  {
    var x, b, p := name + "(JSONObject request", ", String ", Params(ks);
    ParamsAppend([k], ks);
    assert Params([k]) == b + k by {
      assert [k][..0] == [];
    }
    assert Signature(name, Some([k] + ks)) == x + ((b + k) + p) + ")";
    ConcatAssoc(x, b + k, p);
    ConcatAssoc(x, b, k);
  }

  /** Null keys and no keys both give `name(JSONObject request)`. */
  lemma SignatureNoKeys(name: string)
    ensures Signature(name, None) == Signature(name, Some([])) == name + "(JSONObject request" + ")"
  {
  }

  /** `toString` of an argument; the text of numbers, maps, lists and other
      objects is left to `show`. */
  function Text(arg: Value, show: Value -> string): (r: string)
    ensures arg.Null? ==> r == "null"
    ensures arg.Bool? ==> r == if arg.b then "true" else "false"
    ensures arg.Str? ==> r == arg.s
    ensures arg.Num? || arg.Obj? || arg.Arr? || arg.Opaque? ==> r == show(arg)
  {
    match arg
    case Null => "null"
    case Bool(b) => if b then "true" else "false"
    case Str(s) => s
    case _ => show(arg)
  }

  /** One argument of the call text: booleans and numbers bare, everything
      else between quotes. */
  function ArgText(arg: Value, quote: string, show: Value -> string): (r: string)
    ensures arg.Bool? ==> r == if arg.b then "true" else "false"
    ensures arg.Num? ==> r == show(arg)
    ensures arg.Str? ==> r == quote + arg.s + quote
    ensures arg.Null? ==> r == quote + "null" + quote
    ensures arg.Obj? || arg.Arr? || arg.Opaque? ==> r == quote + show(arg) + quote
  {
    if arg.Bool? || arg.Num? then Text(arg, show) else quote + Text(arg, show) + quote
  }

  /** The texts joined with `,`, left to right. */
  function Joined(texts: seq<string>): string
    decreases |texts|
  {
    if texts == [] then ""
    else
      var n := |texts| - 1;
      Joined(texts[..n]) + (if n <= 0 then "" else ",") + texts[n]
  }

  /** The rendered text of each argument, in order. */
  function Texts(args: seq<Value>, quote: string, show: Value -> string): (t: seq<string>)
    ensures |t| == |args|
    ensures forall j :: 0 <= j < |args| ==> t[j] == ArgText(args[j], quote, show)
    ensures forall j :: 0 <= j < |args| && args[j].Str? ==> t[j] == quote + args[j].s + quote
    ensures forall j :: 0 <= j < |args| && args[j].Bool? ==> t[j] == if args[j].b then "true" else "false"
    ensures forall j :: 0 <= j < |args| && args[j].Num? ==> t[j] == show(args[j])
  {
    seq(|args|, j requires 0 <= j < |args| => ArgText(args[j], quote, show))
  }

  /** The arguments `toFunctionCallString(useValue, ...)` renders: the values,
      or the keys as strings; none for null keys. */
  function CallArgs(bean: FunctionBean, useValue: bool): (r: Option<seq<Value>>)
    ensures useValue ==> r == Some(bean.values)
    ensures !useValue ==> (r.None? <==> bean.keys.None?)
    ensures !useValue && r.Some? ==>
      |r.value| == |bean.keys.value| && forall j :: 0 <= j < |r.value| ==> r.value[j] == Str(bean.keys.value[j])
  {
    if useValue then Some(bean.values)
    else if bean.keys.None? then None
    else Some(seq(|bean.keys.value|, j requires 0 <= j < |bean.keys.value| => Str(bean.keys.value[j])))
  }

  /** The argument text of the call: the rendered arguments joined with `,`. */
  function ArgList(bean: FunctionBean, useValue: bool, quote: Option<string>, show: Value -> string): string
  {
    Joined(Texts(CallArgs(bean, useValue).GetOr([]), quote.GetOr("'"), show))
  }

  /** The text `toFunctionCallString(useValue, quote)` returns; a null quote
      means `'`. */
  function CallString(bean: FunctionBean, useValue: bool, quote: Option<string>, show: Value -> string): (r: string)
    ensures |r| >= |bean.name| + 2 && r[..|bean.name| + 1] == bean.name + "(" && r[|r| - 1] == ')'
  {
    bean.name + "(" + ArgList(bean, useValue, quote, show) + ")"
  }

  lemma JoinedStep(t: seq<string>, i: nat)
    requires i < |t|
    ensures Joined(t[..i + 1]) == Joined(t[..i]) + ((if i <= 0 then "" else ",") + t[i])
  {
    assert t[..i + 1][..i] == t[..i];
  }

  /** The loop of `toFunctionCallString`: each argument's text appended in
      turn, with a leading comma after the first. */
  method AppendArgs(head: string, a: seq<Value>, q: string, show: Value -> string) returns (s: string)
    ensures s == head + Joined(Texts(a, q, show))
  {
    s := head;
    ghost var t := Texts(a, q, show);
    for i := 0 to |a|
      invariant s == head + Joined(t[..i])
    {
      var piece := (if i <= 0 then "" else ",") + ArgText(a[i], q, show);
      JoinedStep(t, i);
      ConcatAssoc(head, Joined(t[..i]), piece);
      s := s + piece;
    }
    assert t[..|a|] == t;
  }

  /** `toFunctionCallString`: the method, then the arguments, then `)`. The
      schema is not emitted. */
  method ToFunctionCallString(bean: FunctionBean, useValue: bool, quote: Option<string>, show: Value -> string)
    returns (s: string)
    ensures s == CallString(bean, useValue, quote, show)
  {
    s := bean.name + "(";
    var args := CallArgs(bean, useValue);
    if args.Some? && |args.value| > 0 {
      var q := if quote.None? then "'" else quote.value;
      s := AppendArgs(s, args.value, q, show);
    } else {
      assert Texts(args.GetOr([]), quote.GetOr("'"), show) == [];
    }
    s := s + ")";
  }

  /** Joining is comma-separated concatenation: a comma between two non-empty
      parts, none otherwise. */
  lemma {:induction false} JoinedAppend(a: seq<string>, b: seq<string>)
    ensures Joined(a + b) == Joined(a) + (if a != [] && b != [] then "," else "") + Joined(b)
    decreases |b|
  {
    if b == [] {
      assert a + b == a;
    } else {
      var b', x := b[..|b| - 1], b[|b| - 1];
      assert (a + b)[..|a + b| - 1] == a + b';
      assert (a + b)[|a + b| - 1] == x;
      JoinedAppend(a, b');
      if b' == [] {
        assert a + b' == a;
        assert Joined(b) == x;
      } else {
        assert Joined(b) == Joined(b') + "," + x;
        assert Joined(a + b) == Joined(a + b') + "," + x;
      }
    }
  }

  /** Occurrences of `c` in `s`. */
  function Occurrences(s: string, c: char): nat
    decreases |s|
  {
    if s == [] then 0 else Occurrences(s[..|s| - 1], c) + (if s[|s| - 1] == c then 1 else 0)
  }

  lemma {:induction false} OccurrencesAppend(x: string, y: string, c: char)
    ensures Occurrences(x + y, c) == Occurrences(x, c) + Occurrences(y, c)
    decreases |y|
  {
    if y == [] {
      assert x + y == x;
    } else {
      var y' := y[..|y| - 1];
      assert (x + y)[..|x + y| - 1] == x + y';
      assert (x + y)[|x + y| - 1] == y[|y| - 1];
      OccurrencesAppend(x, y', c);
    }
  }

  lemma {:induction false} OccurrencesAbsent(s: string, c: char)
    requires c !in s
    ensures Occurrences(s, c) == 0
    decreases |s|
  {
    if s != [] {
      assert c !in s[..|s| - 1];
      OccurrencesAbsent(s[..|s| - 1], c);
    }
  }

  /** When no argument text holds a comma, the joined text holds exactly
      |t| - 1 commas, one between each pair of neighbours. */
  lemma {:induction false} SeparatorCount(t: seq<string>)
    requires t != []
    requires forall k :: 0 <= k < |t| ==> ',' !in t[k]
    ensures Occurrences(Joined(t), ',') == |t| - 1
    decreases |t|
  {
    var n := |t| - 1;
    OccurrencesAbsent(t[n], ',');
    if n == 0 {
      assert t[..0] == [];
      assert Joined(t) == t[0];
    } else {
      SeparatorCount(t[..n]);
      OccurrencesAppend(Joined(t[..n]) + ",", t[n], ',');
      OccurrencesAppend(Joined(t[..n]), ",", ',');
      assert Occurrences(",", ',') == 1 by {
        assert ","[..0] == "";
      }
    }
  }

  /** Rendering the keys: each key between quotes, joined with `,`, with no
      lookup and no other text. */
  lemma KeysCallString(bean: FunctionBean, q: string, show: Value -> string)
    requires bean.keys.Some?
    ensures var ks := bean.keys.value;
      CallString(bean, false, Some(q), show)
        == bean.name + "(" + Joined(seq(|ks|, j requires 0 <= j < |ks| => q + ks[j] + q)) + ")"
  {
    var ks := bean.keys.value;
    var args := CallArgs(bean, false).value;
    assert Texts(args, q, show) == seq(|ks|, j requires 0 <= j < |ks| => q + ks[j] + q);
  }

  /** With no arguments the call text is `name()`. */
  lemma EmptyCall(bean: FunctionBean, useValue: bool, quote: Option<string>, show: Value -> string)
    requires CallArgs(bean, useValue).None? || CallArgs(bean, useValue) == Some([])
    ensures CallString(bean, useValue, quote, show) == bean.name + "()"
  {
  }

  /** The rendered call is read back by `parseFunction`'s split: for a method
      name without `(` and `.`, the prefix is the name, there is no schema, and
      the argument text is the joined arguments. */
  lemma CallStringRoundTrip(bean: FunctionBean, useValue: bool, quote: Option<string>, show: Value -> string)
    requires bean.name != "" && '(' !in bean.name && '.' !in bean.name
    ensures var args := ArgList(bean, useValue, quote, show);
      && CallParts(CallString(bean, useValue, quote, show)) == Some((bean.name, args))
      && SchemaParts(bean.name) == (None, bean.name)
  {
    var args := ArgList(bean, useValue, quote, show);
    CallPartsExact(CallString(bean, useValue, quote, show), bean.name, args);
  }
}
