/** `getArgValue`: how one argument token of a call expression is resolved
    against the current JSON object. First match wins. */
module ArgResolver {
  import opened Wrappers
  import opened Json
  import opened Strings

  /** The quoted-form test: the token ends with `q` and the first `q` after
      index 0 is its last character. The first character is never looked at,
      and a one-character token `q` passes. */
  predicate QuotedWith(s: string, q: char): (b: bool)
    ensures b <==> |s| > 0 && s[|s| - 1] == q && (|s| == 1 || q !in s[1..|s| - 1])
  {
    if |s| > 0 && s[|s| - 1] == q then QuoteInside(s, q); IndexOf(s[1..], q) == |s| - 2
    else false
  }

  /** For a token ending in `q`: the first `q` after index 0 is the last
      character exactly when no `q` lies between. */
  lemma QuoteInside(s: string, q: char)
    requires |s| > 0 && s[|s| - 1] == q
    ensures IndexOf(s[1..], q) == |s| - 2 <==> |s| == 1 || q !in s[1..|s| - 1]
  {
    if |s| > 1 {
      var t := s[1..];
      assert t[..|t| - 1] == s[1..|s| - 1];
      assert t[|t| - 1] == q;
    }
  }

  /** The token with an optional leading `@` removed: the name the `@` form
      checks. */
  function StripAt(s: string): (r: string)
    ensures |s| > 0 && s[0] == '@' ==> "@" + r == s
    ensures !(|s| > 0 && s[0] == '@') ==> r == s
  {
    if |s| > 0 && s[0] == '@' then s[1..] else s
  }

  /** `getArgValue(currentObject, keyOrValue, containRaw)`, with `raw` for
      `AbstractSQLConfig.RAW_MAP`. A one-character quoted token reaches
      `substring(1, 0)`, which throws. */
  function ArgValue(current: JsonObject, token: Option<string>, containRaw: bool,
                    lib: Library, raw: map<string, string>): (r: Result<Value, Fault>)
    ensures token.None? ==> r == Ok(Null)
    ensures r.Err? <==> token == Some("`") || token == Some("'")
    ensures r.Err? ==> r.error == StringIndexOutOfBounds
  {
    if token.None? then Ok(Null)
    else
      var s := token.value;
      if QuotedWith(s, '`') then
        if |s| < 2 then assert s == "`"; Err(StringIndexOutOfBounds)
        else Ok(Get(current, s[1..|s| - 1]))
      else if QuotedWith(s, '\'') then
        if |s| < 2 then assert s == "'"; Err(StringIndexOutOfBounds)
        else Ok(Str(s[1..|s| - 1]))
      else if containRaw && s in raw then
        Ok(Str(if raw[s] == "" then s else raw[s]))
      else if lib.isName(StripAt(s)) then
        Ok(Get(current, s))
      else if s == "true" then
        Ok(Bool(true))
      else if s == "false" then
        Ok(Bool(false))
      else
        match lib.parseDouble(s)
        case Some(n) => Ok(Num(n))
        case None => Ok(Get(current, s))
  }

  /** A token `c`+inner+"`" with no backtick inside is a reference: its inner
      text is looked up in the current object, whatever its first character
      and whatever the raw-table permission. */
  lemma BacktickReference(current: JsonObject, c: char, inner: string, containRaw: bool,
                          lib: Library, raw: map<string, string>)
    requires '`' !in inner
    ensures ArgValue(current, Some([c] + inner + "`"), containRaw, lib, raw) == Ok(Get(current, inner))
  {
    var s := [c] + inner + "`";
    assert s[1..] == inner + "`";
    IndexOfAfter(inner, '`', "");
    assert inner + "`" == inner + ['`'] + "";
    assert s[1..|s| - 1] == inner;
  }

  /** A token `c`+text+"'" with no single quote inside is the literal `text`,
      whatever the current object and the raw table hold. */
  lemma QuotedLiteral(current: JsonObject, c: char, text: string, containRaw: bool,
                      lib: Library, raw: map<string, string>)
    requires '\'' !in text
    ensures ArgValue(current, Some([c] + text + "'"), containRaw, lib, raw) == Ok(Str(text))
  {
    var s := [c] + text + "'";
    assert s[1..] == text + "'";
    IndexOfAfter(text, '\'', "");
    assert text + "'" == text + ['\''] + "";
    assert s[1..|s| - 1] == text;
  }

  /** An illustration of `QuotedLiteral` on one token: the quoted form is a
      single-quoted literal even when the token does not start with a quote,
      so `ab'` resolves to `b`. */
  lemma FirstCharacterUnchecked(current: JsonObject, lib: Library, raw: map<string, string>)
    ensures ArgValue(current, Some("ab'"), true, lib, raw) == Ok(Str("b"))
  {
    QuotedLiteral(current, 'a', "b", true, lib, raw);
    assert ['a'] + "b" + "'" == "ab'";
  }

  /** Without the raw permission the raw table is never consulted. */
  lemma RawTableNeedsPermission(current: JsonObject, token: Option<string>, lib: Library,
                                raw1: map<string, string>, raw2: map<string, string>)
    ensures ArgValue(current, token, false, lib, raw1) == ArgValue(current, token, false, lib, raw2)
  {
  }

  /** A raw-table hit on an unquoted token yields the table's text, and an
      empty registered text echoes the token itself. */
  lemma RawTableHit(current: JsonObject, s: string, lib: Library, raw: map<string, string>)
    requires s in raw && !QuotedWith(s, '`') && !QuotedWith(s, '\'')
    ensures ArgValue(current, Some(s), true, lib, raw) == Ok(Str(if raw[s] == "" then s else raw[s]))
  {
  }

  /** `true` and `false` are booleans only when no raw-table hit and no name
      reference claims them first; a name-valid `true` is looked up. */
  lemma BooleanLiterals(current: JsonObject, b: bool, containRaw: bool,
                        lib: Library, raw: map<string, string>)
    ensures var s := if b then "true" else "false";
      ArgValue(current, Some(s), containRaw, lib, raw) ==
        if containRaw && s in raw then Ok(Str(if raw[s] == "" then s else raw[s]))
        else if lib.isName(s) then Ok(Get(current, s))
        else Ok(Bool(b))
  {
    var s := if b then "true" else "false";
    assert !QuotedWith(s, '`') && !QuotedWith(s, '\'') by {
      assert s[|s| - 1] == 'e';
    }
    assert StripAt(s) == s by {
      assert s[0] != '@';
    }
  }

  /** A token that no quote test and no raw-table hit claims, and that is a
      name once an optional leading `@` is dropped, is looked up as written. */
  lemma NameReference(current: JsonObject, s: string, containRaw: bool,
                      lib: Library, raw: map<string, string>)
    requires !QuotedWith(s, '`') && !QuotedWith(s, '\'') && !(containRaw && s in raw)
    requires lib.isName(StripAt(s))
    ensures ArgValue(current, Some(s), containRaw, lib, raw) == Ok(Get(current, s))
  {
  }

  /** An `@`-prefixed reference whose rest is a name is looked up with the
      `@` kept. */
  lemma AtReference(current: JsonObject, name: string, containRaw: bool,
                    lib: Library, raw: map<string, string>)
    requires lib.isName(name) && |name| > 0 && name[|name| - 1] != '`' && name[|name| - 1] != '\''
    requires !(containRaw && "@" + name in raw)
    ensures ArgValue(current, Some("@" + name), containRaw, lib, raw) == Ok(Get(current, "@" + name))
  {
    var s := "@" + name;
    assert s[|s| - 1] == name[|name| - 1];
    assert StripAt(s) == name;
  }

  /** A token no earlier rule claims is a number when it parses as one, and
      otherwise a plain lookup; resolution never fails on it. */
  lemma NumberOrLookup(current: JsonObject, s: string, containRaw: bool,
                       lib: Library, raw: map<string, string>)
    requires !QuotedWith(s, '`') && !QuotedWith(s, '\'')
    requires !(containRaw && s in raw) && !lib.isName(StripAt(s))
    requires s != "true" && s != "false"
    ensures ArgValue(current, Some(s), containRaw, lib, raw) ==
      if lib.parseDouble(s).Some? then Ok(Num(lib.parseDouble(s).value)) else Ok(Get(current, s))
  {
  }
}
