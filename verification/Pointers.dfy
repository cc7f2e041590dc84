/** RFC 6901 pointers: syntax, unescaping, the index guard and lookup. */
module Pointers {
  import opened Foundations
  import opened Json

  function Split(s: string, separator: char): (parts: seq<string>)
    ensures |parts| >= 1
  {
    if s == [] then [""]
    else
      var rest := Split(s[1..], separator);
      if s[0] == separator then [""] + rest else [[s[0]] + rest[0]] + rest[1..]
  }

  // str.replace of a two-character text "~c" by one character, left to right.
  function ReplaceEscape(s: string, digit: char, plain: char): string {
    if |s| < 2 then s
    else if s[0] == '~' && s[1] == digit then [plain] + ReplaceEscape(s[2..], digit, plain)
    else [s[0]] + ReplaceEscape(s[1..], digit, plain)
  }

  // Both readers unescape in two passes, first ~1 and then ~0.
  function Unescape(part: string): string {
    ReplaceEscape(ReplaceEscape(part, '1', '/'), '0', '~')
  }

  predicate InvalidEscape(s: string) {
    exists k | 0 <= k < |s| :: s[k] == '~' && (k + 1 == |s| || s[k + 1] !in "01")
  }

  function Parts(pointer: string): seq<string> {
    Split(pointer, '/')[1..]
  }

  // The compiler's reference tokens of a pointer.
  function Tokens(pointer: string): seq<string> {
    var parts := Parts(pointer);
    seq(|parts|, k requires 0 <= k < |parts| => Unescape(parts[k]))
  }

  predicate WellFormed(pointer: string) {
    (pointer == "" || pointer[0] == '/') && !InvalidEscape(pointer)
  }

  // ---- Array indexes -------------------------------------------------------

  predicate IsDigit(c: char) {
    '0' <= c <= '9'
  }

  predicate IsIndex(key: string) {
    && key != ""
    && (forall k | 0 <= k < |key| :: IsDigit(key[k]))
    && (|key| == 1 || key[0] != '0')
  }

  function ParseIndex(key: string): nat
    requires forall k | 0 <= k < |key| :: IsDigit(key[k])
  {
    if key == "" then 0
    else
      assert IsDigit(key[|key| - 1]);
      ParseIndex(key[..|key| - 1]) * 10 + (key[|key| - 1] as int - '0' as int)
  }

  // len(str(n))
  function DecimalWidth(n: nat): nat {
    if n < 10 then 1 else 1 + DecimalWidth(n / 10)
  }

  // ---- Lookup --------------------------------------------------------------

  function Select(value: Json, key: string): Option<Json> {
    if value.Obj? && key in value.fields then
      Some(value.fields[key])
    else if value.Arr? && IsIndex(key) && |key| <= DecimalWidth(|value.items|)
            && ParseIndex(key) < |value.items| then
      Some(value.items[ParseIndex(key)])
    else
      None
  }

  function Walk(tokens: seq<string>, value: Json): Option<Json>
    decreases |tokens|
  {
    if tokens == [] then Some(value)
    else
      match Select(value, tokens[0])
      case None => None
      case Some(next) => Walk(tokens[1..], next)
  }

  lemma WalkInto(tokens: seq<string>, fields: Object)
    requires tokens != []
    ensures Walk(tokens, Obj(fields)) == if tokens[0] in fields then Walk(tokens[1..], fields[tokens[0]]) else None
  {
  }

  // Ok(None) is "not found"; malformed syntax and over-long pointers are errors.
  function Lookup(pointer: string, context: Json): Result<Option<Json>, ErrorCode> {
    if !WellFormed(pointer) || Long(pointer) then Err(InvalidConfiguration)
    else Ok(Walk(Tokens(pointer), context))
  }

  // More tokens than the engine follows.
  predicate Long(pointer: string) {
    |Tokens(pointer)| > MAX_JSON_DEPTH
  }

  predicate Admissible(pointer: string) {
    WellFormed(pointer) && !Long(pointer)
  }

  // lookup_pointer as it is written: a walk that replaces `value` token by token.
  method LookupPointer(pointer: string, context: Json) returns (r: Result<Option<Json>, ErrorCode>)
    ensures r == Lookup(pointer, context)
  {
    if (pointer != "" && pointer[0] != '/') || InvalidEscape(pointer) {
      return Err(InvalidConfiguration);
    }
    if pointer == "" {
      return Ok(Some(context));
    }
    var parts := Split(pointer[1..], '/');
    assert Split(pointer, '/')[1..] == parts;
    if |parts| > MAX_JSON_DEPTH {
      return Err(InvalidConfiguration);
    }
    ghost var tokens := Tokens(pointer);
    var value := context;
    for k := 0 to |parts|
      invariant Walk(tokens[k..], value) == Walk(tokens, context)
    {
      var key := Unescape(parts[k]);
      assert tokens[k..][0] == key && tokens[k..][1..] == tokens[k + 1..];
      if value.Obj? && key in value.fields {
        value := value.fields[key];
      } else if value.Arr? && IsIndex(key) && |key| <= DecimalWidth(|value.items|)
                && ParseIndex(key) < |value.items| {
        value := value.items[ParseIndex(key)];
      } else {
        return Ok(None);
      }
    }
    return Ok(Some(value));
  }

  // ---- Two passes decode like one ------------------------------------------

  // RFC 6901 section 4 read as a single left-to-right decoding.
  function Decode(part: string): string {
    if part == "" then ""
    else if part[0] == '~' && |part| > 1 && part[1] == '0' then "~" + Decode(part[2..])
    else if part[0] == '~' && |part| > 1 && part[1] == '1' then "/" + Decode(part[2..])
    else [part[0]] + Decode(part[1..])
  }

  function Encode(token: string): string {
    if token == "" then ""
    else (if token[0] == '~' then "~0" else if token[0] == '/' then "~1" else [token[0]]) + Encode(token[1..])
  }

  lemma InvalidEscapeTail(s: string, k: nat)
    requires k <= |s| && !InvalidEscape(s)
    ensures !InvalidEscape(s[k..])
  {
  }

  lemma {:induction false} TwoPassesDecode(part: string)
    requires !InvalidEscape(part)
    ensures Unescape(part) == Decode(part)
  {
    if part != "" {
      if part[0] == '~' {
        assert |part| > 1 && part[1] in "01";
        InvalidEscapeTail(part, 2);
        TwoPassesDecode(part[2..]);
        var rest := ReplaceEscape(part[2..], '1', '/');
        if part[1] == '1' {
          FirstUnescaped('/', rest);
        } else {
          EscapeKept(part[1..]);
          assert ReplaceEscape(part, '1', '/') == ['~', '0'] + rest;
          assert (['~', '0'] + rest)[2..] == rest;
        }
      } else {
        InvalidEscapeTail(part, 1);
        TwoPassesDecode(part[1..]);
        var rest := ReplaceEscape(part[1..], '1', '/');
        assert ReplaceEscape(part, '1', '/') == [part[0]] + rest;
        FirstUnescaped(part[0], rest);
      }
    }
  }

  lemma FirstUnescaped(c: char, rest: string)
    requires c != '~'
    ensures ReplaceEscape([c] + rest, '0', '~') == [c] + ReplaceEscape(rest, '0', '~')
  {
    if rest == "" {
      assert [c] + rest == [c];
    } else {
      assert ([c] + rest)[1..] == rest;
    }
  }

  lemma EscapeKept(s: string)
    requires s != "" && s[0] == '0'
    ensures ReplaceEscape(s, '1', '/') == ['0'] + ReplaceEscape(s[1..], '1', '/')
  {
    if |s| == 1 {
      assert s == ['0'] + s[1..];
    }
  }

  lemma {:induction false} EncodeDecodes(token: string)
    ensures Decode(Encode(token)) == token
    ensures !InvalidEscape(Encode(token)) && '/' !in Encode(token)
  {
    if token != "" {
      EncodeDecodes(token[1..]);
      var head := if token[0] == '~' then "~0" else if token[0] == '/' then "~1" else [token[0]];
      var tail := Encode(token[1..]);
      assert Encode(token) == head + tail;
      assert (head + tail)[|head|..] == tail;
      forall k | 0 <= k < |head + tail|
        ensures (head + tail)[k] != '/'
        ensures (head + tail)[k] == '~' ==> k + 1 < |head + tail| && (head + tail)[k + 1] in "01"
      {
        if k >= |head| {
          assert (head + tail)[k] == tail[k - |head|];
          assert tail[k - |head|] in tail;
          if tail[k - |head|] == '~' {
            assert k - |head| + 1 < |tail| && tail[k - |head| + 1] in "01";
            assert (head + tail)[k + 1] == tail[k + 1 - |head|];
          }
        }
      }
    }
  }

  // The pointer that spells a list of reference tokens (RFC 6901 section 3).
  function Spell(tokens: seq<string>): string {
    if tokens == [] then "" else "/" + Encode(tokens[0]) + Spell(tokens[1..])
  }

  lemma {:induction false} SplitJoin(head: string, rest: string)
    requires '/' !in head && (rest == "" || rest[0] == '/')
    ensures Split(head + rest, '/') == [head] + (if rest == "" then [] else Split(rest[1..], '/'))
  {
    if head == "" {
      assert head + rest == rest;
    } else {
      assert (head + rest)[1..] == head[1..] + rest;
      SplitJoin(head[1..], rest);
      assert [head[0]] + head[1..] == head;
      assert head[0] in head;
    }
  }

  // Every list of reference tokens is spelled by a well-formed pointer that both
  // readers split back into exactly that list.
  lemma {:induction false} SpellRoundTrip(tokens: seq<string>)
    ensures WellFormed(Spell(tokens))
    ensures Tokens(Spell(tokens)) == tokens
    ensures Spell(tokens) == "" <==> tokens == []
  {
    if tokens != [] {
      SpellRoundTrip(tokens[1..]);
      SpellStep(tokens);
    }
  }

  lemma SpellShape(tokens: seq<string>)
    requires tokens != []
    ensures var s := Spell(tokens); s != "" && s[0] == '/' && s[1..] == Encode(tokens[0]) + Spell(tokens[1..])
  {
    Slashed(Encode(tokens[0]), Spell(tokens[1..]));
  }

  lemma Slashed(head: string, rest: string)
    ensures var s := "/" + head + rest; |s| > 0 && s[0] == '/' && s[1..] == head + rest
  {
    assert ("/" + head + rest)[1..] == head + rest;
  }

  lemma SpellStep(tokens: seq<string>)
    requires tokens != [] && WellFormed(Spell(tokens[1..])) && Tokens(Spell(tokens[1..])) == tokens[1..]
    ensures WellFormed(Spell(tokens))
    ensures Tokens(Spell(tokens)) == tokens
  {
    var head, rest, s := Encode(tokens[0]), Spell(tokens[1..]), Spell(tokens);
    SpellShape(tokens);
    EncodeDecodes(tokens[0]);
    assert WellFormed(s) by {
      SpelledWell(s, head, rest);
    }
    assert Parts(s) == [head] + Parts(rest) by {
      SplitJoin(head, rest);
      SpelledParts(s, head, rest);
    }
    assert Unescape(head) == tokens[0] by {
      TwoPassesDecode(head);
    }
    ConsTokens(s, head, rest, tokens[0]);
    assert [tokens[0]] + tokens[1..] == tokens;
  }

  lemma ConsTokens(s: string, head: string, rest: string, first: string)
    requires Parts(s) == [head] + Parts(rest) && Unescape(head) == first
    ensures Tokens(s) == [first] + Tokens(rest)
  {
  }

  lemma SpelledParts(s: string, head: string, rest: string)
    requires s != "" && s[0] == '/' && s[1..] == head + rest && (rest == "" || rest[0] == '/')
    requires Split(head + rest, '/') == [head] + (if rest == "" then [] else Split(rest[1..], '/'))
    ensures Parts(s) == [head] + Parts(rest)
  {
    assert Split(s, '/')[1..] == Split(head + rest, '/');
    assert rest != "" ==> Split(rest, '/')[1..] == Split(rest[1..], '/');
  }

  lemma SpelledWell(s: string, head: string, rest: string)
    requires s != "" && s[0] == '/' && s[1..] == head + rest && WellFormed(rest)
    requires forall k | 0 <= k < |head| && head[k] == '~' :: k + 1 < |head| && head[k + 1] in "01"
    ensures WellFormed(s)
  {
    forall k | 0 <= k < |s| && s[k] == '~' ensures k + 1 < |s| && s[k + 1] in "01" {
      assert s[k] == s[1..][k - 1];
      if k <= |head| {
        assert head[k - 1] == '~';
        assert s[k + 1] == s[1..][k] == head[k];
      } else {
        assert rest[k - 1 - |head|] == '~';
        assert s[k + 1] == s[1..][k] == rest[k - |head|];
      }
    }
  }

  // ---- The width guard never rejects a valid index ---------------------------

  function Power10(n: nat): nat {
    if n == 0 then 1 else 10 * Power10(n - 1)
  }

  lemma {:induction false} IndexAtLeast(key: string)
    requires IsIndex(key) && key[0] != '0'
    ensures ParseIndex(key) >= Power10(|key| - 1)
  {
    if |key| > 1 {
      IndexAtLeast(key[..|key| - 1]);
    }
  }

  lemma {:induction false} WidthBelow(n: nat)
    ensures n < Power10(DecimalWidth(n))
  {
    if n >= 10 {
      WidthBelow(n / 10);
    }
  }

  lemma {:induction false} Power10Monotone(m: nat, n: nat)
    requires m <= n
    ensures Power10(m) <= Power10(n)
  {
    if m < n {
      Power10Monotone(m, n - 1);
    }
  }

  // The guard on the number of digits only spares parsing: it rejects no index
  // that selects an item.
  lemma GuardKeepsValidIndexes(key: string, length: nat)
    requires IsIndex(key) && ParseIndex(key) < length
    ensures |key| <= DecimalWidth(length)
  {
    if |key| > DecimalWidth(length) {
      if key[0] != '0' {
        IndexAtLeast(key);
        WidthBelow(length);
        Power10Monotone(DecimalWidth(length), |key| - 1);
      }
    }
  }

  lemma SelectsItem(items: seq<Json>, key: string)
    ensures Select(Arr(items), key) ==
            if IsIndex(key) && ParseIndex(key) < |items| then Some(items[ParseIndex(key)]) else None
  {
    if IsIndex(key) && ParseIndex(key) < |items| {
      GuardKeepsValidIndexes(key, |items|);
    }
  }
}
