/** Prompt templates: the placeholder scanner, and printing as its inverse. */
module Prompts {
  import opened Foundations

  datatype Part = Text(text: string) | Input(name: string)

  datatype Delimiter = FourOpen | FourClose | Open | Close

  function Spelling(d: Delimiter): string {
    match d
    case FourOpen => "{{{{"
    case FourClose => "}}}}"
    case Open => "{{"
    case Close => "}}"
  }

  predicate Starts(s: string, brace: char, count: nat) {
    count <= |s| && forall k | 0 <= k < count :: s[k] == brace
  }

  // The alternatives of the delimiter pattern, in order.
  function DelimiterAt(s: string): (d: Option<Delimiter>)
    ensures d.Some? ==> |s| >= |Spelling(d.value)| >= 2
    ensures d == Some(FourOpen) || d == Some(Open) ==> s[0] == '{'
  {
    if Starts(s, '{', 4) then Some(FourOpen)
    else if Starts(s, '}', 4) then Some(FourClose)
    else if Starts(s, '{', 2) then Some(Open)
    else if Starts(s, '}', 2) then Some(Close)
    else None
  }

  // Leftmost match.
  function Find(s: string): (k: Option<nat>)
    ensures k.Some? ==> k.value < |s| && DelimiterAt(s[k.value..]).Some?
    ensures k.Some? && k.value > 0 ==> DelimiterAt(s[k.value - 1..]).None?
  {
    if s == "" then None
    else if DelimiterAt(s).Some? then
      assert s[0..] == s;
      Some(0)
    else
      var rest := Find(s[1..]);
      if rest.None? then None
      else
        assert s[1..][rest.value..] == s[rest.value + 1..];
        assert rest.value > 0 ==> s[1..][rest.value - 1..] == s[rest.value..];
        assert s[0..] == s;
        Some(rest.value + 1)
  }

  // str.find of the closing braces.
  function FindClose(s: string): (k: Option<nat>)
    ensures k.Some? ==> k.value + 2 <= |s|
  {
    if |s| < 2 then None
    else if s[0] == '}' && s[1] == '}' then Some(0)
    else
      var rest := FindClose(s[1..]);
      if rest.None? then None else Some(rest.value + 1)
  }

  predicate Space(c: char) {
    c == ' ' || c == '\t'
  }

  function TrimLeft(s: string): string {
    if s != "" && Space(s[0]) then TrimLeft(s[1..]) else s
  }

  function TrimRight(s: string): string {
    if s != "" && Space(s[|s| - 1]) then TrimRight(s[..|s| - 1]) else s
  }

  // [ \t]*name[ \t]*, with the name among the declared ones.
  function Placeholder(inner: string, names: set<string>): Option<string> {
    var name := TrimRight(TrimLeft(inner));
    if IsItemId(name) && name in names then Some(name) else None
  }

  // What the scanner does at its next delimiter, `at` characters on: stop, emit a pair
  // of braces, or place an input and go on at `next`.
  datatype Move = Ends | Fails | Escapes(at: nat, pair: string) | Places(at: nat, name: string, next: nat)

  function Place(inner: string, at: nat, names: set<string>): Move {
    match FindClose(inner)
    case None => Fails
    case Some(end) =>
      match Placeholder(inner[..end], names)
      case None => Fails
      case Some(name) => Places(at, name, at + end + 4)
  }

  function Step(rest: string, names: set<string>): (move: Move)
    ensures move.Escapes? ==> move.at + 4 <= |rest|
    ensures move.Places? ==> move.at + 4 <= move.next <= |rest|
  {
    match Find(rest)
    case None => Ends
    case Some(k) =>
      match DelimiterAt(rest[k..]).value
      case FourOpen => Escapes(k, "{{")
      case FourClose => Escapes(k, "}}")
      case Close => Fails
      case Open => Place(rest[k + 2..], k, names)
  }

  // The scanner from a position on, with the literal collected so far.
  function Scan(rest: string, names: set<string>, literal: string): Result<seq<Part>, ErrorCode>
    decreases |rest|
  {
    match Step(rest, names)
    case Ends => Ok([Text(literal + rest)])
    case Fails => Err(InvalidConfiguration)
    case Escapes(at, pair) => Scan(rest[at + 4..], names, literal + rest[..at] + pair)
    case Places(at, name, next) => Prefixed([Text(literal + rest[..at]), Input(name)], Scan(rest[next..], names, ""))
  }

  function Prefixed(parts: seq<Part>, rest: Result<seq<Part>, ErrorCode>): Result<seq<Part>, ErrorCode> {
    if rest.Err? then rest else Ok(parts + rest.value)
  }

  predicate Declared(inputs: seq<string>) {
    && (forall k | 0 <= k < |inputs| :: IsItemId(inputs[k]))
    && forall j, k | 0 <= j < k < |inputs| :: inputs[j] != inputs[k]
  }

  function Names(inputs: seq<string>): set<string> {
    set n | n in inputs
  }

  function Compile(template: string, inputs: seq<string>): Result<seq<Part>, ErrorCode> {
    if !Declared(inputs) then Err(InvalidConfiguration) else Scan(template, Names(inputs), "")
  }

  // One move of the scanner: what it emits and where it goes on.
  datatype Cursor = Cursor(position: nat, parts: seq<Part>, literal: string)

  function Advance(c: Cursor, rest: string, move: Move): Cursor
    requires move.Escapes? || move.Places?
    requires move.at <= |rest|
  {
    match move
    case Escapes(at, pair) => Cursor(c.position + at + 4, c.parts, c.literal + rest[..at] + pair)
    case Places(at, name, next) => Cursor(c.position + next, c.parts + [Text(c.literal + rest[..at]), Input(name)], "")
  }

  // The parts so far, completed by what is left to scan.
  function Pending(template: string, names: set<string>, c: Cursor): Result<seq<Part>, ErrorCode>
    requires c.position <= |template|
  {
    Prefixed(c.parts, Scan(template[c.position..], names, c.literal))
  }

  lemma ScanBegins(template: string, names: set<string>)
    ensures Pending(template, names, Cursor(0, [], "")) == Scan(template, names, "")
  {
    assert template[0..] == template;
    Regroup([], [], Scan(template, names, ""));
  }

  lemma ScanEnds(template: string, names: set<string>, c: Cursor)
    requires c.position <= |template|
    ensures var move := Step(template[c.position..], names);
            && (move.Ends? ==> Pending(template, names, c) == Ok(c.parts + [Text(c.literal + template[c.position..])]))
            && (move.Fails? ==> Pending(template, names, c) == Err(InvalidConfiguration))
  {
  }

  lemma EscapeAdvances(rest: string, left: string, names: set<string>, literal: string, move: Move)
    requires move == Step(rest, names) && move.Escapes? && left == rest[move.at + 4..]
    ensures Scan(rest, names, literal) == Scan(left, names, literal + rest[..move.at] + move.pair)
  {
  }

  lemma PlaceAdvances(rest: string, left: string, names: set<string>, literal: string, move: Move)
    requires move == Step(rest, names) && move.Places? && left == rest[move.next..]
    ensures Scan(rest, names, literal) == Prefixed([Text(literal + rest[..move.at]), Input(move.name)],
                                                   Scan(left, names, ""))
  {
  }

  lemma ScanAdvances(template: string, names: set<string>, c: Cursor, rest: string, move: Move, next: Cursor)
    requires c.position <= |template| && rest == template[c.position..] && move == Step(rest, names)
    requires (move.Escapes? || move.Places?) && next == Advance(c, rest, move)
    ensures c.position < next.position <= |template| && Pending(template, names, next) == Pending(template, names, c)
  {
    var left := template[next.position..];
    ScanSkips(template, c.position, next.position - c.position);
    if move.Escapes? {
      EscapeAdvances(rest, left, names, c.literal, move);
    } else {
      PlaceAdvances(rest, left, names, c.literal, move);
      Regroup(c.parts, [Text(c.literal + rest[..move.at]), Input(move.name)], Scan(left, names, ""));
    }
  }

  // compile_prompt as it is written: one scanner over position, literal and parts.
  method CompilePrompt(template: string, inputs: seq<string>) returns (r: Result<seq<Part>, ErrorCode>)
    ensures r == Compile(template, inputs)
  {
    if !Declared(inputs) {
      return Err(InvalidConfiguration);
    }
    var names := Names(inputs);
    var parts: seq<Part>, literal, position := [], "", 0;
    ScanBegins(template, names);
    while true
      invariant position <= |template|
      invariant Pending(template, names, Cursor(position, parts, literal)) == Scan(template, names, "")
      decreases |template| - position
    {
      ghost var before := Cursor(position, parts, literal);
      var rest := template[position..];
      var move := Step(rest, names);
      ScanEnds(template, names, before);
      if move.Ends? {
        return Ok(parts + [Text(literal + rest)]);
      } else if move.Fails? {
        return Err(InvalidConfiguration);
      }
      ScanAdvances(template, names, before, rest, move, Advance(before, rest, move));
      if move.Escapes? {
        literal := literal + rest[..move.at] + move.pair;
        position := position + move.at + 4;
      } else {
        parts := parts + [Text(literal + rest[..move.at]), Input(move.name)];
        literal := "";
        position := position + move.next;
      }
      assert Cursor(position, parts, literal) == Advance(before, rest, move);
    }
  }

  lemma ScanSkips(template: string, position: nat, count: nat)
    requires position + count <= |template|
    ensures template[position..][count..] == template[position + count..]
  {
  }

  lemma Regroup(before: seq<Part>, more: seq<Part>, rest: Result<seq<Part>, ErrorCode>)
    ensures Prefixed(before, Prefixed(more, rest)) == Prefixed(before + more, rest)
    ensures Prefixed([], rest) == rest
  {
    if rest.Ok? {
      assert before + (more + rest.value) == before + more + rest.value;
      assert [] + rest.value == rest.value;
    }
  }

  // ---- What compilation produces -----------------------------------------------------------------

  // Literal, input, literal, …, literal.
  predicate Alternating(parts: seq<Part>) {
    && |parts| % 2 == 1
    && forall k | 0 <= k < |parts| :: parts[k].Text? <==> k % 2 == 0
  }

  // The number of opening braces a text ends with.
  function OpenRun(text: string): nat {
    if text != "" && text[|text| - 1] == '{' then 1 + OpenRun(text[..|text| - 1]) else 0
  }

  // Placeholders name declared inputs, and the literal before one ends in whole pairs.
  predicate Printable(parts: seq<Part>, names: set<string>) {
    && Alternating(parts)
    && forall k | 0 <= k < |parts| && parts[k].Input? ::
      k > 0 && parts[k].name in names && IsItemId(parts[k].name) && OpenRun(parts[k - 1].text) % 2 == 0
  }

  lemma OpenRunEnds(text: string, more: string)
    requires more != "" && more[|more| - 1] != '{'
    ensures OpenRun(text + more) == 0
  {
    assert (text + more)[|text + more| - 1] == more[|more| - 1];
  }

  lemma OpenRunPair(text: string)
    ensures OpenRun(text + "{{") == OpenRun(text) + 2
  {
    var s := text + "{{";
    assert s[..|s| - 1] == text + "{" && (text + "{")[..|text|] == text;
  }

  // What stands before the next delimiter keeps the run of the literal even.
  lemma NoPair(s: string)
    requires DelimiterAt(s).None? && |s| >= 2 && s[1] == '{'
    ensures s[0] != '{'
  {
  }

  lemma RunBefore(rest: string, k: nat, literal: string)
    requires Find(rest) == Some(k) && OpenRun(literal) % 2 == 0
    requires DelimiterAt(rest[k..]) == Some(Open) || DelimiterAt(rest[k..]) == Some(FourOpen)
    ensures OpenRun(literal + rest[..k]) % 2 == 0
  {
    if k == 0 {
      assert literal + rest[..k] == literal;
    } else {
      var s := rest[k - 1..];
      assert s[0] == rest[k - 1] && s[1] == rest[k..][0];
      NoPair(s);
      OpenRunEnds(literal, rest[..k]);
    }
  }

  predicate EvenMove(move: Move, rest: string, names: set<string>, literal: string) {
    && (move.Escapes? ==> move.at <= |rest| && OpenRun(literal + rest[..move.at] + move.pair) % 2 == 0)
    && (move.Places? ==> move.at <= |rest| && OpenRun(literal + rest[..move.at]) % 2 == 0
                         && move.name in names && IsItemId(move.name))
  }

  // Every move keeps the run of the literal even.
  lemma MoveEven(rest: string, names: set<string>, literal: string)
    requires OpenRun(literal) % 2 == 0
    ensures EvenMove(Step(rest, names), rest, names, literal)
  {
    var found := Find(rest);
    if found.Some? {
      var k := found.value;
      match DelimiterAt(rest[k..]).value
      case FourOpen => EvenPair(rest, k, literal);
      case FourClose => OpenRunEnds(literal + rest[..k], "}}");
      case Close =>
      case Open =>
        RunBefore(rest, k, literal);
        PlaceNames(rest[k + 2..], k, names);
    }
  }

  lemma EvenPair(rest: string, k: nat, literal: string)
    requires Find(rest) == Some(k) && OpenRun(literal) % 2 == 0 && DelimiterAt(rest[k..]) == Some(FourOpen)
    ensures OpenRun(literal + rest[..k] + "{{") % 2 == 0
  {
    RunBefore(rest, k, literal);
    OpenRunPair(literal + rest[..k]);
  }

  lemma PlaceNames(inner: string, at: nat, names: set<string>)
    ensures var move := Place(inner, at, names);
            !move.Escapes? && (move.Places? ==> move.at == at && move.name in names && IsItemId(move.name))
  {
  }

  lemma PlacedPrintable(text: string, name: string, tail: seq<Part>, names: set<string>)
    requires OpenRun(text) % 2 == 0 && name in names && IsItemId(name) && Printable(tail, names)
    ensures Printable([Text(text), Input(name)] + tail, names)
  {
    var parts := [Text(text), Input(name)] + tail;
    forall k | 0 <= k < |parts|
      ensures parts[k].Text? <==> k % 2 == 0
      ensures parts[k].Input? ==> k > 0 && parts[k - 1].Text?
                                  && parts[k].name in names && IsItemId(parts[k].name)
                                     && OpenRun(parts[k - 1].text) % 2 == 0
    {
      if k >= 2 {
        assert parts[k] == tail[k - 2];
      }
    }
  }

  lemma {:induction false} ScanPrintable(rest: string, names: set<string>, literal: string)
    requires OpenRun(literal) % 2 == 0
    ensures var r := Scan(rest, names, literal); r.Ok? ==> Printable(r.value, names)
    decreases |rest|
  {
    MoveEven(rest, names, literal);
    match Step(rest, names)
    case Ends =>
    case Fails =>
    case Escapes(at, pair) => ScanPrintable(rest[at + 4..], names, literal + rest[..at] + pair);
    case Places(at, name, next) =>
      ScanPrintable(rest[next..], names, "");
      var tail := Scan(rest[next..], names, "");
      if tail.Ok? {
        PlacedPrintable(literal + rest[..at], name, tail.value, names);
      }
  }

  // ---- Printing ---------------------------------------------------------------------------------

  // Pairs of braces are doubled, from the left; everything else stands for itself.
  function Escape(text: string): string {
    if text == "" then ""
    else if Starts(text, '{', 2) then "{{{{" + Escape(text[2..])
    else if Starts(text, '}', 2) then "}}}}" + Escape(text[2..])
    else [text[0]] + Escape(text[1..])
  }

  function Print(parts: seq<Part>): string {
    if parts == [] then ""
    else (if parts[0].Text? then Escape(parts[0].text) else "{{" + parts[0].name + "}}") + Print(parts[1..])
  }

  // ---- Printing and compiling again ----------------------------------------------------------------

  function Ahead(move: Move): Move {
    match move
    case Ends => Ends
    case Fails => Fails
    case Escapes(at, pair) => Escapes(at + 1, pair)
    case Places(at, name, next) => Places(at + 1, name, next + 1)
  }

  lemma Shift(c: char, s: string, k: nat)
    requires k <= |s|
    ensures ([c] + s)[k + 1..] == s[k..] && ([c] + s)[..k + 1] == [c] + s[..k]
  {
  }

  lemma FindAhead(c: char, s: string)
    requires DelimiterAt([c] + s).None?
    ensures Find([c] + s) == if Find(s).None? then None else Some(Find(s).value + 1)
  {
    assert ([c] + s)[1..] == s;
  }

  lemma StepOfAhead(found: Delimiter, k: nat, after: string, names: set<string>)
    ensures StepOf(found, k + 1, after, names) == Ahead(StepOf(found, k, after, names))
  {
    PlaceAhead(after, k, names);
  }

  lemma PlaceAhead(inner: string, at: nat, names: set<string>)
    ensures Place(inner, at + 1, names) == Ahead(Place(inner, at, names))
  {
  }

  lemma StepAhead(c: char, s: string, names: set<string>)
    requires DelimiterAt([c] + s).None?
    ensures Step([c] + s, names) == Ahead(Step(s, names))
  {
    FindAhead(c, s);
    if Find(s).Some? {
      var k := Find(s).value;
      Shift(c, s, k);
      if k + 2 <= |s| {
        Shift(c, s, k + 2);
      }
      SameStep([c] + s, s, names, k);
    }
  }

  // The step at a delimiter; after: the text behind an opening one.
  function StepOf(found: Delimiter, k: nat, after: string, names: set<string>): Move {
    match found
    case FourOpen => Escapes(k, "{{")
    case FourClose => Escapes(k, "}}")
    case Close => Fails
    case Open => Place(after, k, names)
  }

  lemma StepIs(rest: string, names: set<string>, k: nat, tail: string, after: string)
    requires Find(rest) == Some(k) && tail == rest[k..] && DelimiterAt(tail).Some?
    requires DelimiterAt(tail) == Some(Open) ==> k + 2 <= |rest| && after == rest[k + 2..]
    ensures Step(rest, names) == StepOf(DelimiterAt(tail).value, k, after, names)
  {
  }

  lemma SameStep(longer: string, s: string, names: set<string>, k: nat)
    requires Find(s) == Some(k) && Find(longer) == Some(k + 1) && |longer| == |s| + 1
    requires longer[k + 1..] == s[k..] && (k + 2 <= |s| ==> longer[k + 3..] == s[k + 2..])
    ensures Step(longer, names) == Ahead(Step(s, names))
  {
    SameMove(longer, s, names, k, s[k..], if k + 2 <= |s| then s[k + 2..] else "");
  }

  lemma SameMove(longer: string, s: string, names: set<string>, k: nat, tail: string, after: string)
    requires Find(s) == Some(k) && Find(longer) == Some(k + 1) && |longer| == |s| + 1
    requires tail == s[k..] == longer[k + 1..] && DelimiterAt(tail).Some?
    requires k + 2 <= |s| && after == s[k + 2..] == longer[k + 1 + 2..]
    ensures Step(longer, names) == Ahead(Step(s, names))
  {
    var found := DelimiterAt(tail).value;
    StepIs(s, names, k, tail, after);
    StepIs(longer, names, k + 1, tail, after);
    StepOfAhead(found, k, after, names);
  }

  // The scan of a longer text whose first character has joined the literal.
  predicate Lags(longer: string, s: string, literal: string, literal': string) {
    && |longer| == |s| + 1
    && (forall k {:trigger s[k..]} | 0 <= k <= |s| :: longer[k + 1..] == s[k..])
    && forall k {:trigger s[..k]} | 0 <= k <= |s| :: literal + longer[..k + 1] == literal' + s[..k]
  }

  lemma SameScan(longer: string, s: string, names: set<string>, literal: string, literal': string)
    requires Lags(longer, s, literal, literal') && Step(longer, names) == Ahead(Step(s, names))
    ensures Scan(longer, names, literal) == Scan(s, names, literal')
  {
    var move := Step(s, names);
    if move.Escapes? {
      EscapeAdvances(s, s[move.at + 4..], names, literal', move);
      EscapeAdvances(longer, s[move.at + 4..], names, literal, Ahead(move));
    } else if move.Places? {
      PlaceAdvances(s, s[move.next..], names, literal', move);
      PlaceAdvances(longer, s[move.next..], names, literal, Ahead(move));
    } else {
      SameText(longer, s, literal, literal');
    }
  }

  lemma SameText(longer: string, s: string, literal: string, literal': string)
    requires Lags(longer, s, literal, literal')
    ensures literal + longer == literal' + s
  {
    assert s[..|s|] == s && longer[..|s| + 1] == longer;
  }

  // A character that starts no delimiter joins the literal.
  lemma ScanAhead(c: char, s: string, names: set<string>, literal: string)
    requires DelimiterAt([c] + s).None?
    ensures Scan([c] + s, names, literal) == Scan(s, names, literal + [c])
  {
    StepAhead(c, s, names);
    forall k | 0 <= k <= |s|
      ensures ([c] + s)[k + 1..] == s[k..] && literal + ([c] + s)[..k + 1] == literal + [c] + s[..k]
    {
      Shift(c, s, k);
      assert literal + ([c] + s[..k]) == literal + [c] + s[..k];
    }
    SameScan([c] + s, s, names, literal, literal + [c]);
  }

  lemma {:induction false} RunDropped(text: string, n: nat)
    requires n <= |text|
    requires (n == 1 && text[0] != '{') || (n == 2 && (Starts(text, '{', 2) || Starts(text, '}', 2)))
    ensures OpenRun(text) % 2 == OpenRun(text[n..]) % 2
  {
    if |text| > n {
      var init := text[..|text| - 1];
      assert text[n..][..|text[n..]| - 1] == init[n..];
      RunDropped(init, n);
    } else if n == 2 {
      assert text[..1] == [text[0]] && text[..1][..0] == "";
    }
  }

  // What may follow a literal: nothing, or a placeholder after whole pairs.
  predicate Follows(text: string, rest: string) {
    rest == "" || (Starts(rest, '{', 2) && !Starts(rest, '{', 3) && OpenRun(text) % 2 == 0)
  }

  lemma EscapeHead(text: string)
    requires text != ""
    ensures Escape(text) != "" && Escape(text)[0] == text[0]
  {
  }

  lemma StartsTwo(s: string, brace: char)
    ensures Starts(s, brace, 2) <==> |s| >= 2 && s[0] == brace && s[1] == brace
  {
  }

  lemma NoDelimiter(c: char, s: string)
    requires s == "" || c != s[0] || (c != '{' && c != '}')
    ensures DelimiterAt([c] + s).None?
  {
    var t := [c] + s;
    assert t[0] == c && (s != "" ==> t[1] == s[0]);
    StartsTwo(t, '{');
    StartsTwo(t, '}');
  }

  lemma LoneCharacter(text: string, rest: string)
    requires text != "" && !Starts(text, '{', 2) && !Starts(text, '}', 2) && Follows(text, rest)
    ensures DelimiterAt([text[0]] + (Escape(text[1..]) + rest)).None?
  {
    var next := Escape(text[1..]) + rest;
    if |text| == 1 {
      assert text[1..] == "" && next == rest;
      if text[0] == '{' && rest != "" {
        assert text[..0] == "" && OpenRun(text) == 1;
      }
    } else {
      EscapeHead(text[1..]);
      assert next[0] == text[1];
    }
    NoDelimiter(text[0], next);
  }

  lemma FourAhead(four: string, s: string, names: set<string>)
    requires four == "{{{{" || four == "}}}}"
    ensures Step(four + s, names) == Escapes(0, four[..2]) && (four + s)[4..] == s
  {
    var t := four + s;
    assert forall k | 0 <= k < 4 :: t[k] == four[k];
    FourStep(t, four[0], names);
  }

  lemma FourStep(t: string, brace: char, names: set<string>)
    requires Starts(t, brace, 4) && (brace == '{' || brace == '}')
    ensures Step(t, names) == Escapes(0, if brace == '{' then "{{" else "}}")
  {
    assert t[0..] == t;
  }

  lemma {:induction false} ScanEscaped(text: string, rest: string, names: set<string>, literal: string)
    requires Follows(text, rest)
    ensures Scan(Escape(text) + rest, names, literal) == Scan(rest, names, literal + text)
    decreases |text|
  {
    if text == "" {
      assert Escape(text) + rest == rest && literal + text == literal;
    } else if Starts(text, '{', 2) || Starts(text, '}', 2) {
      RunDropped(text, 2);
      var four := if Starts(text, '{', 2) then "{{{{" else "}}}}";
      ScanPair(four, text, rest, names, literal);
      ScanEscaped(text[2..], rest, names, literal + four[..2]);
      Reassemble(literal, text, 2, four[..2]);
    } else {
      ScanLone(text, rest, names, literal);
      FollowsTail(text, rest);
      ScanEscaped(text[1..], rest, names, literal + [text[0]]);
      Reassemble(literal, text, 1, [text[0]]);
    }
  }

  lemma ScanLone(text: string, rest: string, names: set<string>, literal: string)
    requires text != "" && !Starts(text, '{', 2) && !Starts(text, '}', 2) && Follows(text, rest)
    ensures Scan(Escape(text) + rest, names, literal) == Scan(Escape(text[1..]) + rest, names, literal + [text[0]])
  {
    LoneCharacter(text, rest);
    assert Escape(text) + rest == [text[0]] + (Escape(text[1..]) + rest);
    ScanAhead(text[0], Escape(text[1..]) + rest, names, literal);
  }

  lemma Reassemble(literal: string, text: string, n: nat, head: string)
    requires n <= |text| && |head| == n && forall k | 0 <= k < n :: head[k] == text[k]
    ensures (literal + head) + text[n..] == literal + text
  {
    assert head + text[n..] == text;
  }

  lemma FollowsTail(text: string, rest: string)
    requires text != "" && !Starts(text, '{', 2) && Follows(text, rest)
    ensures Follows(text[1..], rest)
  {
    if text[0] != '{' {
      RunDropped(text, 1);
    } else if |text| == 1 {
      assert text[..0] == "";
    } else {
      RunAfterBrace(text);
    }
  }

  // An opening brace followed by another character is not part of the final run.
  lemma {:induction false} RunAfterBrace(text: string)
    requires |text| >= 2 && text[1] != '{'
    ensures OpenRun(text) == OpenRun(text[1..])
  {
    if |text| > 2 {
      var init := text[..|text| - 1];
      assert text[1..][..|text[1..]| - 1] == init[1..];
      RunAfterBrace(init);
    }
  }

  lemma ScanPair(four: string, text: string, rest: string, names: set<string>, literal: string)
    requires four == "{{{{" || four == "}}}}"
    requires |text| >= 2 && Escape(text) == four + Escape(text[2..])
    ensures Scan(Escape(text) + rest, names, literal) == Scan(Escape(text[2..]) + rest, names, literal + four[..2])
  {
    var s := Escape(text[2..]) + rest;
    assert Escape(text) + rest == four + s;
    FourAhead(four, s, names);
    assert literal + (four + s)[..0] + four[..2] == literal + four[..2];
  }

  // ---- The round trip -------------------------------------------------------------------------------

  lemma NameHasNoBrace(name: string)
    requires IsItemId(name)
    ensures name != "" && TrimLeft(name) == name && TrimRight(name) == name
    ensures forall k | 0 <= k < |name| :: name[k] != '}' && name[k] != '{'
  {
    assert LowerAlnum(name[0]);
    assert LowerAlnum(name[|name| - 1]);
  }

  lemma {:induction false} CloseAfter(name: string, rest: string)
    requires forall k | 0 <= k < |name| :: name[k] != '}'
    ensures FindClose(name + "}}" + rest) == Some(|name|)
  {
    var s := name + "}}" + rest;
    if name == "" {
      assert s[0] == '}' && s[1] == '}';
    } else {
      assert s[1..] == name[1..] + "}}" + rest;
      CloseAfter(name[1..], rest);
      assert s[0] == name[0];
    }
  }

  lemma PlaceholderStep(name: string, rest: string, names: set<string>)
    requires IsItemId(name) && name in names
    ensures Step("{{" + name + "}}" + rest, names) == Places(0, name, |name| + 4)
  {
    var s, inner := "{{" + name + "}}" + rest, name + "}}" + rest;
    NameHasNoBrace(name);
    assert s[2] == name[0];
    assert s[0..] == s && s[2..] == inner && inner[..|name|] == name;
    CloseAfter(name, rest);
  }

  lemma ScanPlaced(text: string, name: string, rest: string, names: set<string>)
    requires IsItemId(name) && name in names && OpenRun(text) % 2 == 0
    ensures Scan(Escape(text) + ("{{" + name + "}}" + rest), names, "")
            == Prefixed([Text(text), Input(name)], Scan(rest, names, ""))
  {
    var shown := "{{" + name + "}}" + rest;
    NameHasNoBrace(name);
    assert shown[0] == '{' && shown[1] == '{' && shown[2] == name[0];
    ScanEscaped(text, shown, names, "");
    PlaceholderStep(name, rest, names);
    assert shown[|name| + 4..] == rest && text + shown[..0] == text && "" + text == text;
    PlaceAdvances(shown, rest, names, text, Places(0, name, |name| + 4));
  }

  lemma {:induction false} ScanPrinted(parts: seq<Part>, names: set<string>)
    requires Printable(parts, names)
    ensures Scan(Print(parts), names, "") == Ok(parts)
    decreases |parts|
  {
    var text := parts[0].text;
    if |parts| == 1 {
      assert Print(parts[1..]) == "" && Print(parts) == Escape(text) + "";
      ScanEscaped(text, "", names, "");
      assert parts[0].Text? && parts == [parts[0]];
      assert "" + text + "" == text;
    } else {
      var name := parts[1].name;
      PrintedTail(parts, names);
      ScanPlaced(text, name, Print(parts[2..]), names);
      ScanPrinted(parts[2..], names);
      assert parts == [Text(text), Input(name)] + parts[2..];
    }
  }

  lemma PrintedTail(parts: seq<Part>, names: set<string>)
    requires Printable(parts, names) && |parts| > 1
    ensures |parts| >= 3 && Printable(parts[2..], names) && parts[1].Input? && parts[1].name in names
            && IsItemId(parts[1].name)
    ensures Print(parts) == Escape(parts[0].text) + ("{{" + parts[1].name + "}}" + Print(parts[2..]))
    ensures OpenRun(parts[0].text) % 2 == 0
  {
    assert parts[0].Text? && parts[1].Input?;
    PrintTwo(parts);
    PrintableTail(parts, names);
  }

  lemma PrintTwo(parts: seq<Part>)
    requires |parts| >= 2 && parts[0].Text? && parts[1].Input?
    ensures Print(parts) == Escape(parts[0].text) + ("{{" + parts[1].name + "}}" + Print(parts[2..]))
  {
    assert parts[1..][0] == parts[1] && parts[1..][1..] == parts[2..];
  }

  lemma PrintableTail(parts: seq<Part>, names: set<string>)
    requires Printable(parts, names) && |parts| > 1
    ensures |parts| >= 3 && Printable(parts[2..], names)
  {
    var rest := parts[2..];
    forall k | 0 <= k < |rest| ensures rest[k].Text? <==> k % 2 == 0 {
      assert rest[k] == parts[k + 2];
    }
    forall k | 0 <= k < |rest| && rest[k].Input?
      ensures k > 0 && rest[k].name in names && IsItemId(rest[k].name) && OpenRun(rest[k - 1].text) % 2 == 0
    {
      assert rest[k] == parts[k + 2] && rest[0].Text?;
    }
  }

  // Exactly the alternating lists whose literals end in whole pairs before every
  // placeholder are recovered from their printed form.
  lemma PrintingInverts(parts: seq<Part>, inputs: seq<string>)
    requires Declared(inputs)
    ensures Compile(Print(parts), inputs) == Ok(parts) <==> Printable(parts, Names(inputs))
  {
    if Printable(parts, Names(inputs)) {
      ScanPrinted(parts, Names(inputs));
    }
    if Compile(Print(parts), inputs) == Ok(parts) {
      ScanPrintable(Print(parts), Names(inputs), "");
    }
  }

  // Whatever compiles prints to a template that compiles to the same parts, which
  // alternate and name only declared inputs.
  lemma CompiledRoundTrip(template: string, inputs: seq<string>)
    ensures var r := Compile(template, inputs);
            r.Ok? ==> Printable(r.value, Names(inputs)) && Compile(Print(r.value), inputs) == r
  {
    var r := Compile(template, inputs);
    if r.Ok? {
      ScanPrintable(template, Names(inputs), "");
      PrintingInverts(r.value, inputs);
    }
  }
}
