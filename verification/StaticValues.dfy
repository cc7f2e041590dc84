/** Static value sets: what a pointer may resolve to, and why the sets over-approximate. */
module StaticValues {
  import opened Foundations
  import opened Json
  import opened JsonEquality
  import opened Pointers
  import opened StaticSchemas

  // A schema node, an authored constant, an object projected with known keys, or an
  // array of equal items.
  datatype Alternative =
    | Schematic(view: View)
    | Const(value: Json)
    | Projected(fields: map<string, Static>)
    | Repeated(items: Static)

  // absent: the value may be missing; missing: for a reason independent of the data.
  datatype Static = Static(alternatives: seq<Alternative>, absent: bool, missing: bool) {
    predicate Impossible() {
      alternatives == []
    }
  }

  function Of(alternative: Alternative): Static {
    Static([alternative], false, false)
  }

  function UnionFrom(items: seq<Static>): Static {
    if items == [] then Static([], false, false)
    else
      var init, last := UnionFrom(items[..|items| - 1]), items[|items| - 1];
      Static(init.alternatives + last.alternatives, init.absent || last.absent, init.missing || last.missing)
  }

  // `union`, as the loop collects it.
  method Union(items: seq<Static>, absent: Option<bool>) returns (joined: Static)
    ensures joined == (if absent.Some? then UnionFrom(items).(absent := absent.value) else UnionFrom(items))
  {
    var collected: seq<Alternative>, mayBeAbsent, structural := [], false, false;
    for k := 0 to |items|
      invariant Static(collected, mayBeAbsent, structural) == UnionFrom(items[..k])
    {
      assert items[..k + 1][..k] == items[..k];
      collected := collected + items[k].alternatives;
      mayBeAbsent := mayBeAbsent || items[k].absent;
      structural := structural || items[k].missing;
    }
    assert items[..|items|] == items;
    return Static(collected, if absent.Some? then absent.value else mayBeAbsent, structural);
  }

  // ---- Meaning ----------------------------------------------------------------------------

  // Static sets contain more than any run can produce; claims are about present values.
  ghost predicate Covers(links: Links, static_: Static, value: Json)
    decreases static_, 1
  {
    exists k :: 0 <= k < |static_.alternatives| && CoversOne(links, static_.alternatives[k], value)
  }

  ghost predicate CoversOne(links: Links, alternative: Alternative, value: Json)
    decreases alternative, 0
  {
    match alternative
    case Schematic(view) => Valid(links, view, value)
    case Const(constant) => value == constant
    case Projected(fields) =>
      value.Obj? && forall name | name in value.fields ::
          name in fields && Covers(links, fields[name], value.fields[name])
    case Repeated(items) =>
      value.Arr? && forall k | 0 <= k < |value.items| :: Covers(links, items, value.items[k])
  }

  lemma Includes(links: Links, smaller: seq<Alternative>, larger: Static, value: Json)
    requires forall k | 0 <= k < |smaller| :: smaller[k] in larger.alternatives
    requires exists k :: 0 <= k < |smaller| && CoversOne(links, smaller[k], value)
    ensures Covers(links, larger, value)
  {
    var k :| 0 <= k < |smaller| && CoversOne(links, smaller[k], value);
    var j :| 0 <= j < |larger.alternatives| && larger.alternatives[j] == smaller[k];
  }

  lemma {:induction false} UnionIncludes(items: seq<Static>, k: nat)
    requires k < |items|
    ensures forall a | a in items[k].alternatives :: a in UnionFrom(items).alternatives
  {
    if k < |items| - 1 {
      UnionIncludes(items[..|items| - 1], k);
    }
  }

  // ---- Splitting anyOf and oneOf -------------------------------------------------------------

  const MAX_EXPANSION: nat := 8

  function Branches(schema: Schema): Option<seq<Schema>>
    requires schema.Node?
  {
    var branches := if schema.anyOf.Some? then schema.anyOf else schema.oneOf;
    if branches.None? || branches.value == [] || schema.properties.Some? || schema.items.Some?
        || schema.blocked then None
    else branches
  }

  function Expand(links: Links, view: View, depth: nat): seq<View>
    decreases MAX_EXPANSION - depth, 1, 0
  {
    var resolved := Resolved(links, view);
    if depth >= MAX_EXPANSION || !resolved.schema.Node? || Branches(resolved.schema).None? then [resolved]
    else ExpandAll(links, Branches(resolved.schema).value, resolved.home, depth + 1)
  }

  function ExpandAll(links: Links, branches: seq<Schema>, home: string, depth: nat): seq<View>
    requires depth <= MAX_EXPANSION
    decreases MAX_EXPANSION - depth, 2, |branches|
  {
    if branches == [] then []
    else
      ExpandAll(links, branches[..|branches| - 1], home, depth)
      + Expand(links, View(branches[|branches| - 1], home), depth)
  }

  ghost predicate SomeValid(links: Links, views: seq<View>, value: Json) {
    exists k :: 0 <= k < |views| && Valid(links, views[k], value)
  }

  lemma {:induction false} ExpandCovers(links: Links, view: View, depth: nat, value: Json)
    requires Valid(links, view, value)
    ensures SomeValid(links, Expand(links, view, depth), value)
    decreases MAX_EXPANSION - depth, 1, 0
  {
    var resolved := Resolved(links, view);
    ResolveValid(links, view, {view}, value);
    if depth >= MAX_EXPANSION || !resolved.schema.Node? || Branches(resolved.schema).None? {
      assert Expand(links, view, depth)[0] == resolved;
    } else {
      var branches := Branches(resolved.schema).value;
      var k :| 0 <= k < |branches| && Valid(links, View(branches[k], resolved.home), value);
      ExpandAllCovers(links, branches, resolved.home, depth + 1, k, value);
    }
  }

  lemma {:induction false} ExpandAllCovers(links: Links, branches: seq<Schema>, home: string, depth: nat, k: nat,
                                           value: Json)
    requires depth <= MAX_EXPANSION && k < |branches| && Valid(links, View(branches[k], home), value)
    ensures SomeValid(links, ExpandAll(links, branches, home, depth), value)
    decreases MAX_EXPANSION - depth, 2, |branches|
  {
    var init := branches[..|branches| - 1];
    var before, last := ExpandAll(links, init, home, depth), Expand(links, View(branches[|branches| - 1], home), depth);
    var all := ExpandAll(links, branches, home, depth);
    if k == |branches| - 1 {
      ExpandCovers(links, View(branches[k], home), depth, value);
      var j :| 0 <= j < |last| && Valid(links, last[j], value);
      assert all[|before| + j] == last[j];
    } else {
      ExpandAllCovers(links, init, home, depth, k, value);
      var j :| 0 <= j < |before| && Valid(links, before[j], value);
      assert all[j] == before[j];
    }
  }

  // Every alternative, with schema nodes split into their branches.
  function Alternatives(links: Links, alternatives: seq<Alternative>): seq<Alternative> {
    if alternatives == [] then []
    else
      var last := alternatives[|alternatives| - 1];
      Alternatives(links, alternatives[..|alternatives| - 1]) + if last.Schematic?
          then Schemas(Expand(links, last.view, 0)) else [last]
  }

  function Schemas(views: seq<View>): seq<Alternative> {
    seq(|views|, k requires 0 <= k < |views| => Schematic(views[k]))
  }

  ghost predicate SomeCovers(links: Links, alternatives: seq<Alternative>, value: Json) {
    exists k :: 0 <= k < |alternatives| && CoversOne(links, alternatives[k], value)
  }

  lemma {:induction false} AlternativesCover(links: Links, alternatives: seq<Alternative>, value: Json)
    requires SomeCovers(links, alternatives, value)
    ensures SomeCovers(links, Alternatives(links, alternatives), value)
  {
    var init, last := alternatives[..|alternatives| - 1], alternatives[|alternatives| - 1];
    var before, all := Alternatives(links, init), Alternatives(links, alternatives);
    var k :| 0 <= k < |alternatives| && CoversOne(links, alternatives[k], value);
    if k < |alternatives| - 1 {
      assert CoversOne(links, init[k], value);
      AlternativesCover(links, init, value);
      var j :| 0 <= j < |before| && CoversOne(links, before[j], value);
      assert all[j] == before[j];
    } else if last.Schematic? {
      ExpandCovers(links, last.view, 0, value);
      var views := Expand(links, last.view, 0);
      var j :| 0 <= j < |views| && Valid(links, views[j], value);
      assert all[|before| + j] == Schematic(views[j]);
      assert CoversOne(links, Schematic(views[j]), value);
    } else {
      assert all[|before|] == last;
    }
  }

  // ---- Selecting one token -----------------------------------------------------------------------

  // What one alternative becomes below a token.
  function ChildOf(links: Links, alternative: Alternative, token: string): Static {
    match alternative
    case Schematic(view) =>
      var selected := Child(links, view, token);
      if selected.None? then Static([], true, false) else Of(Schematic(selected.value))
    case Const(value) =>
      var selected := Select(value, token);
      if selected.None? then Static([], true, true) else Of(Const(selected.value))
    case Projected(fields) =>
      if token in fields then fields[token] else Static([], true, true)
    case Repeated(items) =>
      if !IsIndex(token) then Static([], true, true)
      else Static(items.alternatives, true, token != "0" || items.missing)
  }

  function ChildrenOf(links: Links, alternatives: seq<Alternative>, token: string): seq<Static> {
    seq(|alternatives|, k requires 0 <= k < |alternatives| => ChildOf(links, alternatives[k], token))
  }

  // `child`: the token in every alternative; impossible branches become absence.
  function Below(links: Links, static_: Static, token: string): Static {
    var joined := UnionFrom(ChildrenOf(links, Alternatives(links, static_.alternatives), token));
    Static(joined.alternatives, static_.absent || joined.absent, static_.missing || joined.missing)
  }

  // `child` as it is written: one pass that collects alternatives and two flags.
  method SelectBelow(links: Links, static_: Static, token: string) returns (selected: Static)
    ensures selected == Below(links, static_, token)
  {
    var alternatives := Alternatives(links, static_.alternatives);
    var collected: seq<Alternative>, absent, missing := [], static_.absent, static_.missing;
    ghost var children := ChildrenOf(links, alternatives, token);
    for k := 0 to |alternatives|
      invariant var joined := UnionFrom(children[..k]);
                && collected == joined.alternatives && absent == (static_.absent || joined.absent)
                && missing == (static_.missing || joined.missing)
    {
      assert children[..k + 1][..k] == children[..k] && children[k] == ChildOf(links, alternatives[k], token);
      match alternatives[k] {
        case Schematic(view) =>
          var below := Child(links, view, token);
          if below.None? {
            absent := true;
          } else {
            collected := collected + [Schematic(below.value)];
          }
        case Const(value) =>
          var below := Select(value, token);
          if below.Some? {
            collected := collected + [Const(below.value)];
          } else {
            absent, missing := true, true;
          }
        case Projected(fields) =>
          if token in fields {
            collected := collected + fields[token].alternatives;
            absent := absent || fields[token].absent;
            missing := missing || fields[token].missing;
          } else {
            absent, missing := true, true;
          }
        case Repeated(items) =>
          if IsIndex(token) {
            collected := collected + items.alternatives;
            absent := true;
            missing := missing || token != "0" || items.missing;
          } else {
            absent, missing := true, true;
          }
      }
    }
    assert children[..|alternatives|] == children;
    return Static(collected, absent, missing);
  }

  function PointerFrom(links: Links, static_: Static, tokens: seq<string>): Static
    decreases |tokens|
  {
    if tokens == [] then static_ else PointerFrom(links, Below(links, static_, tokens[0]), tokens[1..])
  }

  method StaticPointer(links: Links, static_: Static, tokens: seq<string>) returns (current: Static)
    ensures current == PointerFrom(links, static_, tokens)
  {
    current := static_;
    for k := 0 to |tokens|
      invariant PointerFrom(links, current, tokens[k..]) == PointerFrom(links, static_, tokens)
    {
      assert tokens[k..][0] == tokens[k] && tokens[k..][1..] == tokens[k + 1..];
      current := SelectBelow(links, current, tokens[k]);
    }
  }

  // ---- Pointers are over-approximated ------------------------------------------------------------

  // Every array inside is short.
  predicate Sized(value: Json)
    decreases value
  {
    && Short(value)
    && (value.Arr? ==> forall k | 0 <= k < |value.items| :: Sized(value.items[k]))
    && (value.Obj? ==> forall k | k in value.fields :: Sized(value.fields[k]))
  }

  predicate AllNarrow(tokens: seq<string>) {
    forall k | 0 <= k < |tokens| :: Narrow(tokens[k])
  }

  lemma SelectSized(value: Json, token: string)
    requires Sized(value) && Select(value, token).Some?
    ensures Sized(Select(value, token).value)
  {
    if value.Arr? {
      SelectsItem(value.items, token);
    }
  }

  lemma ChildOfCovers(links: Links, alternative: Alternative, value: Json, token: string, below: Json)
    requires CoversOne(links, alternative, value) && (Narrow(token) || Short(value))
             && Select(value, token) == Some(below)
    ensures Covers(links, ChildOf(links, alternative, token), below)
  {
    var selected := ChildOf(links, alternative, token);
    match alternative
    case Schematic(view) =>
      ChildCovers(links, view, value, token, below);
      assert CoversOne(links, selected.alternatives[0], below);
    case Const(constant) =>
      assert CoversOne(links, selected.alternatives[0], below);
    case Projected(fields) =>
    case Repeated(items) =>
      SelectsItem(value.items, token);
      assert Covers(links, items, below);
      var k :| 0 <= k < |items.alternatives| && CoversOne(links, items.alternatives[k], below);
      assert selected.alternatives[k] == items.alternatives[k];
  }

  // Whatever a token selects from a covered value is covered below the token.
  lemma BelowCovers(links: Links, static_: Static, value: Json, token: string, below: Json)
    requires Covers(links, static_, value) && (Narrow(token) || Short(value)) && Select(value, token) == Some(below)
    ensures Covers(links, Below(links, static_, token), below)
  {
    var alternatives := Alternatives(links, static_.alternatives);
    assert SomeCovers(links, static_.alternatives, value);
    AlternativesCover(links, static_.alternatives, value);
    var k :| 0 <= k < |alternatives| && CoversOne(links, alternatives[k], value);
    ChildOfCovers(links, alternatives[k], value, token, below);
    var children := ChildrenOf(links, alternatives, token);
    UnionIncludes(children, k);
    var j :| 0 <= j < |children[k].alternatives| && CoversOne(links, children[k].alternatives[j], below);
    Includes(links, children[k].alternatives, Below(links, static_, token), below);
  }

  // Any value a pointer finds in a covered value is covered by the static pointer.
  lemma {:induction false} PointerCovers(links: Links, static_: Static, value: Json, tokens: seq<string>)
    requires Covers(links, static_, value) && (AllNarrow(tokens) || Sized(value))
    ensures var found := Walk(tokens, value);
            found.Some? ==> Covers(links, PointerFrom(links, static_, tokens), found.value)
    decreases |tokens|
  {
    if tokens != [] {
      var next := Select(value, tokens[0]);
      if next.Some? {
        BelowCovers(links, static_, value, tokens[0], next.value);
        if Sized(value) {
          SelectSized(value, tokens[0]);
        }
        PointerCovers(links, Below(links, static_, tokens[0]), next.value, tokens[1..]);
      }
    }
  }

  // An impossible static pointer never resolves.
  lemma ImpossibleNeverResolves(links: Links, static_: Static, value: Json, tokens: seq<string>)
    requires Covers(links, static_, value) && (AllNarrow(tokens) || Sized(value))
             && PointerFrom(links, static_, tokens).Impossible()
    ensures Walk(tokens, value).None?
  {
    PointerCovers(links, static_, value, tokens);
  }

  // ---- Types ----------------------------------------------------------------------------------------

  function TypesFrom(links: Links, alternatives: seq<Alternative>): Option<set<Kind>> {
    if alternatives == [] then Some({})
    else
      var before := TypesFrom(links, alternatives[..|alternatives| - 1]);
      var last := TypesOne(links, alternatives[|alternatives| - 1]);
      if before.None? || last.None? then None else Some(before.value + last.value)
  }

  function TypesOne(links: Links, alternative: Alternative): Option<set<Kind>> {
    match alternative
    case Schematic(view) => SchemaTypes(links, view)
    case Const(value) => Some({KindOf(value)})
    case Projected(_) => Some({KObject})
    case Repeated(_) => Some({KArray})
  }

  function TypesOf(links: Links, static_: Static): Option<set<Kind>> {
    TypesFrom(links, Alternatives(links, static_.alternatives))
  }

  // `types`: None as soon as one alternative is unknown.
  method CollectTypes(links: Links, static_: Static) returns (kinds: Option<set<Kind>>)
    ensures kinds == TypesOf(links, static_)
  {
    var alternatives := Alternatives(links, static_.alternatives);
    var result: set<Kind> := {};
    for k := 0 to |alternatives|
      invariant TypesFrom(links, alternatives[..k]) == Some(result)
    {
      assert alternatives[..k + 1][..k] == alternatives[..k];
      var declared := TypesOne(links, alternatives[k]);
      if declared.None? {
        UnknownStays(links, alternatives, k + 1);
        return None;
      }
      result := result + declared.value;
    }
    assert alternatives[..|alternatives|] == alternatives;
    return Some(result);
  }

  lemma {:induction false} UnknownStays(links: Links, alternatives: seq<Alternative>, k: nat)
    requires k <= |alternatives| && TypesFrom(links, alternatives[..k]).None?
    ensures TypesFrom(links, alternatives).None?
  {
    if k == |alternatives| {
      assert alternatives[..k] == alternatives;
    } else {
      var init := alternatives[..|alternatives| - 1];
      assert init[..k] == alternatives[..k];
      UnknownStays(links, init, k);
    }
  }

  // A number's declared kinds may differ, but never leave the numbers.
  predicate Near(kinds: set<Kind>, value: Json) {
    OfSome(kinds, value) || (IsNumber(value) && (KInteger in kinds || KNumber in kinds))
  }

  lemma SchemaTyped(links: Links, view: View, value: Json)
    requires Valid(links, view, value) && SchemaTypes(links, view).Some?
    ensures Near(SchemaTypes(links, view).value, value)
  {
    ResolveValid(links, view, {view}, value);
    var schema := Resolved(links, view).schema;
    var kinds := SchemaTypes(links, view).value;
    assert Plain(schema, value);
    if schema.type_.Some? {
    } else if schema.const_.Some? {
      EqualKinds(schema.const_.value, value);
      assert KindOf(schema.const_.value) in kinds;
    } else {
      var k :| 0 <= k < |schema.enum_.value| && JsonEqual(schema.enum_.value[k], value);
      EqualKinds(schema.enum_.value[k], value);
      assert KindOf(schema.enum_.value[k]) in kinds;
    }
  }

  lemma OneTyped(links: Links, alternative: Alternative, value: Json)
    requires CoversOne(links, alternative, value) && TypesOne(links, alternative).Some?
    ensures Near(TypesOne(links, alternative).value, value)
  {
    match alternative
    case Schematic(view) => SchemaTyped(links, view, value);
    case Const(constant) => assert OfKind(KindOf(value), value);
    case Projected(_) => assert OfKind(KObject, value);
    case Repeated(_) => assert OfKind(KArray, value);
  }

  lemma {:induction false} TypesInclude(links: Links, alternatives: seq<Alternative>, k: nat)
    requires k < |alternatives| && TypesFrom(links, alternatives).Some?
    ensures TypesOne(links, alternatives[k]).Some?
    ensures TypesOne(links, alternatives[k]).value <= TypesFrom(links, alternatives).value
  {
    if k < |alternatives| - 1 {
      TypesInclude(links, alternatives[..|alternatives| - 1], k);
    }
  }

  lemma NearGrows(kinds: set<Kind>, more: set<Kind>, value: Json)
    requires Near(kinds, value) && kinds <= more
    ensures Near(more, value)
  {
    if OfSome(kinds, value) {
      var kind :| kind in kinds && OfKind(kind, value);
      assert kind in more;
    }
  }

  // The static types of a covered value include one of its own.
  lemma TypesCover(links: Links, static_: Static, value: Json)
    requires Covers(links, static_, value) && TypesOf(links, static_).Some?
    ensures Near(TypesOf(links, static_).value, value)
  {
    var alternatives := Alternatives(links, static_.alternatives);
    assert SomeCovers(links, static_.alternatives, value);
    AlternativesCover(links, static_.alternatives, value);
    var k :| 0 <= k < |alternatives| && CoversOne(links, alternatives[k], value);
    TypesInclude(links, alternatives, k);
    OneTyped(links, alternatives[k], value);
    NearGrows(TypesOne(links, alternatives[k]).value, TypesOf(links, static_).value, value);
  }

  // Integer is a subtype of number; only disjoint sets are rejected.
  function Closed(kinds: set<Kind>): set<Kind> {
    if KNumber in kinds then kinds + {KInteger} else kinds
  }

  predicate Incompatible(source: Option<set<Kind>>, target: Option<set<Kind>>) {
    source.Some? && target.Some? && Closed(source.value) * Closed(target.value) == {}
  }

  // `incompatible_types` never rejects two types that share a value.
  lemma CompatibleWhenShared(source: set<Kind>, target: set<Kind>, value: Json)
    requires Near(source, value) && Near(target, value)
    ensures !Incompatible(Some(source), Some(target))
  {
    if IsNumber(value) {
      assert KInteger in source || KNumber in source;
      assert KInteger in Closed(source) && KInteger in Closed(target) by {
        NumberKinds(source, value);
        NumberKinds(target, value);
      }
      assert KInteger in Closed(source) * Closed(target) || KNumber in Closed(source) * Closed(target);
    } else {
      var kind :| kind in source && OfKind(kind, value);
      var other :| other in target && OfKind(other, value);
      assert kind == other && kind in Closed(source) * Closed(target);
    }
  }

  lemma NumberKinds(kinds: set<Kind>, value: Json)
    requires Near(kinds, value) && IsNumber(value)
    ensures KInteger in Closed(kinds)
  {
    if OfSome(kinds, value) {
      var kind :| kind in kinds && OfKind(kind, value);
    }
  }

  // A binding the compiler rejects for its type could never have delivered a value the
  // destination accepts.
  lemma RejectedTypesShareNothing(links: Links, static_: Static, target: View, value: Json)
    requires Covers(links, static_, value) && Valid(links, target, value)
    ensures !Incompatible(TypesOf(links, static_), SchemaTypes(links, target))
  {
    if TypesOf(links, static_).Some? && SchemaTypes(links, target).Some? {
      TypesCover(links, static_, value);
      SchemaTyped(links, target, value);
      CompatibleWhenShared(TypesOf(links, static_).value, SchemaTypes(links, target).value, value);
    }
  }

  // ---- Enumerable values ------------------------------------------------------------------------------

  function KeysOf(values: seq<Json>): set<Json> {
    set k | 0 <= k < |values| :: JsonKey(values[k])
  }

  function ValuesOne(links: Links, alternative: Alternative): Option<set<Json>> {
    match alternative
    case Const(value) => Some({JsonKey(value)})
    case Schematic(view) =>
      var schema := Resolved(links, view).schema;
      if !schema.Node? then None
      else if schema.const_.Some? then Some({JsonKey(schema.const_.value)})
      else if schema.enum_.Some? then Some(KeysOf(schema.enum_.value))
      else if schema.type_ == Some(OneType(KBoolean)) then Some({Bool(true), Bool(false)})
      else if schema.type_ == Some(OneType(KNull)) then Some({Null})
      else None
    case _ => None
  }

  function ValuesFrom(links: Links, alternatives: seq<Alternative>): Option<set<Json>> {
    if alternatives == [] then Some({})
    else
      var before := ValuesFrom(links, alternatives[..|alternatives| - 1]);
      var last := ValuesOne(links, alternatives[|alternatives| - 1]);
      if before.None? || last.None? then None else Some(before.value + last.value)
  }

  // `values`: the canonical keys of every allowed present value, when enumerable.
  function ValuesOf(links: Links, static_: Static): Option<set<Json>> {
    ValuesFrom(links, Alternatives(links, static_.alternatives))
  }

  lemma {:induction false} ValuesInclude(links: Links, alternatives: seq<Alternative>, k: nat)
    requires k < |alternatives| && ValuesFrom(links, alternatives).Some?
    ensures ValuesOne(links, alternatives[k]).Some?
    ensures ValuesOne(links, alternatives[k]).value <= ValuesFrom(links, alternatives).value
  {
    if k < |alternatives| - 1 {
      ValuesInclude(links, alternatives[..|alternatives| - 1], k);
    }
  }

  lemma OneEnumerated(links: Links, alternative: Alternative, value: Json)
    requires CoversOne(links, alternative, value) && ValuesOne(links, alternative).Some?
    ensures JsonKey(value) in ValuesOne(links, alternative).value
  {
    if alternative.Schematic? {
      var view := alternative.view;
      ResolveValid(links, view, {view}, value);
      var schema := Resolved(links, view).schema;
      assert Plain(schema, value);
      if schema.const_.Some? {
        EqualIffSameKey(schema.const_.value, value);
      } else if schema.enum_.Some? {
        var k :| 0 <= k < |schema.enum_.value| && JsonEqual(schema.enum_.value[k], value);
        EqualIffSameKey(schema.enum_.value[k], value);
      } else {
        var kind :| kind in Declared(schema.type_.value) && OfKind(kind, value);
      }
    }
  }

  // An enumerated static lists every value it covers.
  lemma ValuesCover(links: Links, static_: Static, value: Json)
    requires Covers(links, static_, value) && ValuesOf(links, static_).Some?
    ensures JsonKey(value) in ValuesOf(links, static_).value
  {
    var alternatives := Alternatives(links, static_.alternatives);
    assert SomeCovers(links, static_.alternatives, value);
    AlternativesCover(links, static_.alternatives, value);
    var k :| 0 <= k < |alternatives| && CoversOne(links, alternatives[k], value);
    ValuesInclude(links, alternatives, k);
    OneEnumerated(links, alternatives[k], value);
  }
}
