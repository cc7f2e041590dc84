/**
 The static analysis decides: whatever enumerable values settle, it settles.  Its verdicts are
 sound (StaticConditions); here they are complete for the values constants and schemas list.
 */
module StaticVerdicts {
  import opened Foundations
  import opened Json
  import opened JsonEquality
  import opened Conditions
  import opened Plans
  import opened StaticSchemas
  import opened StaticValues
  import opened StaticConditions

  // ---- What a schema lists ----------------------------------------------------------------------

  // The branches of a schema that is only a choice between them.
  function Choices(schema: Schema): seq<Schema> {
    if schema.Node? && !schema.blocked && schema.properties == None && schema.items == None then
      match (schema.anyOf, schema.oneOf)
      case (Some(branches), _) => branches
      case (None, Some(branches)) => branches
      case (None, None) => []
    else []
  }

  // The values one schema names: its constant, its enumeration, or those of a type with few.
  function NamedValues(schema: Schema): Option<seq<Json>> {
    if !schema.Node? then None
    else
      match (schema.const_, schema.enum_, schema.type_)
      case (Some(value), _, _) => Some([value])
      case (None, Some(values), _) => Some(values)
      case (None, None, Some(OneType(KBoolean))) => Some([Bool(true), Bool(false)])
      case (None, None, Some(OneType(KNull))) => Some([Null])
      case _ => None
  }

  // Every choice, to the depth the analysis follows, names its values.
  predicate Countable(links: Links, view: View, depth: nat)
    decreases MAX_EXPANSION - depth
  {
    var resolved := Resolved(links, view);
    if depth >= MAX_EXPANSION || Choices(resolved.schema) == [] then NamedValues(resolved.schema).Some?
    else forall k | 0 <= k < |Choices(resolved.schema)| ::
      Countable(links, View(Choices(resolved.schema)[k], resolved.home), depth + 1)
  }

  predicate Listed(links: Links, view: View, depth: nat, value: Json)
    decreases MAX_EXPANSION - depth
  {
    var resolved := Resolved(links, view);
    if depth >= MAX_EXPANSION || Choices(resolved.schema) == [] then
      NamedValues(resolved.schema).Some? && value in NamedValues(resolved.schema).value
    else exists k | 0 <= k < |Choices(resolved.schema)| ::
      Listed(links, View(Choices(resolved.schema)[k], resolved.home), depth + 1, value)
  }

  // ---- What a static value lists ------------------------------------------------------------------

  predicate Enumerable(links: Links, alternative: Alternative) {
    match alternative
    case Const(_) => true
    case Schematic(view) => Countable(links, view, 0)
    case _ => false
  }

  predicate Lists(links: Links, alternative: Alternative, value: Json) {
    match alternative
    case Const(constant) => value == constant
    case Schematic(view) => Listed(links, view, 0, value)
    case _ => false
  }

  predicate AllEnumerable(links: Links, static_: Static) {
    forall alternative | alternative in static_.alternatives :: Enumerable(links, alternative)
  }

  // The value is one of those the static value lists.
  predicate Possible(links: Links, static_: Static, value: Json) {
    exists alternative :: alternative in static_.alternatives && Lists(links, alternative, value)
  }

  // ---- The analysis finds them --------------------------------------------------------------------

  lemma ChoicesAreBranches(schema: Schema)
    requires schema.Node?
    ensures Branches(schema) == if Choices(schema) == [] then None else Some(Choices(schema))
  {
  }

  // Every alternative has its keys enumerated.
  predicate Counted(links: Links, alternatives: seq<Alternative>) {
    forall k | 0 <= k < |alternatives| :: ValuesOne(links, alternatives[k]).Some?
  }

  predicate KeyOf(links: Links, alternatives: seq<Alternative>, key: Json) {
    exists k | 0 <= k < |alternatives| ::
      ValuesOne(links, alternatives[k]).Some? && key in ValuesOne(links, alternatives[k]).value
  }

  // The enumerated keys are exactly those of the values in a set.
  ghost predicate Enumerates(links: Links, alternatives: seq<Alternative>, listed: iset<Json>) {
    && Counted(links, alternatives)
    && forall key :: KeyOf(links, alternatives, key) <==> exists value :: value in listed && JsonKey(value) == key
  }

  lemma EnumeratesNothing(links: Links)
    ensures Enumerates(links, [], iset{})
  {
  }

  lemma EnumeratesBoth(links: Links, one: seq<Alternative>, other: seq<Alternative>, a: iset<Json>, b: iset<Json>)
    requires Enumerates(links, one, a) && Enumerates(links, other, b)
    ensures Enumerates(links, one + other, a + b)
  {
    var both := one + other;
    assert forall k | 0 <= k < |other| :: both[|one| + k] == other[k];
    forall key ensures KeyOf(links, both, key) <==> KeyOf(links, one, key) || KeyOf(links, other, key) {
      if KeyOf(links, one, key) {
        var k :| 0 <= k < |one| && ValuesOne(links, one[k]).Some? && key in ValuesOne(links, one[k]).value;
        assert both[k] == one[k];
      }
      if KeyOf(links, other, key) {
        var k :| 0 <= k < |other| && ValuesOne(links, other[k]).Some? && key in ValuesOne(links, other[k]).value;
        assert both[|one| + k] == other[k];
      }
    }
  }

  ghost function ListedIn(links: Links, view: View, depth: nat): iset<Json> {
    iset value | Listed(links, view, depth, value)
  }

  lemma NamedCounts(links: Links, view: View)
    requires view == Resolved(links, view) && NamedValues(view.schema).Some?
    ensures Enumerates(links, [Schematic(view)], iset value | value in NamedValues(view.schema).value)
  {
    var alternatives, values := [Schematic(view)], NamedValues(view.schema).value;
    assert ValuesOne(links, alternatives[0]) == Some(KeysOf(values)) by {
      NamedKeys(links, view);
    }
    forall key ensures KeyOf(links, alternatives, key) <==> exists value :: value in values && JsonKey(value) == key {
      assert KeyOf(links, alternatives, key) <==> key in KeysOf(values);
      if value :| value in values && JsonKey(value) == key {
        var k :| 0 <= k < |values| && values[k] == value;
      }
    }
  }

  lemma NamedKeys(links: Links, view: View)
    requires view == Resolved(links, view) && NamedValues(view.schema).Some?
    ensures ValuesOne(links, Schematic(view)) == Some(KeysOf(NamedValues(view.schema).value))
  {
    var schema, values := view.schema, NamedValues(view.schema).value;
    if schema.const_.None? && schema.enum_.None? {
      if schema.type_ == Some(OneType(KBoolean)) {
        assert values[0] == Bool(true) && values[1] == Bool(false);
        assert KeysOf(values) == {JsonKey(Bool(true)), JsonKey(Bool(false))};
      } else {
        KeysOfOne(Null);
      }
    } else if schema.const_.Some? {
      KeysOfOne(schema.const_.value);
    }
  }

  lemma KeysOfOne(value: Json)
    ensures KeysOf([value]) == {JsonKey(value)}
  {
    assert [value][0] == value;
  }

  lemma {:induction false} ExpandCounts(links: Links, view: View, depth: nat)
    requires Countable(links, view, depth)
    ensures Enumerates(links, Schemas(Expand(links, view, depth)), ListedIn(links, view, depth))
    decreases MAX_EXPANSION - depth, 1, 0
  {
    var resolved := Resolved(links, view);
    assert Resolved(links, resolved) == resolved;
    if depth >= MAX_EXPANSION || Choices(resolved.schema) == [] {
      assert Expand(links, view, depth) == [resolved];
      assert Schemas([resolved]) == [Schematic(resolved)];
      NamedCounts(links, resolved);
      assert ListedIn(links, view, depth) == iset value | value in NamedValues(resolved.schema).value;
    } else {
      ChoicesAreBranches(resolved.schema);
      ExpandAllCounts(links, Choices(resolved.schema), resolved.home, depth + 1);
      assert ListedIn(links, view, depth) == ListedAmong(links, Choices(resolved.schema), resolved.home, depth + 1);
    }
  }

  ghost function ListedAmong(links: Links, branches: seq<Schema>, home: string, depth: nat): iset<Json> {
    iset value | InSome(links, branches, home, depth, value)
  }

  predicate InSome(links: Links, branches: seq<Schema>, home: string, depth: nat, value: Json) {
    exists k | 0 <= k < |branches| :: Listed(links, View(branches[k], home), depth, value)
  }

  lemma {:induction false} ExpandAllCounts(links: Links, branches: seq<Schema>, home: string, depth: nat)
    requires depth <= MAX_EXPANSION
    requires forall k | 0 <= k < |branches| :: Countable(links, View(branches[k], home), depth)
    ensures Enumerates(links, Schemas(ExpandAll(links, branches, home, depth)),
                       ListedAmong(links, branches, home, depth))
    decreases MAX_EXPANSION - depth, 2, |branches|
  {
    if branches == [] {
      EnumeratesNothing(links);
    } else {
      var init, last := branches[..|branches| - 1], View(branches[|branches| - 1], home);
      ExpandAllCounts(links, init, home, depth);
      ExpandCounts(links, last, depth);
      var before, after := ExpandAll(links, init, home, depth), Expand(links, last, depth);
      EnumeratesBoth(links, Schemas(before), Schemas(after), ListedAmong(links, init, home, depth),
                     ListedIn(links, last, depth));
      assert Schemas(before + after) == Schemas(before) + Schemas(after);
      AmongLast(links, branches, home, depth);
    }
  }

  lemma AmongLast(links: Links, branches: seq<Schema>, home: string, depth: nat)
    requires branches != []
    ensures ListedAmong(links, branches, home, depth)
            == ListedAmong(links, branches[..|branches| - 1], home, depth)
               + ListedIn(links, View(branches[|branches| - 1], home), depth)
  {
  }

  ghost function Possibilities(links: Links, alternatives: seq<Alternative>): iset<Json> {
    iset value | ListedBySome(links, alternatives, value)
  }

  predicate ListedBySome(links: Links, alternatives: seq<Alternative>, value: Json) {
    exists k | 0 <= k < |alternatives| :: Lists(links, alternatives[k], value)
  }

  lemma {:induction false} AlternativesCount(links: Links, alternatives: seq<Alternative>)
    requires forall k | 0 <= k < |alternatives| :: Enumerable(links, alternatives[k])
    ensures Enumerates(links, Alternatives(links, alternatives), Possibilities(links, alternatives))
    decreases |alternatives|
  {
    if alternatives == [] {
      EnumeratesNothing(links);
    } else {
      var init, last := alternatives[..|alternatives| - 1], alternatives[|alternatives| - 1];
      AlternativesCount(links, init);
      var own := iset value | Lists(links, last, value);
      if last.Schematic? {
        ExpandCounts(links, last.view, 0);
        assert own == ListedIn(links, last.view, 0);
        EnumeratesBoth(links, Alternatives(links, init), Schemas(Expand(links, last.view, 0)),
                       Possibilities(links, init), own);
      } else {
        ConstCounts(links, last.value);
        assert own == iset{last.value};
        EnumeratesBoth(links, Alternatives(links, init), [last], Possibilities(links, init), own);
      }
      assert Possibilities(links, alternatives) == Possibilities(links, init) + own;
    }
  }

  lemma ConstCounts(links: Links, value: Json)
    ensures Enumerates(links, [Const(value)], iset{value})
  {
    var alternatives := [Const(value)];
    assert ValuesOne(links, alternatives[0]) == Some({JsonKey(value)});
  }

  lemma {:induction false} ValuesUnion(links: Links, alternatives: seq<Alternative>)
    requires Counted(links, alternatives)
    ensures ValuesFrom(links, alternatives).Some?
    ensures forall key :: key in ValuesFrom(links, alternatives).value <==> KeyOf(links, alternatives, key)
    decreases |alternatives|
  {
    if alternatives != [] {
      ValuesUnion(links, alternatives[..|alternatives| - 1]);
    }
  }

  // A schema that names its values lists exactly those.
  lemma NamedArePossible(links: Links, view: View, values: seq<Json>)
    requires Choices(Resolved(links, view).schema) == [] && NamedValues(Resolved(links, view).schema) == Some(values)
    ensures AllEnumerable(links, Of(Schematic(view)))
    ensures forall value :: Possible(links, Of(Schematic(view)), value) <==> value in values
  {
    var static_ := Of(Schematic(view));
    forall value ensures Possible(links, static_, value) <==> value in values {
      assert static_.alternatives == [Schematic(view)];
      if value in values {
        assert static_.alternatives[0] in static_.alternatives && Lists(links, static_.alternatives[0], value);
      }
    }
  }

  // The analysis enumerates exactly the keys of the values an enumerable static value lists.
  lemma ValuesListed(links: Links, static_: Static)
    requires AllEnumerable(links, static_)
    ensures ValuesOf(links, static_).Some?
    ensures forall key :: key in ValuesOf(links, static_).value
              <==> exists value :: Possible(links, static_, value) && JsonKey(value) == key
  {
    AlternativesCount(links, static_.alternatives);
    ValuesUnion(links, Alternatives(links, static_.alternatives));
    forall value ensures value in Possibilities(links, static_.alternatives) <==> Possible(links, static_, value) {
      if Possible(links, static_, value) {
        var alternative :| alternative in static_.alternatives && Lists(links, alternative, value);
        var k :| 0 <= k < |static_.alternatives| && static_.alternatives[k] == alternative;
      }
    }
  }

  // ---- Verdicts -----------------------------------------------------------------------------------

  // The operator answers the same for every listed value.
  ghost predicate Settles(links: Links, operator: Operator, static_: Static, matcher: Matcher, truth: bool) {
    && AllEnumerable(links, static_) && (exists value :: Possible(links, static_, value))
    && forall value | Possible(links, static_, value) :: Apply(operator, value, matcher) == Ok(truth)
  }

  // An equality or membership with operands other than null.
  predicate Compares(operator: Operator) {
    match operator
    case Equals(operand) => operand != Null
    case NotEquals(operand) => operand != Null
    case In(operands) => operands != [] && Null !in operands
    case NotIn(operands) => operands != [] && Null !in operands
    case _ => false
  }

  // A settled equality has a verdict: a strict one when absence does not change the answer.
  lemma SettledIsDecided(links: Links, operator: Operator, static_: Static, matcher: Matcher, truth: bool)
    requires Compares(operator) && Settles(links, operator, static_, matcher, truth)
    ensures LeafVerdict(links, operator, static_)
            == Verdict(Some(truth), Apply(operator, Null, matcher) == Ok(truth))
  {
    ValuesListed(links, static_);
    var allowed, operands := ValuesOf(links, static_).value, Operands(operator).value;
    forall value | Possible(links, static_, value)
      ensures JsonKey(value) in KeysOf(operands) <==> truth == Positive(operator)
    {
      EqualityApplies(operator, value, matcher);
      NoKeyMatches(value, operands);
    }
    var some :| Possible(links, static_, some);
    assert JsonKey(some) in allowed;
    AbsenceAnswers(operator, matcher);
    KeysDecide(allowed, KeysOf(operands), JsonKey(some), truth == Positive(operator));
  }

  // Absence equals no operand but null.
  lemma AbsenceAnswers(operator: Operator, matcher: Matcher)
    requires Compares(operator)
    ensures Operands(operator).Some? && Null !in Operands(operator).value
    ensures Apply(operator, Null, matcher) == Ok(!Positive(operator))
  {
    EqualityApplies(operator, Null, matcher);
    NullIsNoMember(Operands(operator).value);
  }

  lemma KeysDecide(allowed: set<Json>, operands: set<Json>, some: Json, all: bool)
    requires some in allowed && forall key | key in allowed :: key in operands <==> all
    ensures all ==> allowed <= operands && allowed * operands != {}
    ensures !all ==> operands * allowed == {} && !(allowed <= operands)
  {
    if all {
      assert some in allowed * operands;
    }
  }

  // ---- Whole conditions -----------------------------------------------------------------------------

  // Every leaf that matters is settled, for present and absent values alike.
  ghost predicate Settled(links: Links, condition: Condition, resolve: Resolver, matcher: Matcher, truth: bool)
    decreases condition
  {
    match condition
    case Leaf(source, operator) =>
      && Compares(operator) && Settles(links, operator, SourceStatic(source, resolve), matcher, truth)
      && Apply(operator, Null, matcher) == Ok(truth)
    case Not(operand) => Settled(links, operand, resolve, matcher, !truth)
    case All(operands) =>
      if truth then forall operand | operand in operands :: Settled(links, operand, resolve, matcher, true)
      else exists operand | operand in operands :: Settled(links, operand, resolve, matcher, false)
    case AnyOf(operands) =>
      if truth then exists operand | operand in operands :: Settled(links, operand, resolve, matcher, true)
      else forall operand | operand in operands :: Settled(links, operand, resolve, matcher, false)
  }

  // What is settled the three-valued combination decides.
  lemma {:induction false} SettledIsTrue(links: Links, condition: Condition, resolve: Resolver, matcher: Matcher,
                                         truth: bool)
    requires Settled(links, condition, resolve, matcher, truth)
    ensures Truth(links, condition, resolve) == Some(truth)
    decreases condition
  {
    match condition
    case Leaf(source, operator) =>
      SettledIsDecided(links, operator, SourceStatic(source, resolve), matcher, truth);
    case Not(operand) => SettledIsTrue(links, operand, resolve, matcher, !truth);
    case All(operands) => OperandsSettled(links, operands, resolve, matcher);
    case AnyOf(operands) => OperandsSettled(links, operands, resolve, matcher);
  }

  lemma {:induction false} OperandsSettled(links: Links, operands: seq<Condition>, resolve: Resolver, matcher: Matcher)
    ensures forall k, truth | 0 <= k < |operands| && Settled(links, operands[k], resolve, matcher, truth) ::
              Truth(links, operands[k], resolve) == Some(truth)
    decreases operands
  {
    forall k, truth | 0 <= k < |operands| && Settled(links, operands[k], resolve, matcher, truth)
      ensures Truth(links, operands[k], resolve) == Some(truth)
    {
      SettledIsTrue(links, operands[k], resolve, matcher, truth);
    }
  }

  // An entry settled false is dead, and so is every entry after one settled true.
  lemma SettledIsDead(links: Links, entries: seq<RouteEntry>, resolve: Resolver, matcher: Matcher, k: nat)
    requires k < |entries|
    requires || SettledEntry(links, entries[k], resolve, matcher, false)
             || exists j | 0 <= j < k :: SettledEntry(links, entries[j], resolve, matcher, true)
    ensures Dead(links, entries, resolve, k)
  {
    if SettledEntry(links, entries[k], resolve, matcher, false) {
      SettledIsTrue(links, entries[k].condition.value, resolve, matcher, false);
    } else {
      var j :| 0 <= j < k && SettledEntry(links, entries[j], resolve, matcher, true);
      SettledIsTrue(links, entries[j].condition.value, resolve, matcher, true);
    }
  }

  ghost predicate SettledEntry(links: Links, entry: RouteEntry, resolve: Resolver, matcher: Matcher, truth: bool) {
    match entry.condition
    case None => false
    case Some(condition) => Settled(links, condition, resolve, matcher, truth)
  }
}
