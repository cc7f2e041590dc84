/**
 The static analysis sees what schemas declare: along declared properties and items it arrives
 at the declared schema, a path a closed object does not have is impossible, and the type check
 of a condition accepts exactly the operators the declared types allow.
 */
module StaticPaths {
  import opened Foundations
  import opened Json
  import opened JsonEquality
  import opened Pointers
  import opened Bindings
  import opened Conditions
  import opened Plans
  import opened StaticSchemas
  import opened StaticValues
  import opened StaticConditions
  import opened StaticVerdicts
  import opened StaticScopes
  import opened StaticResults
  import opened ConditionChecks
  import opened PointerRules

  // ---- References ---------------------------------------------------------------------------------

  predicate Refers(links: Links, view: View, target: View) {
    && view.schema.Node? && view.schema.reference.Some?
    && (view.home, view.schema.reference.value) in links && links[(view.home, view.schema.reference.value)] == target
  }

  // A chain of references over distinct views, to one without a reference.
  ghost predicate Chain(links: Links, hops: seq<View>) {
    && hops != []
    && (forall k | 0 <= k < |hops| - 1 :: Refers(links, hops[k], hops[k + 1]))
    && (forall j, k | 0 <= j < k < |hops| :: hops[j] != hops[k])
    && var last := hops[|hops| - 1]; !(last.schema.Node? && last.schema.reference.Some?)
  }

  lemma {:induction false} ResolveFollows(links: Links, hops: seq<View>, seen: set<View>)
    requires Chain(links, hops) && forall k | 1 <= k < |hops| :: hops[k] !in seen
    ensures Resolve(links, hops[0], seen) == hops[|hops| - 1]
    decreases |hops|
  {
    if |hops| > 1 {
      assert Refers(links, hops[0], hops[1]);
      var rest := hops[1..];
      assert forall k | 0 <= k < |rest| :: rest[k] == hops[k + 1];
      ResolveFollows(links, rest, seen + {hops[1]});
    }
  }

  // References are followed to the end.
  lemma ReferencesAreFollowed(links: Links, hops: seq<View>)
    requires Chain(links, hops)
    ensures Resolved(links, hops[0]) == hops[|hops| - 1]
  {
    ResolveFollows(links, hops, {hops[0]});
  }

  // ---- Declared paths -------------------------------------------------------------------------------

  // A schema that only describes values of one type.
  predicate Describes(schema: Schema, kind: Kind) {
    && schema.Node? && schema.type_ == Some(OneType(kind)) && schema.reference.None?
    && schema.anyOf.None? && schema.oneOf.None? && !schema.blocked && !schema.branching
  }

  // What a token selects by declaration: a property, or an item.
  predicate Selects(schema: Schema, token: string, child: Schema) {
    && !child.Never?
    && (Describes(schema, KObject) || Describes(schema, KArray))
    && if schema.type_ == Some(OneType(KObject)) then
         schema.properties.Some? && token in schema.properties.value && schema.properties.value[token] == child
       else
         && IsIndex(token) && |token| <= 18
         && (schema.maxItems.Some? ==> ParseIndex(token) < schema.maxItems.value)
         && if schema.prefixItems.Some? && ParseIndex(token) < |schema.prefixItems.value|
            then schema.prefixItems.value[ParseIndex(token)] == child
            else schema.items == Some(child)
  }

  // The views a pointer passes: each what its token selects, after references, in the one before.
  ghost predicate Passes(links: Links, tokens: seq<string>, views: seq<View>) {
    && |views| == |tokens| + 1
    && forall k | 0 <= k < |tokens| :: PassesAt(links, tokens, views, k)
  }

  ghost predicate PassesAt(links: Links, tokens: seq<string>, views: seq<View>, k: int)
    requires 0 <= k < |tokens| && |views| == |tokens| + 1
  {
    && Selects(Resolved(links, views[k]).schema, tokens[k], views[k + 1].schema)
    && views[k + 1].home == Resolved(links, views[k]).home
  }

  lemma ResolvedTwice(links: Links, view: View)
    ensures Resolved(links, Resolved(links, view)) == Resolved(links, view)
  {
  }

  lemma SelectedIsChild(links: Links, view: View, token: string, child: View)
    requires Selects(Resolved(links, view).schema, token, child.schema) && child.home == Resolved(links, view).home
    ensures Expand(links, view, 0) == [Resolved(links, view)]
    ensures Child(links, Resolved(links, view), token) == Some(child)
  {
    ResolvedTwice(links, view);
  }

  lemma UnsplitView(links: Links, view: View)
    requires Expand(links, view, 0) == [Resolved(links, view)]
    ensures Alternatives(links, [Schematic(view)]) == [Schematic(Resolved(links, view))]
  {
    assert [Schematic(view)][..0] == [];
    assert Schemas([Resolved(links, view)]) == [Schematic(Resolved(links, view))];
  }

  // Like ViewBelow, through references.
  lemma UnsplitBelow(links: Links, view: View, token: string, child: Option<View>)
    requires Expand(links, view, 0) == [Resolved(links, view)] && Child(links, Resolved(links, view), token) == child
    ensures Below(links, Of(Schematic(view)), token)
            == if child.Some? then Of(Schematic(child.value)) else Static([], true, false)
  {
    var resolved := Resolved(links, view);
    UnsplitView(links, view);
    var children := ChildrenOf(links, [Schematic(resolved)], token);
    assert children == [ChildOf(links, Schematic(resolved), token)] && children[..0] == [];
    assert UnionFrom([]) == Static([], false, false);
    if child.Some? {
      assert [] + [Schematic(child.value)] == [Schematic(child.value)];
    }
  }

  lemma PassesRest(links: Links, tokens: seq<string>, views: seq<View>)
    requires Passes(links, tokens, views) && tokens != []
    ensures Below(links, Of(Schematic(views[0])), tokens[0]) == Of(Schematic(views[1]))
    ensures Passes(links, tokens[1..], views[1..])
  {
    assert PassesAt(links, tokens, views, 0);
    SelectedIsChild(links, views[0], tokens[0], views[1]);
    UnsplitBelow(links, views[0], tokens[0], Some(views[1]));
    forall k | 0 <= k < |tokens| - 1 ensures PassesAt(links, tokens[1..], views[1..], k) {
      assert PassesAt(links, tokens, views, k + 1);
    }
  }

  // A declared path leads to the declared schema.
  lemma {:induction false} DeclaredPath(links: Links, tokens: seq<string>, views: seq<View>)
    requires Passes(links, tokens, views)
    ensures PointerFrom(links, Of(Schematic(views[0])), tokens) == Of(Schematic(views[|tokens|]))
    decreases |tokens|
  {
    if tokens != [] {
      PassesRest(links, tokens, views);
      DeclaredPath(links, tokens[1..], views[1..]);
    }
  }

  // ---- Paths that cannot be ---------------------------------------------------------------------------

  // No value of this schema has anything below the token.
  predicate Lacks(schema: Schema, token: string) {
    || (Describes(schema, KObject) && !schema.patterned && schema.additional == Some(Never)
        && (schema.properties.Some? ==> token !in schema.properties.value))
    || (Describes(schema, KArray) && !IsIndex(token))
    || Describes(schema, KString) || Describes(schema, KNumber) || Describes(schema, KInteger)
    || Describes(schema, KBoolean) || Describes(schema, KNull)
  }

  lemma NothingBelow(links: Links, missing: bool, tokens: seq<string>)
    ensures PointerFrom(links, Static([], true, missing), tokens) == Static([], true, missing)
    decreases |tokens|
  {
    if tokens != [] {
      assert ChildrenOf(links, [], tokens[0]) == [];
      NothingBelow(links, missing, tokens[1..]);
    }
  }

  lemma {:induction false} PathJoins(links: Links, static_: Static, path: seq<string>, rest: seq<string>)
    ensures PointerFrom(links, static_, path + rest) == PointerFrom(links, PointerFrom(links, static_, path), rest)
    decreases |path|
  {
    if path == [] {
      assert path + rest == rest;
    } else {
      assert (path + rest)[0] == path[0] && (path + rest)[1..] == path[1..] + rest;
      PathJoins(links, Below(links, static_, path[0]), path[1..], rest);
    }
  }

  lemma LackedIsNoChild(links: Links, view: View, token: string)
    requires Resolved(links, view) == view && Lacks(view.schema, token)
    ensures Child(links, view, token).None? && Branches(view.schema).None?
  {
    assert SchemaTypes(links, view) == Some(Declared(view.schema.type_.value));
  }

  // A path on which a declared schema lacks a token is impossible.
  lemma UndeclaredPath(links: Links, tokens: seq<string>, views: seq<View>, token: string, rest: seq<string>)
    requires Passes(links, tokens, views) && Lacks(Resolved(links, views[|tokens|]).schema, token)
    ensures PointerFrom(links, Of(Schematic(views[0])), tokens + ([token] + rest)).Impossible()
  {
    var last := views[|tokens|];
    DeclaredPath(links, tokens, views);
    PathJoins(links, Of(Schematic(views[0])), tokens, [token] + rest);
    ResolvedTwice(links, last);
    LackedIsNoChild(links, Resolved(links, last), token);
    UnsplitBelow(links, last, token, None);
    assert ([token] + rest)[1..] == rest;
    NothingBelow(links, false, rest);
  }

  // ---- Where the scopes start ---------------------------------------------------------------------------

  // At the boundary, a pointer into the payload.
  lemma PayloadIsRead(c: Catalog, plan: Plan, pointer: string, path: seq<string>)
    requires Tokens(pointer) == ["payload"] + path
    ensures BoundaryResolver(c, plan)(pointer) == PointerFrom(c.links, Of(Schematic(c.payload)), path)
  {
    assert (["payload"] + path)[1..] == path;
  }

  // At the boundary, a pointer into a flow's result.
  lemma ResultIsRead(c: Catalog, plan: Plan, pointer: string, n: string, path: seq<string>)
    requires Tokens(pointer) == ["flows", n, "result"] + path && n in plan.flows
    ensures BoundaryResolver(c, plan)(pointer) == PointerFrom(c.links, FlowResult(c, plan.At(n)), path)
  {
    assert (["flows", n, "result"] + path)[3..] == path;
  }

  // Inside a flow, a pointer into its input.
  lemma InputIsRead(c: Catalog, flow: Flow, pointer: string, path: seq<string>)
    requires Tokens(pointer) == ["payload"] + path
    ensures FlowResolver(c.links, ScopeInside(c, flow))(pointer)
            == PointerFrom(c.links, Of(Schematic(InputView(c, flow.name, OPEN))), path)
  {
    assert (["payload"] + path)[1..] == path;
  }

  // Inside a flow, a pointer into a step's result.
  lemma StepResultIsRead(c: Catalog, flow: Flow, pointer: string, k: nat, path: seq<string>)
    requires DistinctNames(flow.steps) && k < |flow.steps|
    requires Tokens(pointer) == ["steps", flow.steps[k].name, "result"] + path
    ensures FlowResolver(c.links, ScopeInside(c, flow))(pointer)
            == PointerFrom(c.links, Of(Schematic(StepResult(c, flow, flow.steps[k]))), path)
  {
    StepIsNamed(flow.steps, k);
    assert flow.steps[k].name in Availability.Names(flow.steps);
    assert (["steps", flow.steps[k].name, "result"] + path)[3..] == path;
  }

  lemma {:induction false} StepIsNamed(steps: seq<Step>, k: nat)
    requires DistinctNames(steps) && k < |steps|
    ensures StepNamed(steps, steps[k].name) == Some(steps[k])
  {
    if k < |steps| - 1 {
      assert steps[k].name != steps[|steps| - 1].name;
      StepIsNamed(steps[..|steps| - 1], k);
    }
  }

  // A flow delivers its input, or what its output reads.
  lemma OutputIsRead(c: Catalog, flow: Flow, pointer: string)
    requires flow.output == Some(Pointer(pointer, None))
    ensures FlowResult(c, flow) == FlowResolver(c.links, ScopeInside(c, flow))(pointer)
  {
  }

  // ---- Types --------------------------------------------------------------------------------------------

  predicate TypeGiven(schema: Schema) {
    schema.Node? && schema.type_.Some? && Branches(schema).None?
  }

  // The declared types of the schema a pointer leads to.
  lemma DeclaredTypes(links: Links, view: View)
    requires TypeGiven(Resolved(links, view).schema)
    ensures TypesOf(links, Of(Schematic(view))) == Some(Declared(Resolved(links, view).schema.type_.value))
  {
    var resolved := Resolved(links, view);
    ResolvedTwice(links, view);
    UnsplitView(links, view);
    var kinds := Declared(resolved.schema.type_.value);
    assert [Schematic(resolved)][..0] == [] && TypesFrom(links, []) == Some({});
    assert TypesOne(links, Schematic(resolved)) == Some(kinds) && {} + kinds == kinds;
  }

  predicate Numeric(kinds: set<Kind>) {
    KNumber in kinds || KInteger in kinds
  }

  // A value of the types could equal the operand.
  predicate Comparable(kinds: set<Kind>, operand: Json) {
    match operand
    case Null => true
    case Int(_) => Numeric(kinds)
    case Float(_) => Numeric(kinds)
    case _ => KindOf(operand) in kinds
  }

  // The operator asks for one of the types.
  predicate Suits(kinds: set<Kind>, operator: Operator) {
    match operator
    case Compare(_, _) => Numeric(kinds)
    case Matches(_) => KString in kinds
    case Length(_, _) => KString in kinds || KArray in kinds || KObject in kinds
    case Equals(operand) => if operand.Arr? then AllComparable(kinds, operand.items) else Comparable(kinds, operand)
    case NotEquals(operand) => if operand.Arr? then AllComparable(kinds, operand.items) else Comparable(kinds, operand)
    case In(operands) => AllComparable(kinds, operands)
    case NotIn(operands) => AllComparable(kinds, operands)
    case _ => true
  }

  predicate AllComparable(kinds: set<Kind>, operands: seq<Json>) {
    forall k | 0 <= k < |operands| :: Comparable(kinds, operands[k])
  }

  // Only disjoint types are incompatible, where every integer is a number.
  lemma IncompatibleIffDisjoint(kinds: set<Kind>, others: set<Kind>)
    ensures Incompatible(Some(kinds), Some(others))
            <==> (forall kind | kind in kinds :: kind !in others) && !(Numeric(kinds) && Numeric(others)
                 && (KNumber in kinds || KNumber in others))
  {
    if kind :| kind in kinds && kind in others {
      assert kind in Closed(kinds) * Closed(others);
    }
    if Numeric(kinds) && Numeric(others) && (KNumber in kinds || KNumber in others) {
      assert KInteger in Closed(kinds) * Closed(others);
    }
    if Closed(kinds) * Closed(others) != {} {
      var kind :| kind in Closed(kinds) * Closed(others);
      assert kind == KInteger || (kind in kinds && kind in others);
    }
  }

  lemma OperandFitsIff(kinds: set<Kind>, operand: Json)
    ensures OperandFits(Some(kinds), operand) <==> Comparable(kinds, operand)
  {
    IncompatibleIffDisjoint(kinds, {KindOf(operand)});
  }

  lemma ExpectsIff(kinds: set<Kind>, operator: Operator)
    requires operator.Compare? || operator.Matches? || operator.Length?
    ensures !Incompatible(Some(kinds), ExpectedKinds(operator)) <==> Suits(kinds, operator)
  {
    IncompatibleIffDisjoint(kinds, ExpectedKinds(operator).value);
  }

  // The type check of a leaf whose source has declared types.
  lemma TypeCheckIff(links: Links, pointer: string, operator: Operator, resolve: Resolver, view: View)
    requires resolve(pointer) == Of(Schematic(view)) && TypeGiven(Resolved(links, view).schema)
    ensures LeafChecked(links, Pointer(pointer, None), operator, resolve)
            <==> Suits(Declared(Resolved(links, view).schema.type_.value), operator)
  {
    var kinds := Declared(Resolved(links, view).schema.type_.value);
    DeclaredTypes(links, view);
    if operator.Compare? || operator.Matches? || operator.Length? {
      ExpectsIff(kinds, operator);
    }
    var operands := CheckedOperands(operator);
    assert operator.Equals? && !operator.operand.Arr? ==> operands[0] == operator.operand;
    assert operator.NotEquals? && !operator.operand.Arr? ==> operands[0] == operator.operand;
    assert Operands(operator).Some? ==> (Suits(kinds, operator) <==> AllComparable(kinds, operands));
    forall k | 0 <= k < |operands| ensures OperandFits(Some(kinds), operands[k]) <==> Comparable(kinds, operands[k]) {
      OperandFitsIff(kinds, operands[k]);
    }
  }

  // A leaf about a path that cannot be is rejected.
  lemma ImpossibleIsRejected(c: Catalog, plan: Plan, pointer: string, operator: Operator, tokens: seq<string>,
                             views: seq<View>, token: string, rest: seq<string>)
    requires Tokens(pointer) == ["payload"] + (tokens + ([token] + rest))
    requires views != [] && views[0] == c.payload && Passes(c.links, tokens, views)
    requires Lacks(Resolved(c.links, views[|tokens|]).schema, token)
    ensures !LeafChecked(c.links, Pointer(pointer, None), operator, BoundaryResolver(c, plan))
  {
    PayloadIsRead(c, plan, pointer, tokens + ([token] + rest));
    UndeclaredPath(c.links, tokens, views, token, rest);
  }

  // Cases are exhaustive exactly when every text the schema names has one.
  lemma ExhaustiveIff(links: Links, pointer: string, cases: seq<Case>, resolve: Resolver, view: View, values: seq<Json>)
    requires resolve(pointer) == Of(Schematic(view)) && TypeGiven(Resolved(links, view).schema)
    requires Declared(Resolved(links, view).schema.type_.value) <= {KString, KNull}
    requires Choices(Resolved(links, view).schema) == [] && NamedValues(Resolved(links, view).schema) == Some(values)
    ensures Exhaustive(links, Pointer(pointer, None), cases, resolve)
            <==> forall value | value in values && value.Str? :: HasCase(cases, value.s)
  {
    var static_ := Of(Schematic(view));
    DeclaredTypes(links, view);
    NamedArePossible(links, view, values);
    ValuesListed(links, static_);
    assert BindingStatic(links, Pointer(pointer, None), resolve) == static_;
    forall value: Json | value.Str? ensures value in ValuesOf(links, static_).value <==> value in values {
      assert JsonKey(value) == value;
      if value in ValuesOf(links, static_).value {
        var other :| Possible(links, static_, other) && JsonKey(other) == value;
        assert other == value;
      }
    }
  }

  // A condition is checked leaf by leaf.
  lemma {:induction false} CheckedIff(links: Links, condition: Condition, resolve: Resolver)
    ensures ConditionChecked(links, condition, resolve)
            <==> forall source, operator :: Has(condition, source, operator) ==>
                                              LeafChecked(links, source, operator, resolve)
    decreases condition, 1
  {
    match condition
    case Leaf(source, operator) =>
      assert Has(condition, source, operator);
    case All(operands) => OperandsChecked(links, condition, operands, resolve);
    case AnyOf(operands) => OperandsChecked(links, condition, operands, resolve);
    case Not(operand) =>
      CheckedIff(links, operand, resolve);
      assert forall source, operator :: Has(condition, source, operator) <==> Has(operand, source, operator);
  }

  lemma {:induction false} OperandsChecked(links: Links, condition: Condition, operands: seq<Condition>,
                                           resolve: Resolver)
    requires condition == All(operands) || condition == AnyOf(operands)
    ensures (forall k | 0 <= k < |operands| :: ConditionChecked(links, operands[k], resolve))
            <==> forall source, operator :: Has(condition, source, operator) ==>
                                              LeafChecked(links, source, operator, resolve)
    decreases condition, 0
  {
    forall k | 0 <= k < |operands|
      ensures ConditionChecked(links, operands[k], resolve)
              <==> forall source, operator :: Has(operands[k], source, operator) ==>
                                                LeafChecked(links, source, operator, resolve)
    {
      CheckedIff(links, operands[k], resolve);
    }
    forall source, operator
      ensures Has(condition, source, operator) <==> exists k ::
                0 <= k < |operands| && Has(operands[k], source, operator)
    {
    }
  }
}
