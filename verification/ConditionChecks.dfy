/**
 The compiler's checks of authored conditions: what they may read, and whether their operators
 fit the statically known types.  A leaf the type check rejects could never have held.
 */
module ConditionChecks {
  import opened Foundations
  import opened Json
  import opened JsonEquality
  import opened Pointers
  import opened Bindings
  import opened Conditions
  import opened Plans
  import opened Records
  import opened Engine
  import opened Acceptance
  import opened Availability
  import opened StaticSchemas
  import opened StaticValues
  import opened StaticConditions
  import opened StaticScopes
  import opened StaticResults

  // ---- One leaf -------------------------------------------------------------------------

  // The types an operator asks for.
  function ExpectedKinds(operator: Operator): Option<set<Kind>> {
    match operator
    case Compare(_, _) => Some({KNumber})
    case Matches(_) => Some({KString})
    case Length(_, _) => Some({KString, KArray, KObject})
    case _ => None
  }

  // The operands whose types are checked: of equals and not_equals with an array its items.
  function CheckedOperands(operator: Operator): seq<Json> {
    match operator
    case Equals(operand) => if operand.Arr? then operand.items else [operand]
    case NotEquals(operand) => if operand.Arr? then operand.items else [operand]
    case In(operands) => operands
    case NotIn(operands) => operands
    case _ => []
  }

  // An operand the source could equal.
  predicate OperandFits(kinds: Option<set<Kind>>, operand: Json) {
    operand == Null || !Incompatible(kinds, Some({KindOf(operand)}))
  }

  // The part of `check_condition` about one leaf.
  predicate LeafChecked(links: Links, source: Binding, operator: Operator, resolve: Resolver) {
    var static_ := SourceStatic(source, resolve);
    var kinds := TypesOf(links, static_);
    && (!source.Literal? ==> !static_.Impossible())
    && !Incompatible(kinds, ExpectedKinds(operator))
    && forall k | 0 <= k < |CheckedOperands(operator)| :: OperandFits(kinds, CheckedOperands(operator)[k])
  }

  predicate ConditionChecked(links: Links, condition: Condition, resolve: Resolver)
    decreases condition
  {
    match condition
    case Leaf(source, operator) => LeafChecked(links, source, operator, resolve)
    case All(operands) => forall k | 0 <= k < |operands| :: ConditionChecked(links, operands[k], resolve)
    case AnyOf(operands) => forall k | 0 <= k < |operands| :: ConditionChecked(links, operands[k], resolve)
    case Not(operand) => ConditionChecked(links, operand, resolve)
  }

  // ---- What is rejected could not have held, but for arrays ---------------------------------

  // A source the compiler calls impossible is absent in every covered context.
  lemma ImpossibleIsAbsent(links: Links, source: Binding, resolve: Resolver, context: Json)
    requires AuthoredSource(source) && NarrowBinding(source) && Fitting(links, resolve, context)
    requires SourceStatic(source, resolve).Impossible()
    ensures var value := ResolveSource(source, context); value.Ok? ==> value.value == Null
  {
    SourceCovered(links, source, resolve, context);
  }

  // The value of a source that is present has one of the listed types.
  lemma SourceTyped(links: Links, source: Binding, resolve: Resolver, context: Json, value: Json)
    requires AuthoredSource(source) && NarrowBinding(source) && Fitting(links, resolve, context)
    requires ResolveSource(source, context) == Ok(value) && value != Null
    requires TypesOf(links, SourceStatic(source, resolve)).Some?
    ensures Near(TypesOf(links, SourceStatic(source, resolve)).value, value)
  {
    SourceCovered(links, source, resolve, context);
    TypesCover(links, SourceStatic(source, resolve), value);
  }

  lemma ExpectedNear(operator: Operator, value: Json, matcher: Matcher)
    requires ExpectedKinds(operator).Some? && Apply(operator, value, matcher) == Ok(true)
    ensures Near(ExpectedKinds(operator).value, value)
  {
    if !operator.Compare? {
      assert OfKind(KindOf(value), value);
    }
  }

  // A comparison, match or length of incompatible type is false in every covered context.
  lemma MismatchNeverHolds(links: Links, source: Binding, operator: Operator, resolve: Resolver, context: Json,
                           matcher: Matcher)
    requires AuthoredSource(source) && AuthoredOperator(operator)
    requires NarrowBinding(source) && Fitting(links, resolve, context) && !Overlong(source, context)
    requires Incompatible(TypesOf(links, SourceStatic(source, resolve)), ExpectedKinds(operator))
    ensures Evaluate(Leaf(source, operator), context, matcher) == Ok(false)
  {
    FailsIffOverlong(Leaf(source, operator), context, matcher);
    var value := ResolveSource(source, context).value;
    if Apply(operator, value, matcher) == Ok(true) {
      ExpectedNear(operator, value, matcher);
      SourceTyped(links, source, resolve, context, value);
      CompatibleWhenShared(TypesOf(links, SourceStatic(source, resolve)).value, ExpectedKinds(operator).value, value);
    }
  }

  // An operand of incompatible type equals the value of the source in no covered context.
  lemma MisfitNeverEquals(links: Links, source: Binding, resolve: Resolver, context: Json, operand: Json)
    requires AuthoredSource(source) && NarrowBinding(source) && Fitting(links, resolve, context)
    requires !OperandFits(TypesOf(links, SourceStatic(source, resolve)), operand)
    ensures var value := ResolveSource(source, context); value.Ok? ==> !JsonEqual(value.value, operand)
  {
    var value := ResolveSource(source, context);
    if value.Ok? && JsonEqual(value.value, operand) {
      EqualIsNear(operand, value.value);
      SourceTyped(links, source, resolve, context, value.value);
      CompatibleWhenShared(TypesOf(links, SourceStatic(source, resolve)).value, {KindOf(operand)}, value.value);
    }
  }

  // A leaf rejected for an operand decides nothing by it, except equality with an array.
  lemma RejectedOperandNeverEquals(links: Links, source: Binding, operator: Operator, resolve: Resolver, context: Json,
                                   k: nat)
    requires AuthoredSource(source) && NarrowBinding(source) && Fitting(links, resolve, context)
    requires k < |CheckedOperands(operator)|
    requires !OperandFits(TypesOf(links, SourceStatic(source, resolve)), CheckedOperands(operator)[k])
    requires operator.Equals? || operator.NotEquals? ==> !operator.operand.Arr?
    ensures Operands(operator).Some? && CheckedOperands(operator) == Operands(operator).value
    ensures var value := ResolveSource(source, context);
            value.Ok? ==> !JsonEqual(value.value, CheckedOperands(operator)[k])
  {
    MisfitNeverEquals(links, source, resolve, context, CheckedOperands(operator)[k]);
  }

  // A source whose types exclude arrays equals no array.
  lemma NoArrayNeverEquals(links: Links, source: Binding, resolve: Resolver, context: Json, items: seq<Json>)
    requires AuthoredSource(source) && NarrowBinding(source) && Fitting(links, resolve, context)
    requires TypesOf(links, SourceStatic(source, resolve)).Some?
    requires KArray !in TypesOf(links, SourceStatic(source, resolve)).value
    ensures var value := ResolveSource(source, context); value.Ok? ==> !JsonEqual(value.value, Arr(items))
  {
    MisfitNeverEquals(links, source, resolve, context, Arr(items));
  }

  // Of a source that is an array and nothing else, equality with an array is accepted exactly
  // when every item of the operand is null or an array; otherwise the leaf is rejected even
  // where it holds.
  lemma ArrayOperandAccepted(links: Links, pointer: string, items: seq<Json>, resolve: Resolver)
    requires TypesOf(links, resolve(pointer)) == Some({KArray}) && !resolve(pointer).Impossible()
    ensures LeafChecked(links, Pointer(pointer, None), Operator.Equals(Arr(items)), resolve)
            <==> forall k | 0 <= k < |items| :: items[k] == Null || items[k].Arr?
  {
    forall k | 0 <= k < |items| ensures OperandFits(Some({KArray}), items[k]) <==> items[k] == Null || items[k].Arr? {
      assert KArray in {KArray} * {KArray};
      assert Closed({KArray}) == {KArray} && KindOf(items[k]) in Closed({KindOf(items[k])});
    }
    assert CheckedOperands(Operator.Equals(Arr(items))) == items;
  }

  // A payload declared as an array that is the list ["a"], compared with that list.
  lemma EqualListIsRejected(matcher: Matcher)
    ensures var list, pointer := Arr([Str("a")]), Spell(["payload"]);
            && Valid(map[], LIST, list)
            && !LeafChecked(map[], Pointer(pointer, None), Operator.Equals(list),
                            WorkflowResolver(map[], WorkflowScope(LIST, map[])))
            && Evaluate(Leaf(Pointer(pointer, None), Operator.Equals(list)), StartContext(list, map[]), matcher)
               == Ok(true)
  {
    var pointer := Spell(["payload"]);
    SpellRoundTrip(["payload"]);
    ListRejected(pointer, [Str("a")]);
    ListHolds(pointer, Arr([Str("a")]), matcher);
  }

  lemma ListValid(items: seq<Json>)
    ensures Valid(map[], LIST, Arr(items))
  {
    assert OfKind(KArray, Arr(items)) && KArray in Declared(OneType(KArray));
  }

  lemma PayloadStatic(scope: WorkflowScope, pointer: string)
    requires Tokens(pointer) == ["payload"]
    ensures WorkflowStatic(map[], scope, pointer) == Of(Schematic(scope.payload))
  {
    assert Tokens(pointer)[1..] == [];
  }

  lemma ListRejected(pointer: string, items: seq<Json>)
    requires Tokens(pointer) == ["payload"] && |items| > 0 && items[0].Str?
    ensures Valid(map[], LIST, Arr(items))
    ensures !LeafChecked(map[], Pointer(pointer, None), Operator.Equals(Arr(items)),
                         WorkflowResolver(map[], WorkflowScope(LIST, map[])))
  {
    ListValid(items);
    PayloadStatic(WorkflowScope(LIST, map[]), pointer);
    ViewTyped(map[], LIST, {KArray});
    ArrayOperandAccepted(map[], pointer, items, WorkflowResolver(map[], WorkflowScope(LIST, map[])));
  }

  lemma ListHolds(pointer: string, list: Json, matcher: Matcher)
    requires Admissible(pointer) && Tokens(pointer) == ["payload"]
    ensures Evaluate(Leaf(Pointer(pointer, None), Operator.Equals(list)), StartContext(list, map[]), matcher)
            == Ok(true)
  {
    PayloadFound(pointer, list, map[]);
    OneEquivalence(list, list, list);
  }

  // The types of a view that is not split.
  lemma ViewTyped(links: Links, view: View, kinds: set<Kind>)
    requires Resolved(links, view) == view && SchemaTypes(links, view) == Some(kinds)
    requires view.schema.Node? && Branches(view.schema).None?
    ensures TypesOf(links, Of(Schematic(view))) == Some(kinds)
  {
    Unsplit(links, view);
    OneTypes(links, Schematic(view), kinds);
  }

  lemma OneTypes(links: Links, alternative: Alternative, kinds: set<Kind>)
    requires TypesOne(links, alternative) == Some(kinds)
    ensures TypesFrom(links, [alternative]) == Some(kinds)
  {
    assert [alternative][..0] == [];
    assert TypesFrom(links, []) == Some({}) && {} + kinds == kinds;
  }

  lemma PayloadFound(pointer: string, payload: Json, metadata: Object)
    requires Admissible(pointer) && Tokens(pointer) == ["payload"]
    ensures ResolveSource(Pointer(pointer, None), StartContext(payload, metadata)) == Ok(payload)
  {
    WalkInto(Tokens(pointer), StartContext(payload, metadata).fields);
    assert Tokens(pointer)[1..] == [];
  }

  lemma EqualIsNear(operand: Json, value: Json)
    requires JsonEqual(value, operand) && operand != Null
    ensures value != Null && Near({KindOf(operand)}, value)
  {
    OneEquivalence(value, operand, value);
    EqualKinds(operand, value);
    assert KindOf(operand) in {KindOf(operand)};
  }

  // ---- Routes ---------------------------------------------------------------------------------

  // Entries behind one that always holds are not checked.
  predicate Settled(links: Links, entries: seq<RouteEntry>, resolve: Resolver, k: nat)
    requires k <= |entries|
  {
    exists j | 0 <= j < k :: EntryTruth(links, entries[j], resolve) == Some(true)
  }

  predicate EntryAccepted(links: Links, plan: Plan, allowed: set<string>, entry: RouteEntry, resolve: Resolver) {
    entry.condition.Some? ==>
      ConditionScoped(plan, allowed, entry.condition.value) && ConditionChecked(links, entry.condition.value, resolve)
  }

  predicate RouteAccepted(links: Links, plan: Plan, allowed: set<string>, entries: seq<RouteEntry>, resolve: Resolver) {
    forall k | 0 <= k < |entries| && !Settled(links, entries, resolve, k) ::
      EntryAccepted(links, plan, allowed, entries[k], resolve)
  }

  // `_check_route_conditions`: the first entry that is rejected.
  method CheckRoute(links: Links, plan: Plan, allowed: set<string>, entries: seq<RouteEntry>, resolve: Resolver)
    returns (offender: Option<nat>)
    ensures offender.None? <==> RouteAccepted(links, plan, allowed, entries, resolve)
    ensures offender.Some? ==>
              && offender.value < |entries| && !Settled(links, entries, resolve, offender.value)
              && !EntryAccepted(links, plan, allowed, entries[offender.value], resolve)
  {
    var decided := false;
    for k := 0 to |entries|
      invariant decided <==> Settled(links, entries, resolve, k)
      invariant forall j | 0 <= j < k && !Settled(links, entries, resolve, j) ::
                  EntryAccepted(links, plan, allowed, entries[j], resolve)
    {
      if decided || entries[k].condition.None? {
        continue;
      }
      var condition := entries[k].condition.value;
      if !ConditionScoped(plan, allowed, condition) || !ConditionChecked(links, condition, resolve) {
        return Some(k);
      }
      if Truth(links, condition, resolve) == Some(true) {
        assert EntryTruth(links, entries[k], resolve) == Some(true);
        decided := true;
      }
    }
    return None;
  }

  // ---- The plan -----------------------------------------------------------------------------------

  // The scope of an item repeat: the item's input and the records of its own two flows.
  function ItemScope(c: Catalog, plan: Plan, n: string): WorkflowScope {
    WorkflowScope(InputView(c, n, OPEN),
                  map m | m in ItemLocal(plan, n) && m in plan.flows :: FlowResult(c, plan.At(m)))
  }

  function RepeatResolver(c: Catalog, plan: Plan, n: string): Resolver {
    if plan.At(n).callable then WorkflowResolver(c.links, ItemScope(c, plan, n)) else BoundaryResolver(c, plan)
  }

  predicate RepeatChecked(c: Catalog, plan: Plan, n: string)
    requires plan.At(n).repeat.Some?
  {
    var repeat, resolve := plan.At(n).Repeating(), RepeatResolver(c, plan, n);
    && ConditionChecked(c.links, repeat.until, resolve)
    && (repeat.retryFlow.Some? && repeat.continueWhen.Some? ==>
        ConditionChecked(c.links, repeat.continueWhen.value, resolve))
  }

  predicate GuardsChecked(c: Catalog, flow: Flow) {
    forall k | 0 <= k < |flow.steps| && flow.steps[k].guard.Some? ::
      ConditionChecked(c.links, flow.steps[k].guard.value, FlowResolver(c.links, ScopeInside(c, flow)))
  }

  // The entries of a flow's conditional transition and review route.
  function TransitionEntries(flow: Flow): seq<RouteEntry> {
    if flow.transition.Some? && flow.transition.value.Conditional? then flow.transition.value.entries else []
  }

  function ReviewEntries(flow: Flow): seq<RouteEntry> {
    if flow.onUnresolved.Some? && flow.onUnresolved.value.ReviewConditional? then flow.onUnresolved.value.entries
    else []
  }

  function StartEntries(plan: Plan): seq<RouteEntry> {
    if plan.start.StartRoute? then plan.start.entries else []
  }

  predicate FlowConditionsAccepted(c: Catalog, plan: Plan, graph: FlowGraph, n: string) {
    var flow, resolve := plan.At(n), BoundaryResolver(c, plan);
    && GuardsChecked(c, flow)
    && (flow.repeat.Some? ==> RepeatScoped(plan, graph, n) && RepeatChecked(c, plan, n))
    && (!flow.callable ==>
          && RouteAccepted(c.links, plan, MayHaveRun(plan, graph, n), TransitionEntries(flow), resolve)
          && RouteAccepted(c.links, plan, MayHaveRun(plan, graph, n), ReviewEntries(flow), resolve))
  }

  // A start condition runs before any flow.
  predicate ConditionsAccepted(c: Catalog, plan: Plan, graph: FlowGraph) {
    && RouteAccepted(c.links, plan, {}, StartEntries(plan), BoundaryResolver(c, plan))
    && forall n | n in plan.flows :: FlowConditionsAccepted(c, plan, graph, n)
  }

  method CheckFlow(c: Catalog, plan: Plan, graph: FlowGraph, n: string) returns (accepted: bool)
    requires n in plan.flows
    ensures accepted <==> FlowConditionsAccepted(c, plan, graph, n)
  {
    var flow := plan.At(n);
    if !GuardsChecked(c, flow) || (flow.repeat.Some? && !(RepeatScoped(plan, graph, n) && RepeatChecked(c, plan, n))) {
      return false;
    }
    if flow.callable {
      return true;
    }
    var allowed, resolve := MayHaveRun(plan, graph, n), BoundaryResolver(c, plan);
    var forward := CheckRoute(c.links, plan, allowed, TransitionEntries(flow), resolve);
    var review := CheckRoute(c.links, plan, allowed, ReviewEntries(flow), resolve);
    return forward.None? && review.None?;
  }

  // The first flow with a rejected condition, "" for the start.
  method CheckConditions(c: Catalog, plan: Plan, graph: FlowGraph) returns (offender: Option<string>)
    requires Plans.Ordered(plan)
    ensures offender.None? <==> ConditionsAccepted(c, plan, graph)
  {
    var start := CheckRoute(c.links, plan, {}, StartEntries(plan), BoundaryResolver(c, plan));
    if start.Some? {
      return Some("");
    }
    for k := 0 to |plan.order|
      invariant forall n | n in plan.order[..k] :: n in plan.flows && FlowConditionsAccepted(c, plan, graph, n)
    {
      OrderStep(plan, k);
      var accepted := CheckFlow(c, plan, graph, plan.order[k]);
      if !accepted {
        return Some(plan.order[k]);
      }
    }
    assert plan.order[..|plan.order|] == plan.order;
    assert forall n | n in plan.flows :: n in plan.order;
    return None;
  }
}
