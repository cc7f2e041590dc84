/**
 A family of accepted plans: collections whose items run a repeated flow, whose retry flow
 runs the next collection, level below level.  Flow number j is linked to flow j - 1 only:
 an odd flow above the first collects it, an even one retries with it.
 */
module Towers {
  import opened Foundations
  import opened Json
  import opened Bindings
  import opened Conditions
  import opened Plans
  import opened TowerPlans
  import opened Graphs
  import opened WeightedLinks
  import opened Acceptance
  import opened GraphValidation
  import opened Availability
  import opened Pointers
  import opened StaticScopes
  import opened StaticResults
  import opened ConditionChecks

  // ---- It is authored ----------------------------------------------------------------------

  lemma TowerOrdered(until: Condition, top: int)
    requires Odd(top)
    ensures Plans.Ordered(TowerPlan(until, top))
  {
    var order := TowerOrder(top);
    forall n | n in TowerNames(top) ensures n in order {
      FloorName(n, top);
      assert order[Floor(n) - 1] == n;
    }
    forall n | n in order ensures n in TowerNames(top) {
      var k :| 0 <= k < |order| && order[k] == n;
      NameFloor(k + 1, top);
    }
    forall j, k | 0 <= j < k < |order| ensures order[j] != order[k] {
      ItemNames(j + 1, k + 1);
    }
  }

  lemma TowerFlowAuthored(until: Condition, top: int, j: int)
    requires AuthoredCondition(until) && 1 <= j <= top && Odd(top)
    ensures AuthoredFlow(TowerFlow(until, top, j))
    ensures ShortCondition(until) ==> ShortFlow(TowerFlow(until, top, j))
  {
    TowerStepAuthored(j);
  }

  lemma TowerStepAuthored(j: int)
    ensures AuthoredStep(TowerStep(j)) && ShortStep(TowerStep(j))
  {
    var step := TowerStep(j);
    if step.Collection? {
      ItemsFit(j - 1);
      var binding := Literal(Items(j - 1));
      assert step.Arguments() == [Named("items", binding)];
      assert Authored(binding) && Short(binding);
    } else {
      assert step.Arguments() == [];
    }
  }

  lemma TowerAuthored(until: Condition, top: int)
    requires AuthoredCondition(until) && Odd(top)
    ensures AuthoredPlan(TowerPlan(until, top))
    ensures ShortCondition(until) ==> ShortPlan(TowerPlan(until, top))
  {
    var plan := TowerPlan(until, top);
    TowerOrdered(until, top);
    forall n | n in plan.flows
      ensures n != "" && plan.At(n).name == n && AuthoredFlow(plan.At(n))
      ensures ShortCondition(until) ==> ShortFlow(plan.At(n))
    {
      FloorName(n, top);
      NameFloor(Floor(n), top);
      TowerFlowAuthored(until, top, Floor(n));
    }
  }

  // ---- Its graph is accepted -----------------------------------------------------------------

  function TowerLinks(j: int): seq<Link<string>> {
    if j <= 1 then [] else [Link(TowerName(j - 1), if Odd(j) then 1 else 0)]
  }

  lemma TowerFlowLinks(until: Condition, top: int, j: int)
    requires 1 <= j <= top && Odd(top)
    ensures FlowLinks(TowerFlow(until, top, j)) == TowerLinks(j)
  {
    var flow := TowerFlow(until, top, j);
    assert FlowTargets(flow) == if j == top then [ToOutcome(EndCompleted)] else [];
    assert FlowNames(FlowTargets(flow)) == [];
    assert RouteLinks(FlowNames(FlowTargets(flow))) == [];
    assert flow.steps[1..] == [];
    assert CollectionLinks(flow.steps) == if flow.steps[0].Collection? then CallLinks([TowerName(j - 1)]) else [];
  }

  lemma TowerLinkTo(until: Condition, top: int, a: string, b: string)
    requires Odd(top) && LinkTo(PlanLinks(TowerPlan(until, top)), a, b)
    ensures a in TowerNames(top) && Floor(a) > 1 && b == TowerName(Floor(a) - 1) && b in TowerNames(top)
  {
    FloorName(a, top);
    TowerFlowLinks(until, top, Floor(a));
    NameFloor(Floor(a) - 1, top);
  }

  lemma TowerNesting(depths: map<string, nat>, j: int)
    requires j > 1 ==> TowerName(j - 1) in depths && depths[TowerName(j - 1)] == (j - 2) / 2
    ensures j > 0 ==> Nesting(TowerLinks(j), depths) == (j - 1) / 2
  {
    if j > 1 {
      assert TowerLinks(j)[1..] == [];
    }
  }

  lemma TowerMeasured(until: Condition, top: int, n: string)
    requires Odd(top) && n in TowerNames(top)
    ensures Nesting(PlanLinks(TowerPlan(until, top))[n], TowerDepths(top)) == TowerDepths(top)[n]
  {
    FloorName(n, top);
    var j := Floor(n);
    TowerAt(until, top, j);
    TowerFlowLinks(until, top, j);
    if j > 1 {
      NameFloor(j - 1, top);
      assert TowerDepths(top)[TowerName(j - 1)] == (j - 2) / 2;
    }
    TowerNesting(TowerDepths(top), j);
  }

  lemma TowerTargets(until: Condition, top: int)
    requires Odd(top)
    ensures StartsKnown(TowerPlan(until, top)) && AllTargetsKnown(TowerPlan(until, top))
  {
    var plan := TowerPlan(until, top);
    TowerAt(until, top, top);
    forall n | n in plan.flows ensures TargetsKnown(plan, plan.At(n)) {
      FloorName(n, top);
      TowerTarget(until, top, Floor(n));
    }
  }

  lemma TowerTarget(until: Condition, top: int, j: int)
    requires 1 <= j <= top && Odd(top)
    ensures TargetsKnown(TowerPlan(until, top), TowerFlow(until, top, j))
  {
    var plan, flow := TowerPlan(until, top), TowerFlow(until, top, j);
    assert FlowTargets(flow) == if j == top then [ToOutcome(EndCompleted)] else [];
    assert FlowNames(FlowTargets(flow)) == [];
    if j > 1 {
      TowerAt(until, top, j - 1);
      assert Callable(plan, TowerName(j - 1));
    }
  }

  // The flow's own number tells which flow it retries with.
  lemma TowerHasRetry(until: Condition, top: int, n: string, retry: string)
    requires Odd(top) && HasRetry(TowerPlan(until, top), n, retry)
    ensures n in TowerNames(top) && !Odd(Floor(n)) && Floor(n) > 1 && retry == TowerName(Floor(n) - 1)
  {
    FloorName(n, top);
    TowerAt(until, top, Floor(n));
  }

  lemma TowerRetry(until: Condition, top: int, n: string)
    requires Odd(top) && n in TowerNames(top)
    ensures RetryKnown(TowerPlan(until, top), n)
  {
    FloorName(n, top);
    TowerAt(until, top, Floor(n));
    if Floor(n) % 2 == 0 {
      TowerAt(until, top, Floor(n) - 1);
      ItemNames(Floor(n), Floor(n) - 1);
    }
  }

  lemma TowerRetries(until: Condition, top: int)
    requires Odd(top)
    ensures RetriesKnown(TowerPlan(until, top))
  {
    var plan := TowerPlan(until, top);
    forall n | n in plan.flows ensures RetryKnown(plan, n) {
      TowerRetry(until, top, n);
    }
    forall m, n, retry | HasRetry(plan, m, retry) && HasRetry(plan, n, retry) ensures m == n {
      TowerHasRetry(until, top, m, retry);
      TowerHasRetry(until, top, n, retry);
      FloorName(m, top);
      FloorName(n, top);
      ItemNames(Floor(m) - 1, Floor(n) - 1);
    }
  }

  lemma TowerCertified(until: Condition, top: int)
    requires Odd(top) && top <= 2 * MAX_COLLECTION_DEPTH + 1
    ensures Certified(TowerPlan(until, top), TowerRank(top), TowerDepths(top))
  {
    var plan, rank, depths := TowerPlan(until, top), TowerRank(top), TowerDepths(top);
    TowerTargets(until, top);
    TowerRetries(until, top);
    forall a, b | a in rank && LinkTo(PlanLinks(plan), a, b) ensures b in rank && rank[b] < rank[a] {
      TowerLinkTo(until, top, a, b);
      NameFloor(Floor(a) - 1, top);
    }
    forall n | n in depths
      ensures n in PlanLinks(plan) && depths[n] == Nesting(PlanLinks(plan)[n], depths)
              && depths[n] <= MAX_COLLECTION_DEPTH
    {
      FloorName(n, top);
      TowerMeasured(until, top, n);
    }
  }

  lemma SoleLink(links: Links<string>, a: string, b: string, weight: nat)
    requires a in links && links[a] == [Link(b, weight)]
    ensures Edge(Plain(links), a, b)
  {
    assert links[a][0] in links[a];
    PlainEdge(links, a, b);
  }

  lemma LinksAt(plan: Plan, n: string, links: seq<Link<string>>)
    requires n in plan.flows && FlowLinks(plan.At(n)) == links
    ensures n in PlanLinks(plan) && PlanLinks(plan)[n] == links
  {
  }

  lemma TowerEdge(until: Condition, top: int, j: int)
    requires Odd(top) && 1 <= j < top
    ensures Edge(Plain(PlanLinks(TowerPlan(until, top))), TowerName(j + 1), TowerName(j))
  {
    TowerAt(until, top, j + 1);
    TowerFlowLinks(until, top, j + 1);
    LinksAt(TowerPlan(until, top), TowerName(j + 1), TowerLinks(j + 1));
    TowerLinked(PlanLinks(TowerPlan(until, top)), j);
  }

  lemma TowerLinked(links: Links<string>, j: int)
    requires j >= 1 && TowerName(j + 1) in links && links[TowerName(j + 1)] == TowerLinks(j + 1)
    ensures Edge(Plain(links), TowerName(j + 1), TowerName(j))
  {
    var weight := if Odd(j + 1) then 1 else 0;
    SoleLink(links, TowerName(j + 1), TowerName(j), weight);
  }

  lemma {:induction false} ChainReached(g: Graph<string>, roots: set<string>, top: int, j: int)
    requires TowerName(top) in roots && 1 <= j <= top
    requires forall i {:trigger TowerName(i)} | 1 <= i < top :: Edge(g, TowerName(i + 1), TowerName(i))
    ensures ReachFrom(g, roots, TowerName(j))
    decreases top - j
  {
    if j == top {
      FromRoot(g, roots, TowerName(top));
    } else {
      ChainReached(g, roots, top, j + 1);
      FromExtend(g, roots, TowerName(j + 1), TowerName(j));
    }
  }

  lemma TowerReached(until: Condition, top: int, j: int)
    requires Odd(top) && 1 <= j <= top
    ensures ReachFrom(Plain(PlanLinks(TowerPlan(until, top))), Roots(TowerPlan(until, top)), TowerName(j))
  {
    var g, roots := Plain(PlanLinks(TowerPlan(until, top))), Roots(TowerPlan(until, top));
    forall i {:trigger TowerName(i)} | 1 <= i < top ensures Edge(g, TowerName(i + 1), TowerName(i)) {
      TowerEdge(until, top, i);
    }
    assert TowerName(top) in StartCandidates(TowerPlan(until, top).start);
    ChainReached(g, roots, top, j);
  }

  lemma TowerAcceptable(until: Condition, top: int)
    requires Odd(top) && top <= 2 * MAX_COLLECTION_DEPTH + 1
    ensures Acceptable(TowerPlan(until, top))
  {
    var plan := TowerPlan(until, top);
    TowerCertified(until, top);
    forall n | n in plan.flows ensures ReachFrom(Plain(PlanLinks(plan)), Roots(plan), n) {
      FloorName(n, top);
      TowerReached(until, top, Floor(n));
    }
    CertifiedIsAcceptable(plan, PlanLinks(plan), TowerRank(top), TowerDepths(top));
  }

  // ---- Its conditions are accepted --------------------------------------------------------------

  // A workflow without schemas.
  const NO_SCHEMAS := Catalog(map[], ANYTHING, map[], map[])

  // A condition an item repeat may carry in such a workflow: it reads nothing but the payload
  // and asks for no type.
  ghost predicate Admitted(until: Condition) {
    && AuthoredCondition(until)
    && (forall p | p in ConditionPointers(until) :: Heads(Tokens(p), "payload"))
    && forall scope: WorkflowScope {:trigger WorkflowResolver(map[], scope)} | scope.payload == ANYTHING ::
      ConditionChecked(map[], until, WorkflowResolver(map[], scope))
  }

  lemma NeverAdmitted()
    ensures Admitted(NEVER) && ShortCondition(NEVER)
  {
    forall scope: WorkflowScope | scope.payload == ANYTHING
      ensures ConditionChecked(map[], NEVER, WorkflowResolver(map[], scope))
    {
      assert LeafChecked(map[], Literal(Null), Operator.Present(true), WorkflowResolver(map[], scope));
    }
  }

  // A pointer into an undeclared payload is never called impossible.
  lemma PayloadAdmitted(pointer: string, expected: bool)
    requires WellFormed(pointer) && Heads(Tokens(pointer), "payload")
    ensures Admitted(Leaf(Pointer(pointer, None), Operator.Present(expected)))
  {
    var source := Pointer(pointer, None);
    assert PointersOf(source) == [pointer];
    forall scope: WorkflowScope | scope.payload == ANYTHING
      ensures ConditionChecked(map[], Leaf(source, Operator.Present(expected)), WorkflowResolver(map[], scope))
    {
      OpenPath(map[], Tokens(pointer)[1..]);
      assert LeafChecked(map[], source, Operator.Present(expected), WorkflowResolver(map[], scope));
    }
  }

  lemma TowerScoped(until: Condition, top: int, j: int)
    requires 1 <= j <= top && Admitted(until)
    ensures ItemScoped(TowerPlan(until, top), TowerName(j), until)
  {
  }

  // Nothing in the plan reads a record, so every boundary check passes.
  lemma TowerBindings(until: Condition, top: int, graph: FlowGraph)
    requires Odd(top) && Admitted(until)
    ensures PlanAccepted(TowerPlan(until, top), graph)
  {
    var plan := TowerPlan(until, top);
    forall n | n in plan.flows ensures FlowAccepted(plan, graph, n) {
      FloorName(n, top);
      TowerScoped(until, top, Floor(n));
    }
  }

  lemma TowerFlowConditions(until: Condition, top: int, graph: FlowGraph, j: int)
    requires Odd(top) && 1 <= j <= top && Admitted(until)
    ensures TowerName(j) in TowerPlan(until, top).flows
    ensures FlowConditionsAccepted(NO_SCHEMAS, TowerPlan(until, top), graph, TowerName(j))
  {
    TowerAt(until, top, j);
    TowerScoped(until, top, j);
    if j % 2 == 0 {
      var scope := ItemScope(NO_SCHEMAS, TowerPlan(until, top), TowerName(j));
      assert ConditionChecked(map[], until, WorkflowResolver(map[], scope));
    }
  }

  lemma TowerConditions(until: Condition, top: int, graph: FlowGraph)
    requires Odd(top) && Admitted(until)
    ensures ConditionsAccepted(NO_SCHEMAS, TowerPlan(until, top), graph)
  {
    var plan := TowerPlan(until, top);
    forall n | n in plan.flows ensures FlowConditionsAccepted(NO_SCHEMAS, plan, graph, n) {
      FloorName(n, top);
      TowerFlowConditions(until, top, graph, Floor(n));
    }
  }

  // ---- It compiles ---------------------------------------------------------------------------

  // What the compiler checks of a plan without schemas: its repeats, its graph, its bindings,
  // and the scopes and types of its conditions.
  ghost predicate Compiles(plan: Plan, rank: map<string, nat>, depths: map<string, nat>) {
    && AuthoredPlan(plan) && RepeatsAcceptable(plan) && Acceptable(plan) && Certified(plan, rank, depths)
    && forall graph {:trigger PlanAccepted(plan, graph)} | Exact(plan, graph) ::
      PlanAccepted(plan, graph) && ConditionsAccepted(NO_SCHEMAS, plan, graph)
  }

  // No retry input is overridden.
  lemma TowerRepeatShape(plan: Plan, n: string)
    requires n in plan.flows
    requires plan.At(n).repeat.Some? ==> plan.At(n).Repeating().retryInput == []
    ensures RepeatShape(plan, n)
  {
  }

  lemma TowerRepeats(until: Condition, top: int)
    requires Odd(top)
    ensures RepeatsAcceptable(TowerPlan(until, top))
  {
    var plan := TowerPlan(until, top);
    TowerRetries(until, top);
    forall n | n in plan.flows ensures RepeatShape(plan, n) {
      TowerRepeatShape(plan, n);
    }
  }

  lemma TowerCompiles(until: Condition, top: int)
    requires Admitted(until) && Odd(top) && top <= 2 * MAX_COLLECTION_DEPTH + 1
    ensures Compiles(TowerPlan(until, top), TowerRank(top), TowerDepths(top))
  {
    var plan := TowerPlan(until, top);
    TowerAuthored(until, top);
    TowerAcceptable(until, top);
    TowerCertified(until, top);
    TowerRepeats(until, top);
    forall graph | Exact(plan, graph)
      ensures PlanAccepted(plan, graph) && ConditionsAccepted(NO_SCHEMAS, plan, graph)
    {
      TowerBindings(until, top, graph);
      TowerConditions(until, top, graph);
    }
  }

  lemma CompiledIsCertified(plan: Plan, rank: map<string, nat>, depths: map<string, nat>)
    requires Compiles(plan, rank, depths)
    ensures AuthoredPlan(plan) && Certified(plan, rank, depths)
  {
  }

  lemma TowerSound(until: Condition, top: int)
    requires Admitted(until) && ShortCondition(until)
    requires Odd(top) && top <= 2 * MAX_COLLECTION_DEPTH + 1
    ensures Compiles(TowerPlan(until, top), TowerRank(top), TowerDepths(top)) && ShortPlan(TowerPlan(until, top))
  {
    TowerCompiles(until, top);
    TowerAuthored(until, top);
  }
}
