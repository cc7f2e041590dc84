/** The smallest routed plans: a flow of one operation that leads to another, which ends the run. */
module FlowRows {
  import opened Foundations
  import opened Json
  import opened Pointers
  import opened Bindings
  import opened Plans
  import opened Graphs
  import opened WeightedLinks
  import opened Dominators
  import opened Acceptance
  import opened GraphValidation
  import opened Availability
  import opened Trails

  // A routed flow of one operation and one way on.
  predicate Simple(flow: Flow, target: Target) {
    && flow.transition == Some(Direct(target)) && flow.onUnresolved.None? && !flow.callable && flow.repeat.None?
    && |flow.steps| == 1 && flow.Step(0).Operation?
  }

  predicate Row(plan: Plan, first: Flow, second: Flow) {
    && first.name != second.name && plan.order == [first.name, second.name]
    && plan.flows == map[first.name := first, second.name := second] && plan.start == StartFlow(first.name)
    && Simple(first, ToFlow(second.name)) && Simple(second, ToOutcome(EndCompleted))
  }

  lemma SimpleLinks(flow: Flow, target: Target)
    requires Simple(flow, target)
    ensures FlowTargets(flow) == [target] && FlowLinks(flow) == LinksOf(target)
    ensures FlowNames(FlowTargets(flow)) == NamesOf(target)
  {
    assert FlowTargets(flow) == [target] + [];
    assert FlowNames([target]) == NamesOf(target) + FlowNames([]);
    assert CollectionLinks(flow.steps) == [] + CollectionLinks(flow.steps[1..]) == [];
    assert RouteLinks(NamesOf(target)) == LinksOf(target);
  }

  function NamesOf(target: Target): seq<string> {
    if target.ToFlow? then [target.flow] else []
  }

  function LinksOf(target: Target): seq<Link<string>> {
    if target.ToFlow? then [Link(target.flow, 0)] else []
  }

  // The one link of the plan and its one route.
  predicate Single<T(==)>(links: map<string, seq<T>>, first: Flow, second: Flow, link: T) {
    && links.Keys == {first.name, second.name}
    && (first.name in links ==> links[first.name] == [link]) && (second.name in links ==> links[second.name] == [])
  }

  lemma RowMembers(plan: Plan, first: Flow, second: Flow)
    requires Row(plan, first, second)
    ensures plan.flows.Keys == {first.name, second.name}
    ensures plan.At(first.name) == first && plan.At(second.name) == second
  {
  }

  lemma RowLinks(plan: Plan, first: Flow, second: Flow)
    requires Row(plan, first, second)
    ensures Single(PlanLinks(plan), first, second, Link(second.name, 0))
  {
    SimpleLinks(first, ToFlow(second.name));
    SimpleLinks(second, ToOutcome(EndCompleted));
    RowMembers(plan, first, second);
  }

  lemma RowRoutes(plan: Plan, first: Flow, second: Flow)
    requires Row(plan, first, second)
    ensures Single(Routes(plan), first, second, second.name)
  {
    SimpleLinks(first, ToFlow(second.name));
    SimpleLinks(second, ToOutcome(EndCompleted));
    RowMembers(plan, first, second);
  }

  lemma RowTargets(plan: Plan, first: Flow, second: Flow)
    requires Row(plan, first, second)
    ensures StartsKnown(plan) && AllTargetsKnown(plan) && RetriesKnown(plan)
  {
    SimpleLinks(first, ToFlow(second.name));
    SimpleLinks(second, ToOutcome(EndCompleted));
    RowMembers(plan, first, second);
  }

  function RowRank(first: Flow, second: Flow): map<string, nat> {
    map[first.name := 1, second.name := 0]
  }

  function RowDepths(first: Flow, second: Flow): map<string, nat> {
    map[first.name := 0, second.name := 0]
  }

  lemma RowMeasured(links: Links<string>, first: Flow, second: Flow)
    requires Single(links, first, second, Link(second.name, 0)) && first.name != second.name
    ensures Ranked(links, RowRank(first, second)) && Measured(links, RowDepths(first, second))
    ensures Edge(Plain(links), first.name, second.name)
  {
    assert links[first.name][1..] == [];
    assert Link(second.name, 0) in links[first.name];
    PlainEdge(links, first.name, second.name);
  }

  lemma RowKeys(first: Flow, second: Flow)
    ensures RowRank(first, second).Keys == {first.name, second.name} == RowDepths(first, second).Keys
    ensures forall n | n in RowDepths(first, second) :: RowDepths(first, second)[n] == 0
  {
  }

  lemma RowCertified(plan: Plan, first: Flow, second: Flow)
    requires Row(plan, first, second)
    ensures Certified(plan, RowRank(first, second), RowDepths(first, second))
  {
    RowTargets(plan, first, second);
    RowLinks(plan, first, second);
    RowMeasured(PlanLinks(plan), first, second);
    RowKeys(first, second);
    RowMembers(plan, first, second);
  }

  lemma RowReached(links: Links<string>, roots: set<string>, first: Flow, second: Flow)
    requires Single(links, first, second, Link(second.name, 0)) && first.name != second.name && first.name in roots
    ensures forall n | n in links :: ReachFrom(Plain(links), roots, n)
  {
    RowMeasured(links, first, second);
    FromRoot(Plain(links), roots, first.name);
    FromExtend(Plain(links), roots, first.name, second.name);
  }

  lemma RowAcceptable(plan: Plan, first: Flow, second: Flow)
    requires Row(plan, first, second)
    ensures Acceptable(plan)
  {
    RowCertified(plan, first, second);
    RowLinks(plan, first, second);
    assert first.name in StartCandidates(plan.start);
    RowReached(PlanLinks(plan), Roots(plan), first, second);
    CertifiedIsAcceptable(plan, PlanLinks(plan), RowRank(first, second), RowDepths(first, second));
  }

  lemma SimpleAuthored(flow: Flow, target: Target)
    requires Simple(flow, target) && AuthoredPairs(flow.Step(0).Arguments()) && flow.Step(0).guard.None?
    requires AuthoredPairs(flow.input) && (flow.output.None? || Authored(flow.output.value))
    ensures AuthoredFlow(flow)
  {
  }

  lemma RowAuthored(plan: Plan, first: Flow, second: Flow)
    requires Row(plan, first, second) && AuthoredFlow(first) && AuthoredFlow(second) && plan.output.None?
    requires first.name != "" && second.name != ""
    ensures AuthoredPlan(plan) && RepeatsAcceptable(plan)
  {
    RowTargets(plan, first, second);
    RowMembers(plan, first, second);
    assert plan.order[0] == first.name && plan.order[1] == second.name;
  }

  lemma RowEntry(g: Graph<string>, starts: set<string>, first: Flow, second: Flow)
    requires Single(g, first, second, second.name) && first.name != second.name && starts == {first.name}
    ensures OnEveryEntryPath(g, starts, first.name, second.name) && Beyond(g, first.name, second.name)
  {
    forall p | EntryPath(g, starts, p, second.name) ensures first.name in p {
      assert p[0] == first.name;
    }
    assert g[first.name][0] == second.name;
    ReachSelf(g, second.name);
    assert Edge(g, first.name, second.name);
  }

  // The first flow has run before the second.
  lemma RowBefore(plan: Plan, graph: FlowGraph, first: Flow, second: Flow)
    requires Row(plan, first, second) && Exact(plan, graph)
    ensures first.name in Before(plan, graph, second.name)
    ensures second.name in graph.ancestors && first.name in graph.ancestors[second.name]
  {
    RowRoutes(plan, first, second);
    assert Roots(plan) == {first.name};
    RowEntry(Routes(plan), Roots(plan), first, second);
  }

  // And only the first flow has completed before it.
  lemma RowCompleted(plan: Plan, graph: FlowGraph, first: Flow, second: Flow)
    requires Row(plan, first, second) && Exact(plan, graph)
    ensures forall n :: CompletedBefore(plan, graph, second.name, n) <==> n == first.name
  {
    RowBefore(plan, graph, first, second);
    RowMembers(plan, first, second);
    assert UnresolvedTargets(first) == [];
  }

  // A step that binds nothing.
  predicate Bare(step: Step) {
    step.Arguments() == [] && step.guard.None?
  }

  lemma RowAccepted(plan: Plan, graph: FlowGraph, first: Flow, second: Flow)
    requires Row(plan, first, second) && plan.output.None? && Bare(first.Step(0)) && Bare(second.Step(0))
    requires OutputAccepted(first) && OutputAccepted(second)
    requires RequiredAll(AtBoundary(plan, Before(plan, graph, first.name)), first.input)
    requires RequiredAll(AtBoundary(plan, Before(plan, graph, second.name)), second.input)
    ensures PlanAccepted(plan, graph)
  {
    RowMembers(plan, first, second);
    BareAccepted(first);
    BareAccepted(second);
  }

  lemma BareAccepted(flow: Flow)
    requires |flow.steps| == 1 && Bare(flow.Step(0))
    ensures StepsAccepted(flow.steps)
  {
    assert flow.steps[0] == flow.Step(0);
  }

  lemma OutputKnown(flow: Flow, pointer: string, default: Json)
    requires flow.output == Some(Pointer(pointer, Some(default))) && |flow.steps| == 1
    requires Heads(Tokens(pointer), "steps") && Second(Tokens(pointer)) == flow.Step(0).name
    ensures OutputAccepted(flow)
  {
    assert flow.steps[0] == flow.Step(0);
  }

  lemma ResultAvailable(plan: Plan, n: string, pairs: seq<Named>, pointer: string, available: set<string>)
    requires |pairs| == 1 && pairs[0].binding == Pointer(pointer, None) && Routed(plan, n) && n in available
    requires Heads(Tokens(pointer), "flows") && Second(Tokens(pointer)) == n
             && Heads(After(Tokens(pointer), 2), "result")
    ensures RequiredAll(AtBoundary(plan, available), pairs)
  {
    assert Tokens(pointer)[2] == After(Tokens(pointer), 2)[0];
  }

  lemma OnlyFirst(plan: Plan, graph: FlowGraph, first: Flow, second: Flow, completed: set<string>)
    requires Row(plan, first, second) && Exact(plan, graph)
    requires forall n :: n in completed <==> CompletedBefore(plan, graph, second.name, n)
    ensures completed == {first.name}
  {
    RowCompleted(plan, graph, first, second);
  }
}
