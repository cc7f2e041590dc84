/** What graph validation accepts: the links between flows and their declarative meaning. */
module Acceptance {
  import opened Foundations
  import opened Graphs
  import opened WeightedLinks
  import opened Plans

  // ---- Links of one flow -------------------------------------------------------

  function RouteLinks(names: seq<string>): seq<Link<string>> {
    seq(|names|, k requires 0 <= k < |names| => Link(names[k], 0))
  }

  function CallLinks(names: seq<string>): seq<Link<string>> {
    seq(|names|, k requires 0 <= k < |names| => Link(names[k], 1))
  }

  function CollectionLinks(steps: seq<Step>): seq<Link<string>> {
    if steps == [] then []
    else (if steps[0].Collection? then CallLinks(steps[0].flows) else []) + CollectionLinks(steps[1..])
  }

  function RetryLinks(flow: Flow): seq<Link<string>> {
    if flow.repeat.Some? && flow.Repeating().retryFlow.Some?
    then [Link(flow.Repeating().retryFlow.value, 0)] else []
  }

  // A retry flow runs at the level of its owner: it adds no collection nesting.
  function FlowLinks(flow: Flow): seq<Link<string>> {
    RouteLinks(FlowNames(FlowTargets(flow))) + CollectionLinks(flow.steps) + RetryLinks(flow)
  }

  function PlanLinks(plan: Plan): Links<string> {
    map n | n in plan.flows :: FlowLinks(plan.At(n))
  }

  // The routed successors of each flow: transitions and review routes.
  function Routes(plan: Plan): Graph<string> {
    map n | n in plan.flows && !plan.At(n).callable :: FlowNames(FlowTargets(plan.At(n)))
  }

  lemma RouteLink(flow: Flow, n: string)
    requires n in FlowNames(FlowTargets(flow))
    ensures Link(n, 0) in FlowLinks(flow)
  {
    var names := FlowNames(FlowTargets(flow));
    var k :| 0 <= k < |names| && names[k] == n;
    assert RouteLinks(names)[k] == Link(n, 0);
  }

  lemma {:induction false} CollectionLink(steps: seq<Step>, k: nat, n: string)
    requires k < |steps| && steps[k].Collection? && n in steps[k].flows
    ensures Link(n, 1) in CollectionLinks(steps)
  {
    if k == 0 {
      var j :| 0 <= j < |steps[0].flows| && steps[0].flows[j] == n;
      assert CallLinks(steps[0].flows)[j] == Link(n, 1);
    } else {
      CollectionLink(steps[1..], k - 1, n);
    }
  }

  lemma PlanLink(plan: Plan, a: string, l: Link<string>)
    requires a in plan.flows && l in FlowLinks(plan.At(a))
    ensures LinkTo(PlanLinks(plan), a, l.target)
  {
  }

  // ---- Known targets ---------------------------------------------------------------

  predicate Routed(plan: Plan, n: string) {
    n in plan.flows && !plan.At(n).callable
  }

  predicate Callable(plan: Plan, n: string) {
    n in plan.flows && plan.At(n).callable
  }

  predicate StartsKnown(plan: Plan) {
    forall n | n in StartCandidates(plan.start) :: Routed(plan, n)
  }

  // A run that needs review must not be reported as completed.
  predicate ReviewNeverCompletes(flow: Flow) {
    forall t | t in UnresolvedTargets(flow) :: t != ToOutcome(EndCompleted)
  }

  predicate TargetsKnown(plan: Plan, flow: Flow) {
    && ReviewNeverCompletes(flow)
    && (forall n | n in FlowNames(FlowTargets(flow)) :: Routed(plan, n))
    && (forall k | 0 <= k < |flow.steps| && flow.steps[k].Collection? ::
          forall n | n in flow.steps[k].flows :: Callable(plan, n))
  }

  predicate AllTargetsKnown(plan: Plan) {
    forall n | n in plan.flows :: TargetsKnown(plan, plan.At(n))
  }

  // A retry flow is another callable flow without a repeat of its own, and serves
  // one owner.
  predicate RetryKnown(plan: Plan, n: string) {
    var repeat := plan.At(n).repeat;
    repeat.Some? && repeat.value.retryFlow.Some? ==>
      var retry := repeat.value.retryFlow.value;
      Callable(plan, retry) && retry != n && plan.At(retry).repeat.None?
  }

  predicate HasRetry(plan: Plan, n: string, retry: string) {
    n in plan.flows && plan.At(n).repeat.Some? && plan.At(n).Repeating().retryFlow == Some(retry)
  }

  ghost predicate RetriesKnown(plan: Plan) {
    && (forall n | n in plan.flows :: RetryKnown(plan, n))
    && forall m, n, retry :: HasRetry(plan, m, retry) && HasRetry(plan, n, retry) ==> m == n
  }

  // ---- The accepted graph --------------------------------------------------------------

  ghost function Roots(plan: Plan): set<string> {
    Members(StartCandidates(plan.start))
  }

  // The declarative meaning of an accepted plan graph.
  ghost predicate Acceptable(plan: Plan) {
    && StartsKnown(plan)
    && AllTargetsKnown(plan)
    && RetriesKnown(plan)
    && Acyclic(PlanLinks(plan), Roots(plan))
    && Shallow(PlanLinks(plan), Roots(plan), MAX_COLLECTION_DEPTH)
    && forall n | n in plan.flows :: ReachFrom(Plain(PlanLinks(plan)), Roots(plan), n)
  }

  // The same, with the certificates the depth-first pass leaves behind.
  ghost predicate Certified(plan: Plan, rank: map<string, nat>, depths: map<string, nat>) {
    && StartsKnown(plan) && AllTargetsKnown(plan) && RetriesKnown(plan)
    && rank.Keys == depths.Keys == plan.flows.Keys
    && Ranked(PlanLinks(plan), rank)
    && Measured(PlanLinks(plan), depths)
    && forall n | n in depths :: depths[n] <= MAX_COLLECTION_DEPTH
  }

  // What the certificates say about one link.
  lemma LinkFalls(plan: Plan, rank: map<string, nat>, depths: map<string, nat>, a: string, l: Link<string>)
    requires rank.Keys == depths.Keys && Ranked(PlanLinks(plan), rank) && Measured(PlanLinks(plan), depths)
    requires a in plan.flows && a in rank && l in FlowLinks(plan.At(a))
    ensures l.target in rank && rank[l.target] < rank[a] && depths[l.target] + l.weight <= depths[a]
  {
    var links := FlowLinks(plan.At(a));
    PlanLink(plan, a, l);
    assert LinkTo(PlanLinks(plan), a, l.target);
    var j :| 0 <= j < |links| && links[j] == l;
    NestingBounds(links, depths, j);
  }

  lemma RouteFalls(plan: Plan, rank: map<string, nat>, depths: map<string, nat>, a: string, n: string)
    requires Certified(plan, rank, depths) && a in plan.flows && n in FlowNames(FlowTargets(plan.At(a)))
    ensures Routed(plan, n) && rank[n] < rank[a]
  {
    assert TargetsKnown(plan, plan.At(a));
    RouteLink(plan.At(a), n);
    LinkFalls(plan, rank, depths, a, Link(n, 0));
  }

  lemma CallFalls(plan: Plan, rank: map<string, nat>, depths: map<string, nat>, a: string, k: nat, n: string)
    requires Certified(plan, rank, depths) && a in plan.flows && k < |plan.At(a).steps|
    requires plan.At(a).steps[k].Collection? && n in plan.At(a).steps[k].flows
    ensures Callable(plan, n) && rank[n] < rank[a] && depths[n] + 1 <= depths[a]
  {
    assert TargetsKnown(plan, plan.At(a));
    CollectionLink(plan.At(a).steps, k, n);
    LinkFalls(plan, rank, depths, a, Link(n, 1));
  }

  lemma RetryFalls(plan: Plan, rank: map<string, nat>, depths: map<string, nat>, a: string, n: string)
    requires Certified(plan, rank, depths) && HasRetry(plan, a, n)
    ensures Callable(plan, n) && n != a && plan.At(n).repeat.None?
    ensures rank[n] < rank[a] && depths[n] <= depths[a]
  {
    assert RetryKnown(plan, a);
    LinkFalls(plan, rank, depths, a, Link(n, 0));
  }

  lemma LinksHaveFlows(plan: Plan)
    ensures PlanLinks(plan).Keys == plan.flows.Keys
  {
  }

  // Certificates and a path to every flow make a plan acceptable.
  lemma CertifiedIsAcceptable(plan: Plan, links: Links<string>, rank: map<string, nat>, depths: map<string, nat>)
    requires Certified(plan, rank, depths) && links == PlanLinks(plan)
    requires forall n | n in plan.flows :: ReachFrom(Plain(links), Roots(plan), n)
    ensures Acceptable(plan)
  {
    LinksHaveFlows(plan);
    RankedIsAcyclic(links, rank, Roots(plan));
    MeasuredIsShallow(links, rank, depths, Roots(plan), MAX_COLLECTION_DEPTH);
  }

  // ---- Links and ranks ------------------------------------------------------------------

  function Rank(rank: map<string, nat>, n: string): nat {
    if n in rank then rank[n] else 0
  }

  predicate CallsAt(plan: Plan, a: string, k: nat, n: string) {
    a in plan.flows && n in plan.At(a).Step(k).Targets()
  }

  predicate RoutesTo(plan: Plan, a: string, n: string) {
    a in plan.flows && n in FlowNames(FlowTargets(plan.At(a)))
  }

  // What later checks use of the routed graph.
  datatype FlowGraph = FlowGraph(
    dominators: map<string, set<string>>,
    ancestors: map<string, set<string>>,
    successors: Graph<string>)
}
