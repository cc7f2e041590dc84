/** The compiler's graph validation as it is written, against its declarative meaning. */
module GraphValidation {
  import opened Foundations
  import opened Bindings
  import opened Pointers
  import opened Graphs
  import opened DepthFirst
  import opened WeightedLinks
  import Dominators
  import opened Plans
  import opened Acceptance

  // ---- Repeats -------------------------------------------------------------------

  // The keys retry_input may override; None when a callable's input is open.
  function OverridableKeys(flow: Flow): Option<set<string>> {
    if flow.callable then flow.declaredInput
    else Some(set k | 0 <= k < |flow.input| :: flow.input[k].name)
  }

  predicate ReadsForeignCallable(plan: Plan, n: string, pointer: string) {
    var tokens := Tokens(pointer);
    |tokens| > 1 && tokens[0] == "flows" && tokens[1] != n && Callable(plan, tokens[1])
  }

  predicate RepeatShape(plan: Plan, n: string) {
    var flow := plan.At(n);
    flow.repeat.Some? ==>
      var repeat := flow.Repeating();
      && (OverridableKeys(flow).Some? ==>
            forall k | 0 <= k < |repeat.retryInput| :: repeat.retryInput[k].name in OverridableKeys(flow).value)
      && (repeat.retryFlow.None? ==>
            forall p | p in PairPointers(repeat.retryInput) :: !ReadsForeignCallable(plan, n, p))
  }

  ghost predicate RepeatsAcceptable(plan: Plan) {
    (forall n | n in plan.flows :: RepeatShape(plan, n)) && RetriesKnown(plan)
  }

  // The owners collected so far: exactly the retry flows of the flows checked.
  ghost predicate Collected(plan: Plan, checked: seq<string>, owners: map<string, string>) {
    && (forall n | n in checked :: n in plan.flows && RepeatShape(plan, n) && RetryKnown(plan, n))
    && (forall r | r in owners :: owners[r] in checked && HasRetry(plan, owners[r], r))
    && (forall n, r {:trigger HasRetry(plan, n, r)} | n in checked && HasRetry(plan, n, r) ::
        r in owners && owners[r] == n)
  }

  lemma CollectedAll(plan: Plan, owners: map<string, string>)
    requires Ordered(plan)
    requires Collected(plan, plan.order, owners)
    ensures RepeatsAcceptable(plan)
    ensures forall n, r :: r in owners && owners[r] == n <==> HasRetry(plan, n, r)
  {
    forall n | n in plan.flows ensures n in plan.order {
    }
    forall m, n, r | HasRetry(plan, m, r) && HasRetry(plan, n, r) ensures m == n {
      assert m in plan.order && n in plan.order;
    }
  }

  lemma CollectedStep(plan: Plan, checked: seq<string>, owners: map<string, string>, n: string)
    requires Collected(plan, checked, owners) && n in plan.flows && RepeatShape(plan, n) && RetryKnown(plan, n)
    ensures (forall r :: !HasRetry(plan, n, r)) ==> Collected(plan, checked + [n], owners)
    ensures forall r | HasRetry(plan, n, r) && r !in owners :: Collected(plan, checked + [n], owners[r := n])
  {
    var more := checked + [n];
    assert forall m :: m in more <==> m in checked || m == n;
    forall r | HasRetry(plan, n, r) && r !in owners ensures Collected(plan, more, owners[r := n]) {
    }
  }

  lemma SecondOwner(plan: Plan, checked: seq<string>, owners: map<string, string>, n: string, retry: string)
    requires Collected(plan, checked, owners) && n !in checked && HasRetry(plan, n, retry) && retry in owners
    ensures !RepeatsAcceptable(plan)
  {
    assert HasRetry(plan, owners[retry], retry);
  }

  // `_validate_repeats`: the single owner of every retry flow, or the first offender.
  method ValidateRepeats(plan: Plan) returns (r: Result<map<string, string>, string>)
    requires Ordered(plan)
    ensures r.Ok? <==> RepeatsAcceptable(plan)
    ensures r.Ok? ==> forall n, retry :: retry in r.value && r.value[retry] == n <==> HasRetry(plan, n, retry)
  {
    var owners: map<string, string> := map[];
    for k := 0 to |plan.order|
      invariant Collected(plan, plan.order[..k], owners)
    {
      var n := plan.order[k];
      OrderStep(plan, k);
      if !RepeatShape(plan, n) || !RetryKnown(plan, n) {
        return Err(n);
      }
      CollectedStep(plan, plan.order[..k], owners, n);
      var repeat := plan.At(n).repeat;
      if repeat.Some? && repeat.value.retryFlow.Some? {
        var retry := repeat.value.retryFlow.value;
        assert HasRetry(plan, n, retry);
        if retry in owners {
          SecondOwner(plan, plan.order[..k], owners, n, retry);
          return Err(n);
        }
        owners := owners[retry := n];
      }
    }
    assert plan.order[..|plan.order|] == plan.order;
    CollectedAll(plan, owners);
    return Ok(owners);
  }

  // ---- The graph -----------------------------------------------------------------------

  datatype GraphError =
    | MissingStart(flow: string)
    | InvalidTargets(flow: string)  // review_completes_run, missing_flow, invalid_routed_flow, invalid_callable_flow
    | LoopingReview(flow: string)   // invalid_default_review_route, review_route_to_self
    | WorkflowCycle(path: seq<string>)
    | CollectionDepthExceeded(flow: string, depth: nat)
    | UnreachableFlow(flow: string)

  // The graph facts later validation and the run-time theorems build on: dominators
  // are the flows on every entry path, ancestors the flows that can lead to a flow.
  ghost predicate Exact(plan: Plan, graph: FlowGraph) {
    && graph.successors == Routes(plan)
    && Dominators.Analysed(Routes(plan), Roots(plan), graph.dominators, graph.ancestors)
  }

  lemma LinksClosed(plan: Plan)
    requires StartsKnown(plan) && AllTargetsKnown(plan) && RetriesKnown(plan)
    ensures ClosedLinks(PlanLinks(plan), Roots(plan))
  {
    forall a, b {:trigger LinkTo(PlanLinks(plan), a, b)} | LinkTo(PlanLinks(plan), a, b) ensures b in plan.flows {
      var l :| l in FlowLinks(plan.At(a)) && l.target == b;
      LinkTarget(plan, a, l);
    }
  }

  lemma LinkTarget(plan: Plan, a: string, l: Link<string>)
    requires a in plan.flows && TargetsKnown(plan, plan.At(a)) && RetryKnown(plan, a)
    requires l in FlowLinks(plan.At(a))
    ensures l.target in plan.flows
    ensures Routed(plan, l.target) ==> l.target in FlowNames(FlowTargets(plan.At(a)))
  {
    var flow := plan.At(a);
    if l in RouteLinks(FlowNames(FlowTargets(flow))) {
      var names := FlowNames(FlowTargets(flow));
      var k :| 0 <= k < |names| && RouteLinks(names)[k] == l;
      assert names[k] in names;
    } else if l in CollectionLinks(flow.steps) {
      var k := CollectionTarget(flow.steps, l);
    }
  }

  lemma {:induction false} CollectionTarget(steps: seq<Step>, l: Link<string>) returns (k: nat)
    requires l in CollectionLinks(steps)
    ensures k < |steps| && steps[k].Collection? && l.target in steps[k].flows
  {
    if steps[0].Collection? && l in CallLinks(steps[0].flows) {
      k := 0;
      var j :| 0 <= j < |steps[0].flows| && CallLinks(steps[0].flows)[j] == l;
      assert steps[0].flows[j] == l.target;
    } else {
      k := CollectionTarget(steps[1..], l);
      k := k + 1;
    }
  }

  // ---- Routed flows are reached through routes --------------------------------------------

  lemma RouteOrigin(plan: Plan, a: string, b: string)
    requires AuthoredPlan(plan) && AllTargetsKnown(plan) && RetriesKnown(plan)
    requires LinkTo(PlanLinks(plan), a, b) && Routed(plan, b)
    ensures Edge(Routes(plan), a, b)
  {
    var l :| l in FlowLinks(plan.At(a)) && l.target == b;
    LinkTarget(plan, a, l);
    assert AuthoredFlow(plan.At(a));
  }

  lemma RoutedReach(plan: Plan, n: string)
    requires AuthoredPlan(plan) && StartsKnown(plan) && AllTargetsKnown(plan) && RetriesKnown(plan)
    requires ReachFrom(Plain(PlanLinks(plan)), Roots(plan), n) && Routed(plan, n)
    ensures ReachFrom(Routes(plan), Roots(plan), n)
  {
    var g, h := Plain(PlanLinks(plan)), Routes(plan);
    var r :| r in Roots(plan) && Reach(g, r, n);
    var p :| Connects(g, r, n, p);
    forall a, b {:trigger Edge(g, a, b)} | Edge(g, a, b) && b in h.Keys ensures a in h.Keys && Edge(h, a, b) {
      PlainEdge(PlanLinks(plan), a, b);
      RouteOrigin(plan, a, b);
    }
    TransferBackward(g, h, h.Keys, p);
    assert Connects(h, r, n, p);
  }

  lemma RoutesAreRouted(plan: Plan)
    requires AuthoredPlan(plan) && StartsKnown(plan) && AllTargetsKnown(plan) && RetriesKnown(plan)
    requires forall n | n in plan.flows :: ReachFrom(Plain(PlanLinks(plan)), Roots(plan), n)
    ensures Dominators.RoutedGraph(Routes(plan), Roots(plan), "")
  {
    var g := Routes(plan);
    forall a, b {:trigger Edge(g, a, b)} | a in g && Edge(g, a, b) ensures b in g {
      assert TargetsKnown(plan, plan.At(a));
    }
    forall n | n in g ensures ReachFrom(g, Roots(plan), n) {
      RoutedReach(plan, n);
    }
  }

  // ---- Review loops are cycles --------------------------------------------------------------

  lemma RoutesAreLinks(plan: Plan, a: string, b: string)
    requires Edge(Routes(plan), a, b)
    ensures Edge(Plain(PlanLinks(plan)), a, b)
  {
    RouteLink(plan.At(a), b);
    PlanLink(plan, a, Link(b, 0));
    PlainEdge(PlanLinks(plan), a, b);
  }

  lemma RouteCycle(plan: Plan, p: seq<string>)
    requires IsCycle(Routes(plan), p) && p[0] in plan.flows
    ensures !Acceptable(plan)
  {
    var g, h := Routes(plan), Plain(PlanLinks(plan));
    forall a, b {:trigger Edge(g, a, b)} | Edge(g, a, b) ensures Edge(h, a, b) {
      RoutesAreLinks(plan, a, b);
    }
    TransferForward(g, h, p);
    assert IsCycle(h, p);
  }

  lemma ReviewLoopIsCycle(plan: Plan, n: string, target: string)
    requires Routed(plan, n) && target in FlowNames(UnresolvedTargets(plan.At(n)))
    requires target == n || Reach(Routes(plan), target, n)
    ensures !Acceptable(plan)
  {
    ReachSelf(Routes(plan), n);
    ReviewRoute(plan.At(n), target);
    assert Edge(Routes(plan), n, target);
    var p := CycleThrough(Routes(plan), n, target);
    RouteCycle(plan, p);
  }

  lemma ReviewRoute(flow: Flow, target: string)
    requires target in FlowNames(UnresolvedTargets(flow))
    ensures target in FlowNames(FlowTargets(flow))
  {
  }

  // Some review target leads back to the flow, as far as the compiler looks.
  ghost predicate ReviewLoops(plan: Plan, n: string) {
    exists target :: target in FlowNames(UnresolvedTargets(plan.At(n))) && LeadsBack(plan, n, target)
  }

  ghost predicate LeadsBack(plan: Plan, n: string, target: string) {
    target == n || (plan.At(n).inherited && Reach(Routes(plan), target, n))
  }

  // The review targets of one flow lead back to it (only an inherited route is
  // checked beyond the flow itself; any other loop is found as a cycle later).
  method LoopsBack(plan: Plan, n: string) returns (loops: bool)
    requires Routed(plan, n)
    ensures loops <==> ReviewLoops(plan, n)
    ensures loops ==> !Acceptable(plan)
  {
    var targets := FlowNames(UnresolvedTargets(plan.At(n)));
    for k := 0 to |targets|
      invariant forall j | 0 <= j < k :: !LeadsBack(plan, n, targets[j])
    {
      var target := targets[k];
      assert target in targets;
      var back := target == n;
      if plan.At(n).inherited && !back {
        back := Reaches(Routes(plan), target, n);
      }
      if back {
        ReviewLoopIsCycle(plan, n, target);
        return true;
      }
    }
    return false;
  }

  // ---- The validation ---------------------------------------------------------------------------

  // What a reported problem says of the plan.
  ghost predicate Explains(plan: Plan, problem: GraphError) {
    match problem
    case MissingStart(n) => n in StartCandidates(plan.start) && !Routed(plan, n)
    case InvalidTargets(n) => n in plan.flows && !TargetsKnown(plan, plan.At(n))
    case LoopingReview(n) => Routed(plan, n) && ReviewLoops(plan, n)
    case WorkflowCycle(path) => IsCycle(Plain(PlanLinks(plan)), path)
    case CollectionDepthExceeded(n, depth) =>
      depth > MAX_COLLECTION_DEPTH && exists path :: Follows(PlanLinks(plan), n, path) && PathWeight(path) == depth
    case UnreachableFlow(n) => n in plan.flows && !ReachFrom(Plain(PlanLinks(plan)), Roots(plan), n)
  }

  function Callers(names: seq<string>, g: Graph<string>, n: string): (callers: seq<string>)
    ensures forall a :: a in callers <==> a in names && Edge(g, a, n)
  {
    if names == [] then []
    else (if Edge(g, names[0], n) then [names[0]] else []) + Callers(names[1..], g, n)
  }

  function RoutedNames(plan: Plan, names: seq<string>): (routed: seq<string>)
    ensures forall n :: n in routed <==> n in names && Routed(plan, n)
  {
    if names == [] then []
    else (if Routed(plan, names[0]) then [names[0]] else []) + RoutedNames(plan, names[1..])
  }

  function Back(names: seq<string>, g: Graph<string>): Graph<string> {
    map n | n in names :: Callers(names, g, n)
  }

  lemma BackReverses(names: seq<string>, g: Graph<string>)
    requires Members(names) == g.Keys && Closed(g, g.Keys)
    ensures Reverses(g, Back(names, g))
  {
    forall a, b ensures Edge(g, a, b) <==> Edge(Back(names, g), b, a) {
      if Edge(g, a, b) {
        assert a in Members(names) && b in Members(names);
      }
    }
  }

  method CheckTargets(plan: Plan) returns (problem: Option<GraphError>)
    requires Ordered(plan) && RetriesKnown(plan)
    ensures problem.None? <==> StartsKnown(plan) && AllTargetsKnown(plan)
    ensures problem.Some? ==> !Acceptable(plan) && Explains(plan, problem.value)
  {
    var starts := StartCandidates(plan.start);
    for k := 0 to |starts|
      invariant forall n | n in starts[..k] :: Routed(plan, n)
    {
      assert starts[..k + 1] == starts[..k] + [starts[k]] && starts[k] in starts;
      if !Routed(plan, starts[k]) {
        return Some(MissingStart(starts[k]));
      }
    }
    assert starts[..|starts|] == starts;
    var order := plan.order;
    for k := 0 to |order|
      invariant forall n | n in order[..k] :: n in plan.flows && TargetsKnown(plan, plan.At(n))
    {
      assert order[..k + 1] == order[..k] + [order[k]] && order[k] in order;
      if !TargetsKnown(plan, plan.At(order[k])) {
        return Some(InvalidTargets(order[k]));
      }
    }
    assert order[..|order|] == order;
    forall n | n in plan.flows ensures TargetsKnown(plan, plan.At(n)) {
      assert n in order;
    }
    return None;
  }

  method CheckReviewLoops(plan: Plan) returns (problem: Option<GraphError>)
    requires Ordered(plan)
    ensures problem.None? <==> forall n | Routed(plan, n) :: !ReviewLoops(plan, n)
    ensures problem.Some? ==> !Acceptable(plan) && Explains(plan, problem.value)
  {
    for k := 0 to |plan.order|
      invariant forall j | 0 <= j < k && Routed(plan, plan.order[j]) :: !ReviewLoops(plan, plan.order[j])
    {
      var n := plan.order[k];
      if Routed(plan, n) {
        var loops := LoopsBack(plan, n);
        if loops {
          return Some(LoopingReview(n));
        }
      }
    }
    forall n | Routed(plan, n) ensures !ReviewLoops(plan, n) {
      assert n in plan.order;
    }
    return None;
  }

  // Cycles, nesting and reachability.
  method CheckStructure(plan: Plan)
    returns (problem: Option<GraphError>, ghost rank: map<string, nat>, ghost depths: map<string, nat>)
    requires Ordered(plan) && RetriesKnown(plan) && StartsKnown(plan) && AllTargetsKnown(plan)
    ensures problem.Some? ==> !Acceptable(plan) && Explains(plan, problem.value)
    ensures problem.None? ==> Acceptable(plan) && Certified(plan, rank, depths)
  {
    var starts := StartCandidates(plan.start);
    var links := PlanLinks(plan);
    LinksClosed(plan);
    var verdict;
    verdict, rank := Explore(links, starts, MAX_COLLECTION_DEPTH);
    depths := map[];
    AcceptedIff(links, Members(starts), MAX_COLLECTION_DEPTH, verdict, rank);
    match verdict {
      case Cycle(path) => return Some(WorkflowCycle(path)), rank, depths;
      case TooDeep(name, depth) => return Some(CollectionDepthExceeded(name, depth)), rank, depths;
      case Accepted(measured) =>
        depths := measured;
        var orphan := FirstUnmeasured(plan.order, measured);
        if orphan.Some? {
          Orphan(plan, rank, measured, orphan.value);
          return Some(UnreachableFlow(orphan.value)), rank, depths;
        }
        MeasuredAll(plan, rank, measured);
        return None, rank, depths;
    }
  }

  method FirstUnmeasured(order: seq<string>, measured: map<string, nat>) returns (orphan: Option<string>)
    ensures orphan.Some? ==> orphan.value in order && orphan.value !in measured
    ensures orphan.None? ==> forall n | n in order :: n in measured
  {
    for k := 0 to |order|
      invariant forall j | 0 <= j < k :: order[j] in measured
    {
      if order[k] !in measured {
        return Some(order[k]);
      }
    }
    return None;
  }

  lemma Orphan(plan: Plan, rank: map<string, nat>, depths: map<string, nat>, n: string)
    requires Ordered(plan) && n in plan.order && n !in depths
    requires Sound(PlanLinks(plan), Roots(plan), MAX_COLLECTION_DEPTH, Accepted(depths), rank)
    ensures !Acceptable(plan) && Explains(plan, UnreachableFlow(n))
  {
    assert n in plan.flows;
  }

  lemma MeasuredAll(plan: Plan, rank: map<string, nat>, depths: map<string, nat>)
    requires Ordered(plan) && RetriesKnown(plan) && StartsKnown(plan) && AllTargetsKnown(plan)
    requires Sound(PlanLinks(plan), Roots(plan), MAX_COLLECTION_DEPTH, Accepted(depths), rank)
    requires forall n | n in plan.order :: n in depths
    ensures Acceptable(plan) && Certified(plan, rank, depths)
  {
    AcceptedIff(PlanLinks(plan), Roots(plan), MAX_COLLECTION_DEPTH, Accepted(depths), rank);
    MeasuredFlows(plan, depths);
  }

  lemma MeasuredFlows(plan: Plan, depths: map<string, nat>)
    requires Ordered(plan) && Measured(PlanLinks(plan), depths)
    requires forall n | n in plan.order :: n in depths
    ensures depths.Keys == plan.flows.Keys
  {
    forall n | n in plan.flows ensures n in depths {
      assert n in plan.order;
    }
  }

  // `_validate_graph` accepts exactly the acceptable plans, and returns the exact
  // dominators and ancestors of the routed graph.
  method ValidateGraph(plan: Plan)
    returns (r: Result<FlowGraph, GraphError>, ghost rank: map<string, nat>, ghost depths: map<string, nat>)
    requires AuthoredPlan(plan) && RetriesKnown(plan)
    ensures r.Ok? <==> Acceptable(plan)
    ensures r.Err? ==> Explains(plan, r.error)
    ensures r.Ok? ==> Certified(plan, rank, depths) && Exact(plan, r.value)
  {
    rank, depths := map[], map[];
    var problem := CheckTargets(plan);
    if problem.Some? {
      return Err(problem.value), rank, depths;
    }
    problem := CheckReviewLoops(plan);
    if problem.Some? {
      return Err(problem.value), rank, depths;
    }
    problem, rank, depths := CheckStructure(plan);
    if problem.Some? {
      return Err(problem.value), rank, depths;
    }
    var graph := BuildGraph(plan);
    return Ok(graph), rank, depths;
  }

  method BuildGraph(plan: Plan) returns (graph: FlowGraph)
    requires AuthoredPlan(plan) && Acceptable(plan)
    ensures Exact(plan, graph)
  {
    var g, names := Routes(plan), RoutedNames(plan, plan.order);
    PrepareGraph(plan);
    var dominators, ancestors := Dominators.Analyse(names, g, Members(StartCandidates(plan.start)), Back(names, g), "");
    return FlowGraph(dominators, ancestors, g);
  }

  lemma PrepareGraph(plan: Plan)
    requires AuthoredPlan(plan) && Acceptable(plan)
    ensures Dominators.RoutedGraph(Routes(plan), Roots(plan), "")
    ensures Members(RoutedNames(plan, plan.order)) == Routes(plan).Keys
    ensures Reverses(Routes(plan), Back(RoutedNames(plan, plan.order), Routes(plan)))
  {
    RoutesAreRouted(plan);
    RoutedNamesAll(plan);
    BackReverses(RoutedNames(plan, plan.order), Routes(plan));
  }

  lemma RoutedNamesAll(plan: Plan)
    requires Ordered(plan)
    ensures Members(RoutedNames(plan, plan.order)) == Routes(plan).Keys
  {
    forall n | n in Routes(plan) ensures n in Members(RoutedNames(plan, plan.order)) {
      assert n in plan.order;
    }
  }
}
