/** Whole runs of accepted plans: routing never misconfigures, required bindings resolve. */
module RunSafety {
  import opened Foundations
  import opened Json
  import opened Bindings
  import opened Conditions
  import opened Plans
  import opened Records
  import opened Engine
  import opened Routing
  import opened Graphs
  import opened Dominators
  import opened Acceptance
  import opened GraphValidation
  import opened Availability
  import opened Readiness
  import opened Safety
  import opened RecordFields

  // ---- The compiler's checks make every flow fit ---------------------------------------------

  // The data side of every required binding of one flow.
  ghost predicate FlowBacked(s: Setting, n: string) {
    var flow := s.e.plan.At(n);
    && (forall k | 0 <= k < |flow.steps| ::
          DataSureAll(s.e, InputOf(n), InFlow(flow.steps, NamesBefore(flow.steps, k)), flow.Step(k).Arguments()))
    && SureIfAny(s.e, InputOf(n), AtOutput(flow.steps), flow.output)
    && (!flow.callable ==>
        DataSureAll(s.e, RunPayload(s.run), AtBoundary(s.e.plan, Before(s.e.plan, s.graph, n)), flow.input))
    && (flow.repeat.Some? ==>
          && DataSureAll(s.e, ScopeOf(s, n), SiteOf(s, n, Base(s, n) + {n}), flow.Repeating().retryFlowInput)
          && DataSureAll(s.e, ScopeOf(s, n), SiteOf(s, n, Base(s, n) + ItemLocal(s.e.plan, n)),
                         flow.Repeating().retryInput))
    && SureIfAny(s.e, RunPayload(s.run), AtBoundary(s.e.plan, Before(s.e.plan, s.graph, n) + {n}), CasesBinding(flow))
  }

  ghost predicate SureIfAny(e: Engine, scope: Scope, site: Site, binding: Option<Binding>) {
    match binding
    case None => true
    case Some(b) => DataSure(e, scope, site, b)
  }

  // The value a case transition routes by.
  function CasesBinding(flow: Flow): Option<Binding> {
    match flow.transition
    case Some(Cases(binding, _, _, _)) => Some(binding)
    case _ => None
  }

  // Whenever a record is there, the data every required pointer selects below it is too.
  ghost predicate PlanBacked(s: Setting) {
    && (forall n {:trigger FlowBacked(s, n)} | n in s.e.plan.flows :: FlowBacked(s, n))
    && forall available | EverywhereBefore(s.e.plan, s.graph, available) ::
         SureIfAny(s.e, RunPayload(s.run), AtBoundary(s.e.plan, available), s.e.plan.output)
  }

  function DominatorsOf(graph: FlowGraph, n: string): set<string> {
    if n in graph.dominators then graph.dominators[n] else {}
  }

  // A routed flow's dominators are routed flows.
  predicate BeforeRouted(plan: Plan, graph: FlowGraph, n: string) {
    n in graph.dominators && forall d | d in DominatorsOf(graph, n) :: Routed(plan, d)
  }

  lemma StepsFit(s: Setting, n: string)
    requires n in s.e.plan.flows && AuthoredFlow(s.e.plan.At(n)) && s.e.plan.At(n).name == n
    requires s.code == InvalidConfiguration ==> ShortFlow(s.e.plan.At(n))
    requires s.code == MissingBinding ==> FlowAccepted(s.e.plan, s.graph, n) && FlowBacked(s, n)
    ensures forall k | 0 <= k < |s.e.plan.At(n).steps| :: StepFit(s, s.e.plan.At(n), k)
  {
    var flow := s.e.plan.At(n);
    forall k | 0 <= k < |flow.steps| ensures StepFit(s, flow, k) {
      assert AuthoredStep(flow.steps[k]) && (s.code == InvalidConfiguration ==> ShortStep(flow.steps[k]));
      if s.code == MissingBinding {
        assert StepAccepted(flow.steps, NamesBefore(flow.steps, k), flow.steps[k]);
        assert flow.Step(k) == flow.steps[k];
      }
    }
  }

  lemma FlowFits(s: Setting, n: string)
    requires n in s.e.plan.flows && AuthoredFlow(s.e.plan.At(n)) && s.e.plan.At(n).name == n && n in s.depths
    requires s.code == InvalidConfiguration ==> ShortFlow(s.e.plan.At(n))
    requires s.code == MissingBinding ==> FlowAccepted(s.e.plan, s.graph, n) && FlowBacked(s, n)
    requires Routed(s.e.plan, n) ==> BeforeRouted(s.e.plan, s.graph, n)
    ensures FlowFit(s, n)
  {
    var flow := s.e.plan.At(n);
    StepsFit(s, n);
    if flow.repeat.Some? {
      assert {} + {n} == {n};
      assert {} + ItemLocal(s.e.plan, n) == ItemLocal(s.e.plan, n);
    }
    forall d | d in Base(s, n) ensures d in s.e.plan.flows && !s.e.plan.At(d).callable {
      assert d in DominatorsOf(s.graph, n);
    }
  }

  lemma AllFlowsFit(s: Setting)
    requires AuthoredPlan(s.e.plan) && s.depths.Keys == s.e.plan.flows.Keys
             && Inside(Routes(s.e.plan), s.graph.dominators)
    requires s.code == InvalidConfiguration ==> ShortPlan(s.e.plan)
    requires s.code == MissingBinding ==> PlanAccepted(s.e.plan, s.graph) && PlanBacked(s)
    ensures forall n | n in s.e.plan.flows :: FlowFit(s, n)
  {
    forall n | n in s.e.plan.flows ensures FlowFit(s, n) {
      assert s.code == MissingBinding ==> FlowBacked(s, n);
      assert s.code == InvalidConfiguration ==> ShortFlow(s.e.plan.At(n));
      if Routed(s.e.plan, n) {
        assert n in Routes(s.e.plan);
        forall d | d in s.graph.dominators[n] ensures Routed(s.e.plan, d) {
          assert d in Routes(s.e.plan).Keys;
        }
      }
      FlowFits(s, n);
    }
  }

  lemma LinksFit(s: Setting, rank: map<string, nat>)
    requires Certified(s.e.plan, rank, s.depths)
    ensures forall a, k, n | CallsAt(s.e.plan, a, k, n) :: Callable(s.e.plan, n) && NestsAbove(s, a, n, 1)
    ensures forall a, n | HasRetry(s.e.plan, a, n) :: Callable(s.e.plan, n) && n != a && NestsAbove(s, a, n, 0)
  {
    forall a, k, n | CallsAt(s.e.plan, a, k, n) ensures Callable(s.e.plan, n) && NestsAbove(s, a, n, 1) {
      CallFalls(s.e.plan, rank, s.depths, a, k, n);
    }
    forall a, n | HasRetry(s.e.plan, a, n) ensures Callable(s.e.plan, n) && n != a && NestsAbove(s, a, n, 0) {
      RetryFalls(s.e.plan, rank, s.depths, a, n);
    }
  }

  // What each of the two codes needs beyond the accepted graph.
  ghost predicate CodeFit(s: Setting) {
    || (s.code == InvalidConfiguration && ShortPlan(s.e.plan))
    || (s.code == MissingBinding && PlanAccepted(s.e.plan, s.graph) && PlanBacked(s))
  }

  // ---- One routed flow ---------------------------------------------------------------------------

  ghost predicate BoundaryFit(s: Setting, n: string) {
    var flow := s.e.plan.At(n);
    && TransitionFit(s.code == InvalidConfiguration, flow) && ReviewNeverCompletes(flow)
    && match CasesBinding(flow)
       case None => true
       case Some(binding) =>
         FedOne(s, RunPayload(s.run), AtBoundary(s.e.plan, Before(s.e.plan, s.graph, n) + {n}), binding)
  }

  predicate TransitionFit(short: bool, flow: Flow) {
    && flow.transition.Some? && AuthoredTransition(flow.transition.value)
    && (flow.onUnresolved.Some? ==> AuthoredReview(flow.onUnresolved.value))
    && (short ==>
          && ShortTransition(flow.transition.value)
          && (flow.onUnresolved.Some? ==> ShortReview(flow.onUnresolved.value)))
  }

  ghost predicate BoundariesFit(s: Setting) {
    forall n {:trigger BoundaryFit(s, n)} | Routed(s.e.plan, n) :: BoundaryFit(s, n)
  }

  // The code is not raised.
  predicate Clear<T>(s: Setting, result: Result<T, Exn>) {
    match result
    case Err(exn) => !Reports(exn, s.code)
    case Ok(_) => true
  }

  // A route fails with the code only when it comes to a pointer that is too long.
  lemma RouteSafe(s: Setting, entries: seq<RouteEntry>, context: Json)
    requires s.code == InvalidConfiguration || s.code == MissingBinding
    requires RouteShape(entries) && (s.code == InvalidConfiguration ==> ShortRoute(entries))
    ensures Clear(s, SelectEntry(s.e, entries, 0, context))
  {
    EntrySelected(s.e, entries, 0, context);
    if s.code == InvalidConfiguration {
      ShortRouteNeverOverlong(s.e, entries, context);
    }
  }

  lemma ReviewSafe(s: Setting, n: string, issues: seq<Issue>, context: Json)
    requires s.code == InvalidConfiguration || s.code == MissingBinding
    requires n in s.e.plan.flows && BoundaryFit(s, n)
    ensures Clear(s, ReviewTarget(s.e, s.e.plan.At(n), issues, context))
  {
    var flow := s.e.plan.At(n);
    match flow.onUnresolved
    case None =>
    case Some(ReviewDirect(target)) =>
      assert UnresolvedTargets(flow) == [target] && target in UnresolvedTargets(flow);
    case Some(ByIssue(default, routes)) =>
      SelectedIssueTarget(default, routes, issues);
      assert UnresolvedTargets(flow) == ReviewTargets(ByIssue(default, routes));
    case Some(ReviewConditional(entries)) =>
      RouteSafe(s, entries, context);
      EntryAuthored(s.e, entries, 0, context);
      assert UnresolvedTargets(flow) == EntryTargets(entries);
  }

  lemma ForwardSafe(s: Setting, n: string, records: FlowRecords)
    requires s.code == InvalidConfiguration || s.code == MissingBinding
    requires n in s.e.plan.flows && BoundaryFit(s, n)
    requires RecordsReady(s.e, s.e.plan, records, Before(s.e.plan, s.graph, n) + {n})
    ensures Clear(s, ForwardTarget(s.e, s.e.plan.At(n), WorkflowContext(s.run, s.e.metadata, records)))
  {
    var context := WorkflowContext(s.run, s.e.metadata, records);
    match s.e.plan.At(n).transition.value
    case Direct(_) =>
    case Cases(binding, cases, default, _) =>
      var site := AtBoundary(s.e.plan, Before(s.e.plan, s.graph, n) + {n});
      BoundaryReady(s.e, RunPayload(s.run), site, s.run, records);
      BindingSafe(s, RunPayload(s.run), site, context, binding);
    case Conditional(entries) =>
      RouteSafe(s, entries, context);
  }

  ghost predicate SafeBoundary(s: Setting, n: string, before: FlowRecords, routed: RoutedRun) {
    match routed.outcome
    case Err(exn) => !Reports(exn, s.code)
    case Ok(Stopped(failure)) => !FailsWith(failure, s.code)
    case Ok(Next(_)) =>
      && RecordReady(s.e, s.e.plan, routed.records, n)
      && SameElsewhere(ItemLocal(s.e.plan, n), before, routed.records)
  }

  lemma LeaveSafe(s: Setting, n: string, record: FlowRecord, failure: Option<Failure>, issues: seq<Issue>,
                  before: FlowRecords, records: FlowRecords, w: World)
    requires s.code == InvalidConfiguration || s.code == MissingBinding
    requires Routed(s.e.plan, n) && BoundaryFit(s, n) && SafeRun(s, n, record) && !FailsWith(failure, s.code)
    requires n in records && FlowAt(records, n) == record
             && (record.status != Failed ==> FlowLeaves(s.e, s.e.plan, n, record))
    requires SameElsewhere(ItemLocal(s.e.plan, n), before, records)
    requires RecordsReady(s.e, s.e.plan, records, Before(s.e.plan, s.graph, n))
    ensures SafeBoundary(s, n, before, Leave(s.e, s.e.plan.At(n), s.run, record, failure, issues, records, w))
  {
    if record.status != Failed && failure.None? {
      assert RecordReady(s.e, s.e.plan, records, n);
      if record.status == NeedsReview {
        ReviewSafe(s, n, issues, WorkflowContext(s.run, s.e.metadata, records));
      } else {
        ForwardSafe(s, n, records);
      }
    }
  }

  lemma RoutedSafe(s: Setting, n: string, records: FlowRecords, active: Option<string>, w: World)
    requires Fit(s) && Routed(s.e.plan, n) && BoundaryFit(s, n) && Deep(s, n, 0)
    requires RecordsReady(s.e, s.e.plan, records, Before(s.e.plan, s.graph, n)) && RetriesGoing(s, n, records)
    ensures SafeBoundary(s, n, records, RunRouted(s.e, s.e.plan.At(n), s.run, records, active, w))
  {
    var flow := s.e.plan.At(n);
    var site := AtBoundary(s.e.plan, Before(s.e.plan, s.graph, n));
    assert FlowFit(s, n);
    BoundaryReady(s.e, RunPayload(s.run), site, s.run, records);
    InputSafe(s, n, RunPayload(s.run), site, WorkflowContext(s.run, s.e.metadata, records), s.e.plan.At(n).input);
    // A routed flow is no retry flow, so its runs are kept exactly when it repeats.
    assert KeepsRuns(s.e.plan, n) <==> flow.repeat.Some?;
    BaseIsElsewhere(s, n);
    var input := FlowInput(s.e, n, flow.input, WorkflowContext(s.run, s.e.metadata, records));
    if !s.e.expired(w.tick) && input.Ok? {
      match flow.repeat
      case None => OnceSafe(s, n, records, input.value, w.Next());
      case Some(repeat) => RepeatedSafe(s, n, records, input.value, w.Next());
    }
  }

  lemma OnceSafe(s: Setting, n: string, records: FlowRecords, input: Object, w: World)
    requires Fit(s) && Routed(s.e.plan, n) && BoundaryFit(s, n) && Deep(s, n, 0)
    requires RecordsReady(s.e, s.e.plan, records, Before(s.e.plan, s.graph, n)) && Accepted(s.e, n, Obj(input))
    requires !KeepsRuns(s.e.plan, n)
    ensures var flow := s.e.plan.At(n);
            var run := ExecuteFlow(s.e, flow, Obj(input), w, 0);
            SafeBoundary(s, n, records, Leave(s.e, flow, s.run, run.record, None, run.issues, records[n := run.record],
                                              run.world))
  {
    var flow := s.e.plan.At(n);
    FlowSafe(s, n, Obj(input), w, 0);
    var run := ExecuteFlow(s.e, flow, Obj(input), w, 0);
    assert flow.name == n by { assert FlowFit(s, n); }
    RunExecuted(s.e, flow, Obj(input), w, 0);
    BaseIsElsewhere(s, n);
    ReadyElsewhere(s.e, s.e.plan, ItemLocal(s.e.plan, n), records, records[n := run.record], Base(s, n));
    LeaveSafe(s, n, run.record, None, run.issues, records, records[n := run.record], run.world);
  }

  ghost predicate SafeAfterLoop(s: Setting, n: string, before: FlowRecords, loop: Loop) {
    match loop.outcome
    case Err(exn) => !Reports(exn, s.code)
    case Ok(halted) =>
      SafeBoundary(s, n, before, Leave(s.e, s.e.plan.At(n), s.run, loop.last, halted.failure, halted.issues,
                                       loop.records, loop.world))
  }

  lemma RepeatedSafe(s: Setting, n: string, records: FlowRecords, input: Object, w: World)
    requires Fit(s) && Routed(s.e.plan, n) && BoundaryFit(s, n) && Deep(s, n, 0)
    requires RecordsReady(s.e, s.e.plan, records, Before(s.e.plan, s.graph, n)) && Accepted(s.e, n, Obj(input))
    requires s.e.plan.At(n).repeat.Some? && RetriesGoing(s, n, records)
    ensures var flow := s.e.plan.At(n);
            var loop := Attempts(s.e, flow, flow.Repeating(), None, s.run, Obj(input), [], records, w, 0);
            SafeAfterLoop(s, n, records, loop)
  {
    var flow := s.e.plan.At(n);
    assert flow.Repeating().maxAttempts > 0 by { assert FlowFit(s, n) && RepeatFit(s, n); }
    LoopSafe(s, n, None, s.run, Obj(input), [], records, w, 0);
    var loop := Attempts(s.e, flow, flow.Repeating(), None, s.run, Obj(input), [], records, w, 0);
    if loop.outcome.Ok? {
      BaseIsElsewhere(s, n);
      ReadyElsewhere(s.e, s.e.plan, ItemLocal(s.e.plan, n), records, loop.records, Base(s, n));
      LeaveSafe(s, n, loop.last, loop.outcome.value.failure, loop.outcome.value.issues, records, loop.records,
                loop.world);
    }
  }

  // ---- The run ---------------------------------------------------------------------------------------

  // Every route leads to a routed flow of lower rank.
  ghost predicate RoutesFall(plan: Plan, rank: map<string, nat>) {
    forall a, n {:trigger RoutesTo(plan, a, n)} | RoutesTo(plan, a, n) ::
      Routed(plan, n) && Rank(rank, n) < Rank(rank, a)
  }

  // The flows visited so far, all above the current one.
  ghost predicate Above(plan: Plan, rank: map<string, nat>, visited: set<string>, current: string) {
    && Routed(plan, current)
    && forall v | v in visited :: Routed(plan, v) && Rank(rank, v) > Rank(rank, current)
  }

  lemma {:induction false} OrderSize<N(!new)>(order: seq<N>)
    ensures |set n | n in order| <= |order|
  {
    if order == [] {
      assert (set n | n in order) == {};
    } else {
      OrderSize(order[1..]);
      assert (set n | n in order) == {order[0]} + (set n | n in order[1..]);
    }
  }

  // The trail walked so far leads along routes from a start to the current flow, and
  // every flow on it but the last has been visited.
  ghost predicate OnTrail<N(!new)>(g: Graph<N>, starts: set<N>, p: seq<N>, visited: set<N>) {
    && IsPath(g, p) && p[0] in starts
    && forall n :: n in visited <==> n in p[..|p| - 1]
  }

  lemma TrailGrows<N(!new)>(g: Graph<N>, starts: set<N>, p: seq<N>, visited: set<N>, next: N)
    requires OnTrail(g, starts, p, visited) && Edge(g, p[|p| - 1], next)
    ensures OnTrail(g, starts, p + [next], visited + {p[|p| - 1]})
  {
    var q := p + [next];
    assert q[..|q| - 1] == p[..|p| - 1] + [p[|p| - 1]];
  }

  lemma TrailPassed<N(!new)>(g: Graph<N>, starts: set<N>, dominators: Sets<N>, p: seq<N>, visited: set<N>, n: N)
    requires OnTrail(g, starts, p, visited) && Passed(g, starts, dominators) && n in g && n == p[|p| - 1]
    ensures n in dominators && dominators[n] <= visited + {n}
  {
    assert EntryPath(g, starts, p, n);
    forall d | d in dominators[n] ensures d in visited + {n} {
      assert p == p[..|p| - 1] + [n];
    }
  }

  // What the run-time theorems need of an accepted plan.
  ghost predicate RunFit(s: Setting, rank: map<string, nat>) {
    && Fit(s) && BoundariesFit(s) && Plans.Ordered(s.e.plan)
    && (forall n | n in s.depths :: Deep(s, n, 0))
    && RoutesFall(s.e.plan, rank) && RetriesKnown(s.e.plan)
    && Passed(Routes(s.e.plan), Roots(s.e.plan), s.graph.dominators)
  }

  // The retry flows of flows that have not run have no runs yet.
  ghost predicate Untried(plan: Plan, visited: set<string>, records: FlowRecords) {
    forall a, r {:trigger HasRetry(plan, a, r)} | HasRetry(plan, a, r) && Routed(plan, a) && a !in visited ::
      r in records && FlowAt(records, r).attempts == []
  }

  lemma UntriedStays(s: Setting, n: string, before: FlowRecords, after: FlowRecords, visited: set<string>)
    requires Fit(s) && RetriesKnown(s.e.plan) && Routed(s.e.plan, n)
    requires Untried(s.e.plan, visited, before) && SameElsewhere(ItemLocal(s.e.plan, n), before, after)
    ensures Untried(s.e.plan, visited + {n}, after)
  {
    forall a, r | HasRetry(s.e.plan, a, r) && Routed(s.e.plan, a) && a !in visited + {n}
      ensures r in after && FlowAt(after, r).attempts == []
    {
      assert r !in ItemLocal(s.e.plan, n);
    }
  }

  lemma InitialUntried(plan: Plan)
    requires RetriesKnown(plan)
    ensures Untried(plan, {}, InitialRecords(plan))
  {
    forall a, r | HasRetry(plan, a, r) && Routed(plan, a)
      ensures r in InitialRecords(plan) && InitialRecords(plan)[r].attempts == []
    {
      assert RetryKnown(plan, a);
      assert r in RetryFlows(plan);
    }
  }

  lemma VisitedReady(s: Setting, n: string, before: FlowRecords, after: FlowRecords, visited: set<string>)
    requires RecordsReady(s.e, s.e.plan, before, visited) && SameElsewhere(ItemLocal(s.e.plan, n), before, after)
    requires Fit(s) && n !in visited && forall v | v in visited :: Routed(s.e.plan, v)
    requires RecordReady(s.e, s.e.plan, after, n)
    ensures RecordsReady(s.e, s.e.plan, after, visited + {n})
  {
    assert visited !! ItemLocal(s.e.plan, n);
    ReadyElsewhere(s.e, s.e.plan, ItemLocal(s.e.plan, n), before, after, visited);
  }

  // Where a routed flow leads: along a route, or to the end of the run at a terminal flow.
  predicate OnRoute(plan: Plan, n: string, routed: RoutedRun) {
    match routed.outcome
    case Ok(Next(transition)) =>
      (match transition.target
       case ToFlow(next) => RoutesTo(plan, n, next)
       case ToOutcome(_) => Terminal(plan, n))
    case _ => true
  }

  lemma NextOnRoute(s: Setting, n: string, records: FlowRecords, active: Option<string>, w: World)
    requires Fit(s) && Routed(s.e.plan, n)
    ensures OnRoute(s.e.plan, n, RunRouted(s.e, s.e.plan.At(n), s.run, records, active, w))
  {
    var flow := s.e.plan.At(n);
    forall record: FlowRecord, failure, issues, after, w'
      ensures OnRoute(s.e.plan, n, Leave(s.e, flow, s.run, record, failure, issues, after, w'))
    {
      TargetAuthored(s.e, flow, record.status, issues, WorkflowContext(s.run, s.e.metadata, after));
    }
  }

  ghost predicate SafeEnd(s: Setting, records: FlowRecords) {
    exists t :: t in s.graph.dominators && Terminal(s.e.plan, t)
        && RecordsReady(s.e, s.e.plan, records, DominatorsOf(s.graph, t))
  }

  // The trail ends at this flow, whose dominators lie on it.
  ghost predicate At(s: Setting, p: seq<string>, visited: set<string>, current: string) {
    && OnTrail(Routes(s.e.plan), Roots(s.e.plan), p, visited) && p[|p| - 1] == current
  }

  // What the visited flows leave for the next one.
  ghost predicate Passing(s: Setting, visited: set<string>, records: FlowRecords) {
    RecordsReady(s.e, s.e.plan, records, visited) && Untried(s.e.plan, visited, records)
  }

  predicate GoesToNext(routed: RoutedRun) {
    routed.outcome.Ok? && routed.outcome.value.Next?
  }

  // One routed flow further along the trail.
  ghost predicate SafeMove(s: Setting, rank: map<string, nat>, p: seq<string>, current: string, visited: set<string>,
                           routed: RoutedRun) {
    match routed.outcome
    case Err(exn) => !Reports(exn, s.code)
    case Ok(Stopped(failure)) => !FailsWith(failure, s.code)
    case Ok(Next(transition)) =>
      match transition.target
      case ToOutcome(_) => SafeEnd(s, routed.records)
      case ToFlow(next) =>
        && Passing(s, visited + {current}, routed.records)
        && Above(s.e.plan, rank, visited + {current}, next)
        && At(s, p + [next], visited + {current}, next)
  }

  lemma MoveSafe(s: Setting, rank: map<string, nat>, p: seq<string>, current: string, visited: set<string>,
                 records: FlowRecords, w: World)
    requires RunFit(s, rank) && Above(s.e.plan, rank, visited, current)
    requires At(s, p, visited, current)
    requires Passing(s, visited, records) && current !in visited
    ensures SafeMove(s, rank, p, current, visited, RunRouted(s.e, s.e.plan.At(current), s.run, records, None, w))
  {
    TrailPassed(Routes(s.e.plan), Roots(s.e.plan), s.graph.dominators, p, visited, current);
    assert BoundaryFit(s, current) && FlowFit(s, current);
    assert RetriesGoing(s, current, records);
    RoutedSafe(s, current, records, None, w);
    var routed := RunRouted(s.e, s.e.plan.At(current), s.run, records, None, w);
    if GoesToNext(routed) {
      VisitedReady(s, current, records, routed.records, visited);
      UntriedStays(s, current, records, routed.records, visited);
    }
    NextOnRoute(s, current, records, None, w);
    MovedSafe(s, rank, p, current, visited, records, RunRouted(s.e, s.e.plan.At(current), s.run, records, None, w));
  }

  lemma MovedSafe(s: Setting, rank: map<string, nat>, p: seq<string>, current: string, visited: set<string>,
                  records: FlowRecords, routed: RoutedRun)
    requires RoutesFall(s.e.plan, rank) && Above(s.e.plan, rank, visited, current)
    requires At(s, p, visited, current)
    requires current in s.graph.dominators && DominatorsOf(s.graph, current) <= visited + {current}
    requires SafeBoundary(s, current, records, routed) && OnRoute(s.e.plan, current, routed)
    requires GoesToNext(routed) ==> Passing(s, visited + {current}, routed.records)
    ensures SafeMove(s, rank, p, current, visited, routed)
  {
    if Following(routed).Some? {
      assert Edge(Routes(s.e.plan), current, Following(routed).value);
      TrailGrows(Routes(s.e.plan), Roots(s.e.plan), p, visited, Following(routed).value);
    }
  }

  ghost predicate SafeDrive(s: Setting, d: Drive) {
    match d.outcome
    case Err(exn) => !Reports(exn, s.code)
    case Ok((status, failure)) => !FailsWith(failure, s.code) && (status != Failed ==> SafeEnd(s, d.records))
  }

  lemma {:induction false} DriveSafe(s: Setting, rank: map<string, nat>, p: seq<string>, current: string,
                                     visited: set<string>, records: FlowRecords, transitions: seq<TransitionRecord>,
                                     w: World)
    requires RunFit(s, rank) && Above(s.e.plan, rank, visited, current)
    requires At(s, p, visited, current)
    requires Passing(s, visited, records)
    ensures SafeDrive(s, DriveFrom(s.e, s.run, current, visited, records, transitions, w))
    decreases Rank(rank, current)
  {
    var names := set n | n in s.e.plan.order;
    assert visited + {current} <= names;
    SubsetSize(visited + {current}, names);
    OrderSize(s.e.plan.order);
    if !s.e.expired(w.tick) {
      MoveSafe(s, rank, p, current, visited, records, w.Next());
      var routed := RunRouted(s.e, s.e.plan.At(current), s.run, records, None, w.Next());
      if Following(routed).Some? {
        var transition, next := routed.outcome.value.transition, Following(routed).value;
        DriveGoesOn(s.e, s.run, current, visited, records, transitions, w, routed, transition, next);
        DriveSafe(s, rank, p + [next], next, visited + {current}, routed.records, transitions + [transition],
                  routed.world);
      }
    }
  }

  function StartEntries(plan: Plan): seq<RouteEntry> {
    if plan.start.StartRoute? then plan.start.entries else []
  }

  ghost predicate SafeStart(s: Setting, start: Result<StartRecord, Exn>) {
    match start
    case Err(exn) => !Reports(exn, s.code)
    case Ok(record) => Routed(s.e.plan, record.flow) && record.flow in Roots(s.e.plan)
  }

  lemma StartSafe(s: Setting)
    requires s.code == InvalidConfiguration || s.code == MissingBinding
    requires AuthoredStart(s.e.plan.start) && StartsKnown(s.e.plan)
    requires s.code == InvalidConfiguration ==> ShortRoute(StartEntries(s.e.plan))
    ensures SafeStart(s, SelectStart(s.e, s.run))
  {
    StartAuthored(s.e, s.run);
    if s.e.plan.start.StartRoute? {
      var entries, context := s.e.plan.start.entries, StartContext(s.run, s.e.metadata);
      RouteSafe(s, entries, context);
      EntryAuthored(s.e, entries, 0, context);
      var picked := SelectEntry(s.e, entries, 0, context);
      assert picked.Ok? ==> entries[picked.value.1].target.ToFlow?;
    }
  }

  ghost predicate OutputFit(s: Setting) {
    match s.e.plan.output
    case None => true
    case Some(output) =>
      exists available :: EverywhereBefore(s.e.plan, s.graph, available)
                          && FedOne(s, RunPayload(s.run), AtBoundary(s.e.plan, available), output)
  }

  lemma OutputSafe(s: Setting, records: FlowRecords, output: Binding)
    requires s.code == InvalidConfiguration || s.code == MissingBinding
    requires OutputFit(s) && SafeEnd(s, records) && s.e.plan.output == Some(output)
    ensures ResolveBinding(output, WorkflowContext(s.run, s.e.metadata, records)) != Err(s.code)
  {
    var available :| EverywhereBefore(s.e.plan, s.graph, available)
                     && FedOne(s, RunPayload(s.run), AtBoundary(s.e.plan, available), output);
    var t :| t in s.graph.dominators && Terminal(s.e.plan, t)
        && RecordsReady(s.e, s.e.plan, records, DominatorsOf(s.graph, t));
    assert available <= DominatorsOf(s.graph, t);
    BoundaryReady(s.e, RunPayload(s.run), AtBoundary(s.e.plan, available), s.run, records);
    BindingSafe(s, RunPayload(s.run), AtBoundary(s.e.plan, available), WorkflowContext(s.run, s.e.metadata, records),
                output);
  }

  lemma RunSafe(s: Setting, rank: map<string, nat>, w: World)
    requires RunFit(s, rank) && OutputFit(s) && AuthoredStart(s.e.plan.start) && StartsKnown(s.e.plan)
    requires s.code == InvalidConfiguration ==> ShortRoute(StartEntries(s.e.plan))
    requires rank.Keys == s.e.plan.flows.Keys
    ensures !FailsWith(Run(s.e, s.run, w).error, s.code)
  {
    var e, payload := s.e, s.run;
    StartSafe(s);
    var records, selected := InitialRecords(e.plan), SelectStart(e, payload);
    if selected.Err? {
      CrashCode(e, payload, selected.error, records, None, [], None, w);
    } else {
      var start := selected.value;
      assert OnTrail(Routes(e.plan), Roots(e.plan), [start.flow], {});
      InitialUntried(e.plan);
      DriveSafe(s, rank, [start.flow], start.flow, {}, records, [], w);
      EndSafe(s, DriveFrom(e, payload, start.flow, {}, records, [], w), start);
    }
  }

  lemma EndSafe(s: Setting, d: Drive, start: StartRecord)
    requires s.code == InvalidConfiguration || s.code == MissingBinding
    requires SafeDrive(s, d) && OutputFit(s)
    ensures !FailsWith(Ending(s, d, start).error, s.code)
  {
    match d.outcome
    case Err(exn) => CrashCode(s.e, s.run, exn, d.records, d.active, d.transitions, Some(start), d.world);
    case Ok((status, _)) =>
      if status != Failed && s.e.plan.output.Some? {
        OutputSafe(s, d.records, s.e.plan.output.value);
        var r := ResolveBinding(s.e.plan.output.value, WorkflowContext(s.run, s.e.metadata, d.records));
        if r.Err? {
          CrashCode(s.e, s.run, Error(r.error), d.records, None, d.transitions, Some(start), d.world);
        }
      }
      CrashCode(s.e, s.run, Error(RunTimeout), d.records, None, d.transitions, Some(start), d.world.Next());
  }

  // The result of a run that drove this far.
  function Ending(s: Setting, d: Drive, start: StartRecord): RunResult {
    match d.outcome
    case Err(exn) => Crash(s.e, s.run, exn, d.records, d.active, d.transitions, Some(start), d.world)
    case Ok((status, error)) => Finish(s.e, s.run, status, error, d.records, d.transitions, start, d.world)
  }

  // ---- From the compiler's verdicts ----------------------------------------------------------------------

  lemma BoundariesFitFrom(s: Setting)
    requires AuthoredPlan(s.e.plan) && AllTargetsKnown(s.e.plan)
    requires s.code == InvalidConfiguration ==> ShortPlan(s.e.plan)
    requires s.code == MissingBinding ==> PlanAccepted(s.e.plan, s.graph) && PlanBacked(s)
    ensures BoundariesFit(s)
  {
    forall n | Routed(s.e.plan, n) ensures BoundaryFit(s, n) {
      assert AuthoredFlow(s.e.plan.At(n)) && TargetsKnown(s.e.plan, s.e.plan.At(n));
      if s.code == MissingBinding {
        assert FlowAccepted(s.e.plan, s.graph, n) && FlowBacked(s, n);
      }
    }
  }

  lemma RunFits(s: Setting, rank: map<string, nat>)
    requires AuthoredPlan(s.e.plan) && Certified(s.e.plan, rank, s.depths)
    requires Inside(Routes(s.e.plan), s.graph.dominators)
             && Passed(Routes(s.e.plan), Roots(s.e.plan), s.graph.dominators)
    requires CodeFit(s)
    requires Silent(s.e, s.code)
    ensures RunFit(s, rank)
  {
    AllFlowsFit(s);
    LinksFit(s, rank);
    forall a, n | RoutesTo(s.e.plan, a, n) ensures Routed(s.e.plan, n) && Rank(rank, n) < Rank(rank, a) {
      RouteFalls(s.e.plan, rank, s.depths, a, n);
    }
    BoundariesFitFrom(s);
  }

  lemma GraphFacts(plan: Plan, graph: FlowGraph)
    requires AuthoredPlan(plan) && Acceptable(plan) && Exact(plan, graph)
    ensures Inside(Routes(plan), graph.dominators) && Passed(Routes(plan), Roots(plan), graph.dominators)
  {
    RoutesAreRouted(plan);
    DominatorsInside(Routes(plan), Roots(plan), graph.dominators, graph.ancestors, "");
    DominatorsPassed(Routes(plan), Roots(plan), graph.dominators, graph.ancestors);
  }

  // No run of an accepted plan whose pointers the engine can follow reaches a
  // configuration error: no revisited, unknown or
  // callable flow, no route without an otherwise, no completion on review, no nesting
  // beyond the depth limit.
  lemma NeverMisconfigured(e: Engine, graph: FlowGraph, rank: map<string, nat>, depths: map<string, nat>, payload: Json,
                           w: World)
    requires AuthoredPlan(e.plan) && Acceptable(e.plan) && Certified(e.plan, rank, depths) && Exact(e.plan, graph)
    requires ShortPlan(e.plan) && Silent(e, InvalidConfiguration)
    ensures !FailsWith(Run(e, payload, w).error, InvalidConfiguration)
  {
    var s := Setting(e, InvalidConfiguration, payload, graph, depths);
    GraphFacts(e.plan, graph);
    RunFits(s, rank);
    SomeAvailable(s);
    RunSafe(s, rank, w);
  }

  lemma SomeAvailable(s: Setting)
    requires s.code != MissingBinding
    requires AuthoredPlan(s.e.plan) && ShortPlan(s.e.plan)
    requires Inside(Routes(s.e.plan), s.graph.dominators)
    ensures OutputFit(s)
  {
    var available := SomeEverywhere(s.e.plan, s.graph);
    match s.e.plan.output
    case None =>
    case Some(output) =>
      assert FedOne(s, RunPayload(s.run), AtBoundary(s.e.plan, available), output);
  }

  lemma SomeEverywhere(plan: Plan, graph: FlowGraph) returns (available: set<string>)
    requires Inside(Routes(plan), graph.dominators)
    ensures EverywhereBefore(plan, graph, available)
  {
    if t :| Terminal(plan, t) {
      assert t in Routes(plan);
      available := set d | d in graph.dominators[t] && forall t' | Terminal(plan, t') ::
          t' in graph.dominators && d in graph.dominators[t'];
    } else {
      available := {};
    }
  }

  // No run of an accepted plan misses a required binding, when whatever the executor,
  // the input contracts and the projections deliver has the values selected below
  // the required records.
  lemma NeverMissingBinding(e: Engine, graph: FlowGraph, rank: map<string, nat>, depths: map<string, nat>,
                            payload: Json, w: World)
    requires AuthoredPlan(e.plan) && Acceptable(e.plan) && Certified(e.plan, rank, depths) && Exact(e.plan, graph)
    requires PlanAccepted(e.plan, graph) && PlanBacked(Setting(e, MissingBinding, payload, graph, depths))
    requires Silent(e, MissingBinding)
    ensures !FailsWith(Run(e, payload, w).error, MissingBinding)
  {
    var s := Setting(e, MissingBinding, payload, graph, depths);
    GraphFacts(e.plan, graph);
    RunFits(s, rank);
    RunSafe(s, rank, w);
  }

  // ---- Plans that ask nothing of the data -----------------------------------------------------

  predicate PlainIfAny(binding: Option<Binding>) {
    match binding
    case None => true
    case Some(b) => Plain(b)
  }

  predicate PlainFlow(flow: Flow) {
    && (forall step | step in flow.steps :: PlainAll(step.Arguments()))
    && PlainIfAny(flow.output) && PlainAll(flow.input) && PlainIfAny(CasesBinding(flow))
    && PlainAll(flow.Repeating().retryFlowInput) && PlainAll(flow.Repeating().retryInput)
  }

  // Every required pointer of the plan is a whole payload, record, status or result.
  predicate PlainPlan(plan: Plan) {
    (forall n {:trigger plan.At(n)} | n in plan.flows :: PlainFlow(plan.At(n))) && PlainIfAny(plan.output)
  }

  lemma PlainIsSureIfAny(e: Engine, scope: Scope, site: Site, binding: Option<Binding>)
    requires PlainIfAny(binding) && RequiredIfAny(site, binding)
    ensures SureIfAny(e, scope, site, binding)
  {
    if binding.Some? {
      PlainIsSure(e, scope, site, binding.value);
    }
  }

  predicate RequiredIfAny(site: Site, binding: Option<Binding>) {
    match binding
    case None => true
    case Some(b) => Required(site, b)
  }

  lemma PlainFlowIsBacked(s: Setting, n: string)
    requires AuthoredFlow(s.e.plan.At(n)) && FlowAccepted(s.e.plan, s.graph, n) && PlainFlow(s.e.plan.At(n))
    ensures FlowBacked(s, n)
  {
    var e, plan, flow, before := s.e, s.e.plan, s.e.plan.At(n), Before(s.e.plan, s.graph, n);
    forall k | 0 <= k < |flow.steps|
      ensures DataSureAll(e, InputOf(n), InFlow(flow.steps, NamesBefore(flow.steps, k)), flow.Step(k).Arguments())
    {
      assert flow.Step(k) == flow.steps[k] && StepAccepted(flow.steps, NamesBefore(flow.steps, k), flow.steps[k]);
      PlainIsSureAll(e, InputOf(n), InFlow(flow.steps, NamesBefore(flow.steps, k)), flow.Step(k).Arguments());
    }
    PlainIsSureIfAny(e, InputOf(n), AtOutput(flow.steps), flow.output);
    if !flow.callable {
      PlainIsSureAll(e, RunPayload(s.run), AtBoundary(plan, before), flow.input);
      PlainIsSureIfAny(e, RunPayload(s.run), AtBoundary(plan, before + {n}), CasesBinding(flow));
    }
    if flow.repeat.Some? {
      assert {} + {n} == {n} && {} + ItemLocal(plan, n) == ItemLocal(plan, n);
      PlainIsSureAll(e, ScopeOf(s, n), SiteOf(s, n, Base(s, n) + {n}), flow.Repeating().retryFlowInput);
      PlainIsSureAll(e, ScopeOf(s, n), SiteOf(s, n, Base(s, n) + ItemLocal(plan, n)), flow.Repeating().retryInput);
    }
  }

  lemma PlainIsBacked(s: Setting)
    requires AuthoredPlan(s.e.plan) && PlanAccepted(s.e.plan, s.graph) && PlainPlan(s.e.plan)
    ensures PlanBacked(s)
  {
    var plan := s.e.plan;
    forall n | n in plan.flows ensures FlowBacked(s, n) {
      assert PlainFlow(plan.At(n));
      PlainFlowIsBacked(s, n);
    }
    forall available | EverywhereBefore(plan, s.graph, available)
      ensures SureIfAny(s.e, RunPayload(s.run), AtBoundary(plan, available), plan.output)
    {
      if plan.output.Some? {
        var other :| EverywhereBefore(plan, s.graph, other) && Required(AtBoundary(plan, other), plan.output.value);
        assert available == other;
        PlainIsSureIfAny(s.e, RunPayload(s.run), AtBoundary(plan, available), plan.output);
      }
    }
  }

  // No run of an accepted plan whose required pointers select whole payloads, records, statuses
  // and results misses a binding, whatever the executor and the input contracts deliver.
  lemma PlainNeverMissing(e: Engine, graph: FlowGraph, rank: map<string, nat>, depths: map<string, nat>,
                          payload: Json, w: World)
    requires AuthoredPlan(e.plan) && Acceptable(e.plan) && Certified(e.plan, rank, depths) && Exact(e.plan, graph)
    requires PlanAccepted(e.plan, graph) && PlainPlan(e.plan) && Silent(e, MissingBinding)
    ensures !FailsWith(Run(e, payload, w).error, MissingBinding)
  {
    PlainIsBacked(Setting(e, MissingBinding, payload, graph, depths));
    NeverMissingBinding(e, graph, rank, depths, payload, w);
  }
}
