/** The immutable workflow plan the engine executes, and its routing tables. */
module Plans {
  import opened Foundations
  import opened Json
  import opened Bindings
  import opened Conditions

  const MAX_COLLECTION_DEPTH: nat := 16

  datatype Issue = NoSupportedAnswer | ConflictingInformation | MultipleValidOptions

  datatype Disposition = EndCompleted | EndNeedsReview

  // Exactly one of a flow instance and a terminal disposition.
  datatype Target = ToFlow(flow: string) | ToOutcome(outcome: Disposition)

  datatype Case = Case(key: string, target: Target)

  datatype IssueTarget = IssueTarget(issue: Issue, target: Target)

  // The otherwise entry has no condition.
  datatype RouteEntry = RouteEntry(target: Target, condition: Option<Condition>)

  datatype Transition =
    | Direct(target: Target)
    | Cases(binding: Binding, cases: seq<Case>, default: Target, defaultCovers: seq<string>)
    | Conditional(entries: seq<RouteEntry>)

  datatype ReviewRoute =
    | ReviewDirect(target: Target)
    | ByIssue(default: Target, issues: seq<IssueTarget>)
    | ReviewConditional(entries: seq<RouteEntry>)

  datatype Start = StartFlow(flow: string) | StartRoute(entries: seq<RouteEntry>)

  datatype Repeat = Repeat(
    maxAttempts: nat,
    until: Condition,
    retryFlow: Option<string>,
    retryFlowInput: seq<Named>,
    continueWhen: Option<Condition>,
    retryInput: seq<Named>)
  {
    // The name of the retry flow; no flow has the empty name.
    function Retry(): string {
      if retryFlow.Some? then retryFlow.value else ""
    }
  }

  // categories: the option and fallback ids of a single-choice decision, None for others.
  datatype OperationKind = Decision(categories: Option<seq<string>>) | Llm | Mcp | Handler

  datatype Step =
    | Operation(name: string, guard: Option<Condition>, kind: OperationKind, input: seq<Named>)
    | Collection(name: string, guard: Option<Condition>, items: Binding, flows: seq<string>, maxItems: nat)
  {
    // The bindings behind the common step input interface.
    function Arguments(): seq<Named> {
      match this
      case Operation(_, _, _, input) => input
      case Collection(_, _, items, _, _) => [Named("items", items)]
    }

    // The flows and the number of items of a collection; an operation has neither.
    function Targets(): seq<string> {
      if Collection? then flows else []
    }

    function Capacity(): nat {
      if Collection? then maxItems else 0
    }
  }

  datatype Flow = Flow(
    name: string,
    input: seq<Named>,
    steps: seq<Step>,
    output: Option<Binding>,
    transition: Option<Transition>,
    onUnresolved: Option<ReviewRoute>,
    inherited: bool,
    callable: bool,
    repeat: Option<Repeat>,
    declaredInput: Option<set<string>>)  // properties of the input schema, when it lists them
  {
    // Step number k, counted from zero; past the end an empty operation.
    function Step(k: int): Step {
      if 0 <= k < |steps| then steps[k] else Operation("", None, Llm, [])
    }

    // The repeat of a repeated flow; any other flow makes no attempts.
    function Repeating(): Repeat {
      if repeat.Some? then repeat.value else Repeat(0, All([]), None, [], None, [])
    }
  }

  // Flows in authored order, as a table.
  datatype Plan = Plan(
    order: seq<string>,
    flows: map<string, Flow>,
    start: Start,
    output: Option<Binding>)
  {
    // The flow of that name; a name without a flow stands for an empty one.
    function At(name: string): Flow {
      if name in flows then flows[name]
      else Flow(name, [], [], None, None, None, false, false, None, None)
    }
  }

  // ---- Targets -------------------------------------------------------------------

  function EntryTargets(entries: seq<RouteEntry>): seq<Target> {
    seq(|entries|, k requires 0 <= k < |entries| => entries[k].target)
  }

  function TransitionTargets(transition: Transition): seq<Target> {
    match transition
    case Direct(target) => [target]
    case Cases(_, cases, default, _) =>
      [default] + seq(|cases|, k requires 0 <= k < |cases| => cases[k].target)
    case Conditional(entries) => EntryTargets(entries)
  }

  function ReviewTargets(route: ReviewRoute): seq<Target> {
    match route
    case ReviewDirect(target) => [target]
    case ByIssue(default, issues) =>
      [default] + seq(|issues|, k requires 0 <= k < |issues| => issues[k].target)
    case ReviewConditional(entries) => EntryTargets(entries)
  }

  function ForwardTargets(flow: Flow): seq<Target> {
    if flow.transition.Some? then TransitionTargets(flow.transition.value) else []
  }

  function UnresolvedTargets(flow: Flow): seq<Target> {
    if flow.onUnresolved.Some? then ReviewTargets(flow.onUnresolved.value) else []
  }

  function FlowTargets(flow: Flow): seq<Target> {
    ForwardTargets(flow) + UnresolvedTargets(flow)
  }

  // The flow instances among a list of targets, in order.
  function FlowNames(targets: seq<Target>): (names: seq<string>)
    ensures forall n :: n in names <==> ToFlow(n) in targets
  {
    if targets == [] then []
    else (if targets[0].ToFlow? then [targets[0].flow] else []) + FlowNames(targets[1..])
  }

  function StartCandidates(start: Start): seq<string> {
    match start
    case StartFlow(flow) => [flow]
    case StartRoute(entries) => FlowNames(EntryTargets(entries))
  }

  // Retry flows of routed flows have workflow-level records.
  function RetryFlows(plan: Plan): set<string> {
    set n | n in plan.flows && !plan.At(n).callable && plan.At(n).repeat.Some?
            && plan.At(n).Repeating().retryFlow.Some? :: plan.At(n).Repeating().retryFlow.value
  }

  // ---- Selection without data ------------------------------------------------------

  function FindCase(cases: seq<Case>, key: string): Option<Target> {
    if cases == [] then None
    else if cases[0].key == key then Some(cases[0].target)
    else FindCase(cases[1..], key)
  }

  function FindIssue(issues: seq<IssueTarget>, issue: Issue): Option<Target> {
    if issues == [] then None
    else if issues[0].issue == issue then Some(issues[0].target)
    else FindIssue(issues[1..], issue)
  }

  function IssueOr(issues: seq<IssueTarget>, default: Target, issue: Issue): Target {
    var found := FindIssue(issues, issue);
    if found.Some? then found.value else default
  }

  // The first reported issue whose own route is the target.
  function SelectingIssue(routes: seq<IssueTarget>, reported: seq<Issue>, target: Target): Option<Issue> {
    if reported == [] then None
    else if FindIssue(routes, reported[0]) == Some(target) then Some(reported[0])
    else SelectingIssue(routes, reported[1..], target)
  }

  // Agreeing issue targets select their target; anything else selects the default.
  function SelectByIssue(default: Target, routes: seq<IssueTarget>, reported: seq<Issue>): (Target, Option<Issue>) {
    if reported == [] || exists k | 0 <= k < |reported| ::
                           IssueOr(routes, default, reported[k]) != IssueOr(routes, default, reported[0])
    then (default, None)
    else
      var target := IssueOr(routes, default, reported[0]);
      (target, SelectingIssue(routes, reported, target))
  }

  // ---- What the authoring contract and the flow compiler guarantee ------------------

  predicate RouteShape(entries: seq<RouteEntry>) {
    && entries != []
    && forall k | 0 <= k < |entries| ::
      (entries[k].condition.None? <==> k == |entries| - 1)
      && (entries[k].condition.Some? ==> AuthoredCondition(entries[k].condition.value))
  }

  predicate AuthoredTransition(transition: Transition) {
    match transition
    case Direct(_) => true
    case Cases(binding, _, _, _) => Authored(binding)
    case Conditional(entries) => RouteShape(entries)
  }

  predicate AuthoredReview(route: ReviewRoute) {
    route.ReviewConditional? ==> RouteShape(route.entries)
  }

  predicate AuthoredStart(start: Start) {
    start.StartRoute? ==>
      RouteShape(start.entries) && forall k | 0 <= k < |start.entries| :: start.entries[k].target.ToFlow?
  }

  predicate AuthoredRepeat(repeat: Repeat) {
    && 2 <= repeat.maxAttempts <= 64
    && AuthoredCondition(repeat.until)
    && AuthoredPairs(repeat.retryFlowInput) && AuthoredPairs(repeat.retryInput)
    && (repeat.continueWhen.Some? ==> AuthoredCondition(repeat.continueWhen.value))
  }

  predicate DistinctNames(steps: seq<Step>) {
    forall i, j | 0 <= i < j < |steps| :: steps[i].name != steps[j].name
  }

  predicate AuthoredStep(step: Step) {
    && AuthoredPairs(step.Arguments())
    && (step.guard.Some? ==> AuthoredCondition(step.guard.value))
    && (step.Collection? ==> 1 <= step.maxItems <= 1024 && step.flows != [])
  }

  predicate AuthoredFlow(flow: Flow) {
    && flow.steps != []
    && (forall k | 0 <= k < |flow.steps| :: AuthoredStep(flow.steps[k]))
    && (forall j, k | 0 <= j < k < |flow.steps| :: flow.steps[j].name != flow.steps[k].name)
    && AuthoredPairs(flow.input)
    && (flow.output.Some? ==> Authored(flow.output.value))
    && (flow.repeat.Some? ==> AuthoredRepeat(flow.Repeating()))
    && (flow.callable ==> flow.transition.None? && flow.onUnresolved.None?)
    && (!flow.callable ==> flow.transition.Some? && AuthoredTransition(flow.transition.value))
    && (flow.onUnresolved.Some? ==> AuthoredReview(flow.onUnresolved.value))
  }

  // The order lists every flow exactly once.
  predicate Ordered(plan: Plan) {
    && plan.flows.Keys == (set n | n in plan.order)
    && forall j, k | 0 <= j < k < |plan.order| :: plan.order[j] != plan.order[k]
  }

  predicate AuthoredPlan(plan: Plan) {
    && Ordered(plan)
    && (forall n | n in plan.flows :: n != "" && plan.At(n).name == n && AuthoredFlow(plan.At(n)))
    && AuthoredStart(plan.start)
    && (plan.output.Some? ==> Authored(plan.output.value))
  }

  // ---- Plans whose pointers the engine can all follow -----------------------------------

  predicate ShortRoute(entries: seq<RouteEntry>) {
    forall k | 0 <= k < |entries| && entries[k].condition.Some? :: ShortCondition(entries[k].condition.value)
  }

  predicate ShortTransition(transition: Transition) {
    match transition
    case Direct(_) => true
    case Cases(binding, _, _, _) => Short(binding)
    case Conditional(entries) => ShortRoute(entries)
  }

  predicate ShortReview(route: ReviewRoute) {
    route.ReviewConditional? ==> ShortRoute(route.entries)
  }

  // The conditions of a repeat; its bindings are a matter of their own.
  predicate ShortRepeat(repeat: Repeat) {
    ShortCondition(repeat.until) && (repeat.continueWhen.Some? ==> ShortCondition(repeat.continueWhen.value))
  }

  predicate ShortStep(step: Step) {
    ShortPairs(step.Arguments()) && (step.guard.Some? ==> ShortCondition(step.guard.value))
  }

  predicate ShortFlow(flow: Flow) {
    && (forall k | 0 <= k < |flow.steps| :: ShortStep(flow.steps[k]))
    && ShortPairs(flow.input)
    && (flow.output.Some? ==> Short(flow.output.value))
    && (flow.repeat.Some? ==>
          && ShortRepeat(flow.Repeating())
          && ShortPairs(flow.Repeating().retryFlowInput) && ShortPairs(flow.Repeating().retryInput))
    && (flow.transition.Some? ==> ShortTransition(flow.transition.value))
    && (flow.onUnresolved.Some? ==> ShortReview(flow.onUnresolved.value))
  }

  predicate ShortPlan(plan: Plan) {
    && (forall n | n in plan.flows :: ShortFlow(plan.At(n)))
    && (plan.start.StartRoute? ==> ShortRoute(plan.start.entries))
    && (plan.output.Some? ==> Short(plan.output.value))
  }

  lemma OrderStep(plan: Plan, k: nat)
    requires Ordered(plan) && k < |plan.order|
    ensures plan.order[k] in plan.flows && plan.order[k] !in plan.order[..k]
    ensures plan.order[..k + 1] == plan.order[..k] + [plan.order[k]]
  {
    assert plan.order[k] in plan.order;
  }
}
