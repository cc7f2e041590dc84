/** Which record pointers the compiler lets a binding require, and where. */
module Availability {
  import opened Foundations
  import opened Bindings
  import opened Pointers
  import opened Conditions
  import opened Plans
  import opened Acceptance

  // Where a binding is evaluated: by a step after `prior`, by a flow's output, at the
  // workflow boundary after `available`, or in the repeat of a collection item's flow.
  datatype Site =
    | InFlow(steps: seq<Step>, prior: set<string>)
    | AtOutput(steps: seq<Step>)
    | AtBoundary(plan: Plan, available: set<string>)
    | AtItem(plan: Plan, flow: string, available: set<string>)
  {
    // The steps a site inside a flow sees.
    function Steps(): seq<Step> {
      match this
      case InFlow(steps, _) => steps
      case AtOutput(steps) => steps
      case _ => []
    }

    // The plan of a boundary and the flows the compiler counts on there.
    function Plan(): Plan {
      match this
      case AtBoundary(plan, _) => plan
      case AtItem(plan, _, _) => plan
      case _ => Plans.Plan([], map[], StartFlow(""), None)
    }

    function Counted(): set<string> {
      match this
      case AtBoundary(_, available) => available
      case AtItem(_, _, available) => available
      case _ => {}
    }
  }

  function Names(steps: seq<Step>): set<string> {
    set k | 0 <= k < |steps| :: steps[k].name
  }

  function ConditionalNames(steps: seq<Step>): set<string> {
    set k | 0 <= k < |steps| && steps[k].guard.Some? :: steps[k].name
  }

  // The names of the first k steps.
  function NamesBefore(steps: seq<Step>, k: int): set<string> {
    if 0 <= k <= |steps| then Names(steps[..k]) else Names(steps)
  }

  // ---- References ------------------------------------------------------------------

  predicate Heads(tokens: seq<string>, name: string) {
    tokens != [] && tokens[0] == name
  }

  function Second(tokens: seq<string>): string {
    if |tokens| >= 2 then tokens[1] else ""
  }

  // What follows the first n tokens.
  function After(tokens: seq<string>, n: int): seq<string> {
    if 0 <= n <= |tokens| then tokens[n..] else []
  }

  predicate ReadsStep(tokens: seq<string>) {
    |tokens| >= 2 && tokens[0] == "steps"
  }

  predicate ReadsFlows(tokens: seq<string>) {
    |tokens| >= 1 && tokens[0] == "flows"
  }

  predicate FlowPointer(steps: seq<Step>, tokens: seq<string>) {
    && (tokens != [] ==> tokens[0] == "payload" || tokens[0] == "metadata" || tokens[0] == "steps")
    && (ReadsStep(tokens) ==> tokens[1] in Names(steps))
  }

  predicate ReadsRecord(tokens: seq<string>) {
    |tokens| >= 3 && (tokens[2] == "result" || tokens[2] == "attempts")
  }

  // Flows whose record keeps its attempts.
  predicate Attempted(plan: Plan, n: string) {
    n in plan.flows && (plan.At(n).repeat.Some? || n in RetryFlows(plan))
  }

  predicate BoundaryPointer(plan: Plan, tokens: seq<string>) {
    && (tokens != [] ==> tokens[0] == "payload" || tokens[0] == "metadata" || tokens[0] == "flows")
    && (ReadsFlows(tokens) ==>
          && ReadsRecord(tokens) && tokens[1] in plan.flows
          && (plan.At(tokens[1]).callable ==> tokens[1] in RetryFlows(plan))
          && (tokens[2] == "attempts" ==> Attempted(plan, tokens[1])))
  }

  // The records an item-scoped repeat sees: its own and its retry flow's.
  function ItemLocal(plan: Plan, n: string): set<string> {
    {n} + (set r | r in plan.flows && HasRetry(plan, n, r))
  }

  predicate ItemPointer(plan: Plan, n: string, tokens: seq<string>) {
    && (tokens != [] ==> tokens[0] == "payload" || tokens[0] == "metadata" || tokens[0] == "flows")
    && (ReadsFlows(tokens) ==> ReadsRecord(tokens) && tokens[1] in ItemLocal(plan, n))
  }

  // What every pointer must satisfy, with or without a default.
  predicate Known(site: Site, tokens: seq<string>) {
    match site
    case InFlow(steps, _) => FlowPointer(steps, tokens)
    case AtOutput(steps) => FlowPointer(steps, tokens)
    case AtBoundary(plan, _) => BoundaryPointer(plan, tokens)
    case AtItem(plan, flow, _) => ItemPointer(plan, flow, tokens)
  }

  // A record field present only for some outcomes: a handler's selection.
  predicate OptionalField(steps: seq<Step>, tokens: seq<string>) {
    && |tokens| > 2 && tokens[2] == "selection"
    && exists k | 0 <= k < |steps| ::
      steps[k].name == tokens[1] && steps[k].Operation? && steps[k].kind == Handler
  }

  // A required step pointer needs an earlier step; a conditional one only its status.
  predicate StepAvailable(steps: seq<Step>, prior: set<string>, tokens: seq<string>) {
    ReadsStep(tokens) ==>
      && tokens[1] in prior
      && if tokens[1] in ConditionalNames(steps)
         then |tokens| == 2 || (|tokens| == 3 && tokens[2] == "status")
         else !OptionalField(steps, tokens)
  }

  // Every operation may stop for review and a conditional step may be skipped: only
  // an unconditional first step is sure to have run.
  predicate OutputAvailable(steps: seq<Step>, tokens: seq<string>) {
    ReadsStep(tokens) ==>
      && steps != [] && tokens[1] == steps[0].name
      && tokens[1] !in ConditionalNames(steps)
      && !(|tokens| > 2 && tokens[2] == "selection")
  }

  predicate RecordAvailable(available: set<string>, tokens: seq<string>) {
    ReadsFlows(tokens) ==> |tokens| >= 2 && tokens[1] in available
  }

  predicate Available(site: Site, tokens: seq<string>) {
    match site
    case InFlow(steps, prior) => StepAvailable(steps, prior, tokens)
    case AtOutput(steps) => OutputAvailable(steps, tokens)
    case AtBoundary(_, available) => RecordAvailable(available, tokens)
    case AtItem(_, _, available) => RecordAvailable(available, tokens)
  }

  // `_require`: every pointer is known, and a binding without default has an
  // available source.
  predicate Required(site: Site, binding: Binding)
    decreases binding
  {
    match binding
    case Literal(_) => true
    case Pointer(pointer, default) =>
      Known(site, Tokens(pointer)) && (default.Some? || Available(site, Tokens(pointer)))
    case FirstOf(members, default) =>
      && (forall k | 0 <= k < |members| :: Known(site, Tokens(members[k])))
      && (default.Some? || exists k | 0 <= k < |members| :: Available(site, Tokens(members[k])))
    case Fields(fields) => forall k | 0 <= k < |fields| :: Required(site, fields[k].binding)
  }

  predicate RequiredAll(site: Site, pairs: seq<Named>) {
    forall k | 0 <= k < |pairs| :: Required(site, pairs[k].binding)
  }

  // ---- Steps in order ----------------------------------------------------------------

  function ConditionPointers(condition: Condition): seq<string>
    decreases condition, 0
  {
    match condition
    case Leaf(source, _) => PointersOf(source)
    case All(operands) => OperandPointers(operands)
    case AnyOf(operands) => OperandPointers(operands)
    case Not(operand) => ConditionPointers(operand)
  }

  function OperandPointers(operands: seq<Condition>): seq<string>
    decreases operands, 1
  {
    if operands == [] then [] else ConditionPointers(operands[0]) + OperandPointers(operands[1..])
  }

  // A condition tolerates absence, but a later step can never have run.
  predicate GuardAccepted(steps: seq<Step>, prior: set<string>, guard: Option<Condition>) {
    guard.Some? ==>
      forall p | p in ConditionPointers(guard.value) ::
        FlowPointer(steps, Tokens(p)) && (ReadsStep(Tokens(p)) ==> Tokens(p)[1] in prior)
  }

  predicate StepAccepted(steps: seq<Step>, prior: set<string>, step: Step) {
    RequiredAll(InFlow(steps, prior), step.Arguments()) && GuardAccepted(steps, prior, step.guard)
  }

  predicate StepsAccepted(steps: seq<Step>) {
    forall k | 0 <= k < |steps| :: StepAccepted(steps, NamesBefore(steps, k), steps[k])
  }

  // `_validate_bindings`: the first step that reads what cannot have run, with the
  // set of prior steps growing as the loop goes.
  method ValidateBindings(steps: seq<Step>) returns (offender: Option<string>)
    ensures offender.None? <==> StepsAccepted(steps)
    ensures offender.Some? ==> offender.value in Names(steps)
  {
    var prior: set<string> := {};
    for k := 0 to |steps|
      invariant prior == Names(steps[..k])
      invariant forall j | 0 <= j < k :: StepAccepted(steps, Names(steps[..j]), steps[j])
    {
      if !StepAccepted(steps, prior, steps[k]) {
        return Some(steps[k].name);
      }
      NamesGrow(steps, k);
      prior := prior + {steps[k].name};
    }
    return None;
  }

  lemma NamesGrow(steps: seq<Step>, k: nat)
    requires k < |steps|
    ensures Names(steps[..k + 1]) == Names(steps[..k]) + {steps[k].name}
  {
    var after, before := steps[..k + 1], steps[..k];
    forall n ensures n in Names(after) <==> n in Names(before) || n == steps[k].name {
      if n in Names(before) {
        var j :| 0 <= j < k && before[j].name == n;
        assert after[j].name == n;
      }
      if n in Names(after) {
        var j :| 0 <= j <= k && after[j].name == n;
        if j < k {
          assert before[j].name == n;
        }
      }
      if n == steps[k].name {
        assert after[k].name == n;
      }
    }
  }

  predicate OutputAccepted(flow: Flow) {
    flow.output.Some? ==> Required(AtOutput(flow.steps), flow.output.value)
  }

  // ---- The workflow boundary -----------------------------------------------------------

  // Flows a routed flow's repeat can read, beyond its own and its retry flow's record.
  function Before(plan: Plan, graph: FlowGraph, n: string): set<string> {
    if n in graph.dominators then graph.dominators[n] - {n} else {}
  }

  // `may_have_run`: flows that can have a record when this flow's routes are evaluated.
  function MayHaveRun(plan: Plan, graph: FlowGraph, n: string): set<string> {
    var routed := (if n in graph.ancestors then graph.ancestors[n] else {}) + {n};
    routed + set a | a in routed && a in plan.flows && plan.At(a).repeat.Some? && !plan.At(a).callable
                     && plan.At(a).Repeating().retryFlow.Some? :: plan.At(a).Repeating().retryFlow.value
  }

  // `_check_scope`: a condition tolerates absence, but not flows that can never have run.
  predicate ConditionScoped(plan: Plan, allowed: set<string>, condition: Condition) {
    forall p | p in ConditionPointers(condition) ::
      BoundaryPointer(plan, Tokens(p)) && (ReadsFlows(Tokens(p)) ==> Tokens(p)[1] in allowed)
  }

  predicate ItemScoped(plan: Plan, n: string, condition: Condition) {
    forall p | p in ConditionPointers(condition) :: ItemPointer(plan, n, Tokens(p))
  }

  // The conditions of a repeat; continue_when also sees the retry flow.
  predicate RepeatScoped(plan: Plan, graph: FlowGraph, n: string)
    requires plan.At(n).repeat.Some?
  {
    var repeat := plan.At(n).Repeating();
    if plan.At(n).callable then
      && ItemScoped(plan, n, repeat.until)
      && (repeat.retryFlow.Some? && repeat.continueWhen.Some? ==> ItemScoped(plan, n, repeat.continueWhen.value))
    else
      && ConditionScoped(plan, MayHaveRun(plan, graph, n), repeat.until)
      && (repeat.retryFlow.Some? && repeat.continueWhen.Some? ==>
            ConditionScoped(plan, MayHaveRun(plan, graph, n) + {repeat.retryFlow.value}, repeat.continueWhen.value))
  }

  predicate RoutedAccepted(plan: Plan, graph: FlowGraph, n: string) {
    var flow := plan.At(n);
    && RequiredAll(AtBoundary(plan, Before(plan, graph, n)), flow.input)
    && (flow.transition.Some? && flow.transition.value.Cases? ==>
          Required(AtBoundary(plan, Before(plan, graph, n) + {n}), flow.transition.value.binding))
    && (flow.repeat.Some? ==>
          && RequiredAll(AtBoundary(plan, Before(plan, graph, n) + {n}), flow.Repeating().retryFlowInput)
          && RequiredAll(AtBoundary(plan, Before(plan, graph, n) + ItemLocal(plan, n)), flow.Repeating().retryInput))
  }

  predicate CallableAccepted(plan: Plan, n: string) {
    var flow := plan.At(n);
    flow.repeat.Some? ==>
      && RequiredAll(AtItem(plan, n, {n}), flow.Repeating().retryFlowInput)
      && RequiredAll(AtItem(plan, n, ItemLocal(plan, n)), flow.Repeating().retryInput)
  }

  predicate FlowAccepted(plan: Plan, graph: FlowGraph, n: string) {
    && StepsAccepted(plan.At(n).steps)
    && OutputAccepted(plan.At(n))
    && (plan.At(n).repeat.Some? ==> RepeatScoped(plan, graph, n))
    && if plan.At(n).callable then CallableAccepted(plan, n) else RoutedAccepted(plan, graph, n)
  }

  // Flows at which a run can end.
  predicate Terminal(plan: Plan, n: string) {
    Routed(plan, n)
    && (plan.At(n).onUnresolved.None?
        || exists k | 0 <= k < |FlowTargets(plan.At(n))| :: FlowTargets(plan.At(n))[k].ToOutcome?)
  }

  // The flows every terminal flow is dominated by; none without a terminal flow.
  ghost predicate EverywhereBefore(plan: Plan, graph: FlowGraph, available: set<string>) {
    && ((exists t :: Terminal(plan, t)) ==>
          forall d :: d in available <==> forall t | Terminal(plan, t) ::
              t in graph.dominators && d in graph.dominators[t])
    && ((forall t :: !Terminal(plan, t)) ==> available == {})
  }

  ghost predicate PlanAccepted(plan: Plan, graph: FlowGraph) {
    && (forall n | n in plan.flows :: FlowAccepted(plan, graph, n))
    && (plan.output.Some? ==>
          exists available :: EverywhereBefore(plan, graph, available)
                              && Required(AtBoundary(plan, available), plan.output.value))
  }

  ghost predicate InAll<N(!new)>(sets: map<N, set<N>>, names: seq<N>, d: N) {
    forall k | 0 <= k < |names| :: names[k] in sets && d in sets[names[k]]
  }

  method Intersection<N(==, !new)>(sets: map<N, set<N>>, names: seq<N>) returns (common: set<N>)
    requires names != [] && forall n | n in names :: n in sets
    ensures forall d :: d in common <==> InAll(sets, names, d)
  {
    common := sets[names[0]];
    for k := 1 to |names|
      invariant forall d :: d in common <==> InAll(sets, names[..k], d)
    {
      assert names[..k + 1] == names[..k] + [names[k]];
      common := common * sets[names[k]];
    }
    assert names[..|names|] == names;
  }

  function Terminals(plan: Plan, names: seq<string>): (terminals: seq<string>)
    ensures forall t :: t in terminals <==> t in names && Terminal(plan, t)
  {
    if names == [] then []
    else (if Terminal(plan, names[0]) then [names[0]] else []) + Terminals(plan, names[1..])
  }

  method FlowsEverywhereBefore(plan: Plan, graph: FlowGraph) returns (available: set<string>)
    requires Plans.Ordered(plan) && forall n | Routed(plan, n) :: n in graph.dominators
    ensures EverywhereBefore(plan, graph, available)
  {
    var terminals := Terminals(plan, plan.order);
    forall t ensures t in terminals <==> Terminal(plan, t) {
      assert t in plan.flows ==> t in plan.order;
    }
    if terminals == [] {
      return {};
    }
    available := Intersection(graph.dominators, terminals);
    assert Terminal(plan, terminals[0]);
    forall d ensures InAll(graph.dominators, terminals, d) <==>
                     forall t | Terminal(plan, t) :: t in graph.dominators && d in graph.dominators[t]
    {
    }
  }

  lemma EverywhereIsUnique(plan: Plan, graph: FlowGraph, one: set<string>, other: set<string>)
    requires EverywhereBefore(plan, graph, one) && EverywhereBefore(plan, graph, other)
    ensures one == other
  {
    if t :| Terminal(plan, t) {
      assert forall d :: d in one <==> d in other;
    }
  }

  // The availability part of `_validate_boundaries` and of the flow compiler: the
  // first flow with an unavailable reference, "" for the workflow output.
  method ValidateAvailability(plan: Plan, graph: FlowGraph) returns (offender: Option<string>)
    requires Plans.Ordered(plan) && forall n | Routed(plan, n) :: n in graph.dominators
    ensures offender.None? <==> PlanAccepted(plan, graph)
  {
    for k := 0 to |plan.order|
      invariant forall n | n in plan.order[..k] :: n in plan.flows && FlowAccepted(plan, graph, n)
    {
      var n := plan.order[k];
      OrderStep(plan, k);
      var broken := ValidateBindings(plan.At(n).steps);
      if broken.Some? || !FlowAccepted(plan, graph, n) {
        return Some(n);
      }
    }
    assert plan.order[..|plan.order|] == plan.order;
    assert forall n | n in plan.flows :: n in plan.order;
    if plan.output.Some? {
      var available := FlowsEverywhereBefore(plan, graph);
      if !Required(AtBoundary(plan, available), plan.output.value) {
        forall other | EverywhereBefore(plan, graph, other)
          ensures !Required(AtBoundary(plan, other), plan.output.value)
        {
          EverywhereIsUnique(plan, graph, available, other);
        }
        return Some("");
      }
    }
    return None;
  }
}
