/**
 Where the compiler lets a required pointer read a step or a flow, said by position and path:
 by an earlier step, and by a flow that every path of the routes goes through.
 */
module PointerRules {
  import opened Foundations
  import opened Json
  import opened Pointers
  import opened Bindings
  import opened Conditions
  import opened Graphs
  import opened Dominators
  import opened Plans
  import opened Records
  import opened Engine
  import opened Acceptance
  import opened GraphValidation
  import opened Availability

  predicate StepPointer(tokens: seq<string>, n: string, tail: seq<string>) {
    tokens == ["steps", n] + tail
  }

  predicate SelectsBelow(tail: seq<string>) {
    tail != [] && tail[0] == "selection"
  }

  // What may be required of an earlier step.
  predicate Readable(step: Step, tail: seq<string>) {
    if step.guard.Some? then tail == [] || tail == ["status"]
    else !(SelectsBelow(tail) && step.Operation? && step.kind == Handler)
  }

  // The first k steps, said by position.
  lemma NamedBefore(steps: seq<Step>, k: nat, n: string)
    requires k <= |steps|
    ensures n in NamesBefore(steps, k) <==> exists j :: 0 <= j < k && steps[j].name == n
  {
    if n in NamesBefore(steps, k) {
      var j :| 0 <= j < k && steps[..k][j].name == n;
      assert steps[j].name == n;
    }
    if j :| 0 <= j < k && steps[j].name == n {
      assert steps[..k][j].name == n;
    }
  }

  lemma OnlyOne(steps: seq<Step>, i: nat, j: nat)
    requires DistinctNames(steps) && i < |steps| && j < |steps| && steps[i].name == steps[j].name
    ensures i == j
  {
  }

  // Of distinct steps, the one of this name decides what its name stands for.
  lemma NamedOnce(steps: seq<Step>, j: nat, tail: seq<string>)
    requires DistinctNames(steps) && j < |steps|
    ensures steps[j].name in ConditionalNames(steps) <==> steps[j].guard.Some?
    ensures OptionalField(steps, ["steps", steps[j].name] + tail)
            <==> SelectsBelow(tail) && steps[j].Operation? && steps[j].kind == Handler
  {
    var tokens := ["steps", steps[j].name] + tail;
    assert tail != [] ==> tokens[2] == tail[0];
    forall i | 0 <= i < |steps| && steps[i].name == steps[j].name ensures i == j {
      OnlyOne(steps, i, j);
    }
  }

  // A step requires a pointer into another step exactly when that one comes before it and
  // always shows what is read.
  lemma StepPointerRule(steps: seq<Step>, k: nat, pointer: string, n: string, tail: seq<string>)
    requires DistinctNames(steps) && k <= |steps| && StepPointer(Tokens(pointer), n, tail)
    ensures Required(InFlow(steps, NamesBefore(steps, k)), Pointer(pointer, None))
            <==> exists j :: 0 <= j < k && steps[j].name == n && Readable(steps[j], tail)
  {
    var tokens := Tokens(pointer);
    assert tail != [] ==> tokens[2] == tail[0];
    assert |tokens| == 3 ==> tail == [tokens[2]];
    NamedBefore(steps, k, n);
    if j :| 0 <= j < k && steps[j].name == n {
      NamedOnce(steps, j, tail);
      assert steps[j].name in Names(steps);
      forall i | 0 <= i < k && steps[i].name == n ensures i == j {
        OnlyOne(steps, i, j);
      }
    }
  }

  // ---- What a condition reads -------------------------------------------------------------------------

  // The condition has this leaf.
  predicate Has(condition: Condition, source: Binding, operator: Operator)
    decreases condition
  {
    match condition
    case Leaf(s, o) => s == source && o == operator
    case All(operands) => exists k | 0 <= k < |operands| :: Has(operands[k], source, operator)
    case AnyOf(operands) => exists k | 0 <= k < |operands| :: Has(operands[k], source, operator)
    case Not(operand) => Has(operand, source, operator)
  }

  ghost predicate Mentions(condition: Condition, p: string) {
    exists source, operator :: Has(condition, source, operator) && p in PointersOf(source)
  }

  ghost predicate SomeMentions(operands: seq<Condition>, p: string) {
    exists k :: 0 <= k < |operands| && Mentions(operands[k], p)
  }

  // The pointers of a condition are those its leaves read.
  lemma {:induction false} PointersIff(condition: Condition, p: string)
    ensures p in ConditionPointers(condition) <==> Mentions(condition, p)
    decreases condition, 0
  {
    match condition
    case Leaf(source, operator) =>
      assert Has(condition, source, operator);
    case All(operands) =>
      OperandsIff(operands, p);
      AnyOperand(condition, operands, p);
    case AnyOf(operands) =>
      OperandsIff(operands, p);
      AnyOperand(condition, operands, p);
    case Not(operand) =>
      PointersIff(operand, p);
      assert forall source, operator :: Has(condition, source, operator) <==> Has(operand, source, operator);
  }

  lemma AnyOperand(condition: Condition, operands: seq<Condition>, p: string)
    requires condition == All(operands) || condition == AnyOf(operands)
    ensures Mentions(condition, p) <==> SomeMentions(operands, p)
  {
    if Mentions(condition, p) {
      var source, operator :| Has(condition, source, operator) && p in PointersOf(source);
      var k :| 0 <= k < |operands| && Has(operands[k], source, operator);
      assert Mentions(operands[k], p);
    }
    if k :| 0 <= k < |operands| && Mentions(operands[k], p) {
      var source, operator :| Has(operands[k], source, operator) && p in PointersOf(source);
      assert Has(condition, source, operator);
    }
  }

  lemma {:induction false} OperandsIff(operands: seq<Condition>, p: string)
    ensures p in OperandPointers(operands) <==> SomeMentions(operands, p)
    decreases operands, 1
  {
    if operands != [] {
      var rest := operands[1..];
      PointersIff(operands[0], p);
      OperandsIff(rest, p);
      SomeFirst(operands, p);
      assert OperandPointers(operands) == ConditionPointers(operands[0]) + OperandPointers(rest);
    }
  }

  lemma SomeFirst(operands: seq<Condition>, p: string)
    requires operands != []
    ensures SomeMentions(operands, p) <==> Mentions(operands[0], p) || SomeMentions(operands[1..], p)
  {
    var rest := operands[1..];
    if SomeMentions(operands, p) {
      var k :| 0 <= k < |operands| && Mentions(operands[k], p);
      assert k > 0 ==> rest[k - 1] == operands[k];
    }
    if SomeMentions(rest, p) {
      var k :| 0 <= k < |rest| && Mentions(rest[k], p);
      assert operands[k + 1] == rest[k];
    }
  }

  // A guard may read the payload, the metadata and the steps before it.
  predicate GuardReads(steps: seq<Step>, k: nat, tokens: seq<string>)
    requires k <= |steps|
  {
    || tokens == [] || tokens[0] == "payload" || tokens[0] == "metadata"
    || (tokens[0] == "steps" && (|tokens| == 1 || exists j | 0 <= j < k :: steps[j].name == tokens[1]))
  }

  lemma GuardRule(steps: seq<Step>, k: nat, condition: Condition)
    requires k <= |steps|
    ensures GuardAccepted(steps, NamesBefore(steps, k), Some(condition))
            <==> forall p | Mentions(condition, p) :: GuardReads(steps, k, Tokens(p))
  {
    forall p
      ensures p in ConditionPointers(condition) <==> Mentions(condition, p)
      ensures FlowPointer(steps, Tokens(p)) && (ReadsStep(Tokens(p)) ==> Tokens(p)[1] in NamesBefore(steps, k))
              <==> GuardReads(steps, k, Tokens(p))
    {
      PointersIff(condition, p);
      if ReadsStep(Tokens(p)) {
        NamedBefore(steps, k, Tokens(p)[1]);
        if j :| 0 <= j < k && steps[j].name == Tokens(p)[1] {
          assert steps[j].name in Names(steps);
        }
      }
    }
  }

  // A flow's output requires a pointer into its first step only, when that is sure to run.
  lemma OutputPointerRule(steps: seq<Step>, pointer: string, n: string, tail: seq<string>)
    requires DistinctNames(steps) && StepPointer(Tokens(pointer), n, tail)
    ensures Required(AtOutput(steps), Pointer(pointer, None))
            <==> steps != [] && steps[0].name == n && steps[0].guard.None? && !SelectsBelow(tail)
  {
    var tokens := Tokens(pointer);
    assert tail != [] ==> tokens[2] == tail[0];
    if steps != [] && steps[0].name == n {
      NamedOnce(steps, 0, tail);
      assert steps[0].name in Names(steps);
    }
  }

  // What a skipped step shows: why no more may be required of a conditional step, nor
  // anything of a step that comes later.
  lemma SkippedShows(step: Step, tail: seq<string>)
    ensures Walk(tail, StepData(SkippedStep(step))).Some?
            <==> tail == [] || tail == ["status"] || (step.Collection? && tail == ["kind"])
  {
    if tail != [] {
      var rest := tail[1..];
      assert tail == [tail[0]] + rest;
      assert Walk(rest, Str("skipped")).Some? <==> rest == [];
      assert Walk(rest, Str("flow_collection")).Some? <==> rest == [];
    }
  }

  // A handler may complete without a selection.
  lemma UnselectedShows(result: Json, usage: Accounting.Usage, tail: seq<string>)
    requires SelectsBelow(tail)
    ensures Walk(tail, StepData(StepRecord(Completed, Some(result), None, Some(usage), None, None, false))).None?
  {
  }

  // ---- The workflow boundary ------------------------------------------------------------------------

  ghost predicate IsRetry(plan: Plan, n: string) {
    exists a :: Routed(plan, a) && HasRetry(plan, a, n)
  }

  lemma RetryFlow(plan: Plan, n: string)
    ensures n in RetryFlows(plan) <==> IsRetry(plan, n)
  {
    if n in RetryFlows(plan) {
      var a :| Routed(plan, a) && plan.At(a).repeat.Some? && plan.At(a).Repeating().retryFlow.Some?
        && plan.At(a).Repeating().retryFlow.value == n;
      assert plan.At(a).Repeating().retryFlow == Some(n);
      assert HasRetry(plan, a, n);
    }
  }

  // The flow a pointer reads, when it reads one.
  ghost predicate FlowField(plan: Plan, n: string, field: string) {
    && n in plan.flows
    && (plan.At(n).callable ==> IsRetry(plan, n))
    && (field == "result" || (field == "attempts" && (plan.At(n).repeat.Some? || IsRetry(plan, n))))
  }

  ghost predicate Spelled(plan: Plan, tokens: seq<string>) {
    || tokens == [] || tokens[0] == "payload" || tokens[0] == "metadata"
    || (|tokens| >= 3 && tokens[0] == "flows" && FlowField(plan, tokens[1], tokens[2]))
  }

  // When a routed flow's own bindings are resolved: before it runs, after an attempt, and after
  // the retry run that follows.
  datatype Moment = OnEntry | AfterRun | AfterRetry

  // The flow has run at that moment, whichever way the run came.
  ghost predicate SureToHaveRun(plan: Plan, m: string, moment: Moment, n: string) {
    match moment
    case OnEntry => n != m && OnEveryEntryPath(Routes(plan), Roots(plan), n, m)
    case AfterRun => OnEveryEntryPath(Routes(plan), Roots(plan), n, m)
    case AfterRetry => OnEveryEntryPath(Routes(plan), Roots(plan), n, m) || HasRetry(plan, m, n)
  }

  ghost predicate Sure(plan: Plan, m: string, moment: Moment, tokens: seq<string>) {
    |tokens| >= 2 && tokens[0] == "flows" ==> SureToHaveRun(plan, m, moment, tokens[1])
  }

  // Without a default, a binding needs what is sure: of a first_of one member.
  ghost predicate Backs(plan: Plan, m: string, moment: Moment, binding: Binding)
    decreases binding
  {
    match binding
    case Literal(_) => true
    case Pointer(pointer, default) =>
      Spelled(plan, Tokens(pointer)) && (default.Some? || Sure(plan, m, moment, Tokens(pointer)))
    case FirstOf(members, default) =>
      && (forall p | p in members :: Spelled(plan, Tokens(p)))
      && (default.Some? || exists p :: p in members && Sure(plan, m, moment, Tokens(p)))
    case Fields(fields) => forall k | 0 <= k < |fields| :: Backs(plan, m, moment, fields[k].binding)
  }

  ghost predicate BacksAll(plan: Plan, m: string, moment: Moment, pairs: seq<Named>) {
    forall k | 0 <= k < |pairs| :: Backs(plan, m, moment, pairs[k].binding)
  }

  // The flows the compiler counts on then.
  function CountedOn(plan: Plan, graph: FlowGraph, m: string, moment: Moment): set<string> {
    match moment
    case OnEntry => Availability.Before(plan, graph, m)
    case AfterRun => Availability.Before(plan, graph, m) + {m}
    case AfterRetry => Availability.Before(plan, graph, m) + ItemLocal(plan, m)
  }

  lemma SpelledIsKnown(plan: Plan, available: set<string>, tokens: seq<string>)
    ensures Known(AtBoundary(plan, available), tokens) <==> Spelled(plan, tokens)
  {
    if |tokens| >= 2 {
      RetryFlow(plan, tokens[1]);
    }
  }

  lemma CountedIsSure(plan: Plan, graph: FlowGraph, m: string, moment: Moment, n: string)
    requires Exact(plan, graph) && Routed(plan, m) && n in plan.flows
    ensures n in CountedOn(plan, graph, m, moment) <==> SureToHaveRun(plan, m, moment, n)
  {
    assert m in Routes(plan);
    assert OnEveryEntryPath(Routes(plan), Roots(plan), m, m);
  }

  lemma AvailableIsSure(plan: Plan, graph: FlowGraph, m: string, moment: Moment, tokens: seq<string>)
    requires Exact(plan, graph) && Routed(plan, m) && Spelled(plan, tokens)
    ensures Available(AtBoundary(plan, CountedOn(plan, graph, m, moment)), tokens) <==> Sure(plan, m, moment, tokens)
  {
    var available := CountedOn(plan, graph, m, moment);
    assert Available(AtBoundary(plan, available), tokens) <==> RecordAvailable(available, tokens);
    if ReadsFlows(tokens) {
      CountedIsSure(plan, graph, m, moment, tokens[1]);
    }
  }

  lemma MemberRule(plan: Plan, graph: FlowGraph, m: string, moment: Moment, p: string)
    requires Exact(plan, graph) && Routed(plan, m)
    ensures var site := AtBoundary(plan, CountedOn(plan, graph, m, moment));
            && (Known(site, Tokens(p)) <==> Spelled(plan, Tokens(p)))
            && (Spelled(plan, Tokens(p)) ==> (Available(site, Tokens(p)) <==> Sure(plan, m, moment, Tokens(p))))
  {
    SpelledIsKnown(plan, CountedOn(plan, graph, m, moment), Tokens(p));
    if Spelled(plan, Tokens(p)) {
      AvailableIsSure(plan, graph, m, moment, Tokens(p));
    }
  }

  lemma FirstOfRule(plan: Plan, graph: FlowGraph, m: string, moment: Moment, members: seq<string>,
                    default: Option<Json>)
    requires Exact(plan, graph) && Routed(plan, m)
    ensures Required(AtBoundary(plan, CountedOn(plan, graph, m, moment)), FirstOf(members, default))
            <==> Backs(plan, m, moment, FirstOf(members, default))
  {
    forall k | 0 <= k < |members|
      ensures var site, tokens := AtBoundary(plan, CountedOn(plan, graph, m, moment)), Tokens(members[k]);
              && (Known(site, tokens) <==> Spelled(plan, tokens))
              && (Spelled(plan, tokens) ==> (Available(site, tokens) <==> Sure(plan, m, moment, tokens)))
    {
      MemberRule(plan, graph, m, moment, members[k]);
    }
  }

  // A binding of a routed flow is accepted exactly when it is backed on every path.
  lemma {:induction false} BindingRule(plan: Plan, graph: FlowGraph, m: string, moment: Moment, binding: Binding)
    requires Exact(plan, graph) && Routed(plan, m)
    ensures Required(AtBoundary(plan, CountedOn(plan, graph, m, moment)), binding) <==> Backs(plan, m, moment, binding)
    decreases binding
  {
    var available := CountedOn(plan, graph, m, moment);
    match binding
    case Literal(_) =>
    case Pointer(pointer, default) =>
      MemberRule(plan, graph, m, moment, pointer);
    case FirstOf(members, default) =>
      FirstOfRule(plan, graph, m, moment, members, default);
    case Fields(fields) =>
      forall k | 0 <= k < |fields|
        ensures Required(AtBoundary(plan, available), fields[k].binding) <==> Backs(plan, m, moment, fields[k].binding)
      {
        BindingRule(plan, graph, m, moment, fields[k].binding);
      }
  }

  lemma BindingsRule(plan: Plan, graph: FlowGraph, m: string, moment: Moment, pairs: seq<Named>)
    requires Exact(plan, graph) && Routed(plan, m)
    ensures RequiredAll(AtBoundary(plan, CountedOn(plan, graph, m, moment)), pairs)
            <==> BacksAll(plan, m, moment, pairs)
  {
    forall k | 0 <= k < |pairs|
      ensures Required(AtBoundary(plan, CountedOn(plan, graph, m, moment)), pairs[k].binding)
              <==> Backs(plan, m, moment, pairs[k].binding)
    {
      BindingRule(plan, graph, m, moment, pairs[k].binding);
    }
  }

  // All the bindings of a routed flow, each at its moment.
  ghost predicate RoutedBacked(plan: Plan, m: string) {
    var flow := plan.At(m);
    && BacksAll(plan, m, OnEntry, flow.input)
    && (match flow.transition
        case Some(Cases(binding, _, _, _)) => Backs(plan, m, AfterRun, binding)
        case _ => true)
    && match flow.repeat
       case None => true
       case Some(repeat) =>
         BacksAll(plan, m, AfterRun, repeat.retryFlowInput) && BacksAll(plan, m, AfterRetry, repeat.retryInput)
  }

  lemma RoutedRule(plan: Plan, graph: FlowGraph, m: string)
    requires Exact(plan, graph) && Routed(plan, m)
    ensures RoutedAccepted(plan, graph, m) <==> RoutedBacked(plan, m)
  {
    var flow := plan.At(m);
    BindingsRule(plan, graph, m, OnEntry, flow.input);
    if flow.transition.Some? && flow.transition.value.Cases? {
      BindingRule(plan, graph, m, AfterRun, flow.transition.value.binding);
    }
    if flow.repeat.Some? {
      BindingsRule(plan, graph, m, AfterRun, flow.Repeating().retryFlowInput);
      BindingsRule(plan, graph, m, AfterRetry, flow.Repeating().retryInput);
    }
  }

  // A condition may read what some path lets have run: the flow itself, one that leads to it, and
  // the retry flow of such a one.
  ghost predicate MayPrecede(plan: Plan, m: string, n: string) {
    n == m || Beyond(Routes(plan), n, m)
  }

  ghost predicate CanHaveRun(plan: Plan, m: string, n: string) {
    MayPrecede(plan, m, n) || exists a :: Routed(plan, a) && MayPrecede(plan, m, a) && HasRetry(plan, a, n)
  }

  ghost predicate Readably(plan: Plan, m: string, condition: Condition) {
    forall p | Mentions(condition, p) ::
      && Spelled(plan, Tokens(p))
      && (|Tokens(p)| >= 2 && Tokens(p)[0] == "flows" ==> CanHaveRun(plan, m, Tokens(p)[1]))
  }

  lemma ScopeRule(plan: Plan, graph: FlowGraph, m: string, condition: Condition)
    requires Exact(plan, graph) && Routed(plan, m)
    ensures ConditionScoped(plan, MayHaveRun(plan, graph, m), condition) <==> Readably(plan, m, condition)
  {
    assert m in Routes(plan);
    forall p
      ensures p in ConditionPointers(condition) <==> Mentions(condition, p)
      ensures BoundaryPointer(plan, Tokens(p)) <==> Spelled(plan, Tokens(p))
    {
      PointersIff(condition, p);
      SpelledIsKnown(plan, {}, Tokens(p));
    }
    forall n ensures n in MayHaveRun(plan, graph, m) <==> CanHaveRun(plan, m, n) {
      assert forall a :: a in graph.ancestors[m] + {m} <==> MayPrecede(plan, m, a);
    }
  }

  // What the workflow's output may require: a flow on every path to every flow a run can end at.
  ghost predicate AlwaysRun(plan: Plan, n: string) {
    && (exists t :: Terminal(plan, t))
    && forall t | Terminal(plan, t) :: OnEveryEntryPath(Routes(plan), Roots(plan), n, t)
  }

  lemma OutputRule(plan: Plan, graph: FlowGraph, available: set<string>, pointer: string)
    requires Exact(plan, graph) && EverywhereBefore(plan, graph, available)
    ensures var tokens := Tokens(pointer);
            Required(AtBoundary(plan, available), Pointer(pointer, None))
            <==> Spelled(plan, tokens) && (|tokens| >= 2 && tokens[0] == "flows" ==> AlwaysRun(plan, tokens[1]))
  {
    var tokens := Tokens(pointer);
    SpelledIsKnown(plan, available, tokens);
    assert forall t | Terminal(plan, t) :: t in Routes(plan);
  }

  // ---- Item repeats ---------------------------------------------------------------------------------

  // In the repeat of an item's flow: its own record, and after a retry run that of its retry flow.
  predicate SeenByItem(plan: Plan, m: string, retried: bool, n: string) {
    n == m || (retried && n in plan.flows && HasRetry(plan, m, n))
  }

  // A pointer in an item repeat is accepted exactly when it reads such a record.
  lemma ItemRule(plan: Plan, m: string, retried: bool, pointer: string, n: string, field: string, tail: seq<string>)
    requires Tokens(pointer) == ["flows", n, field] + tail
    ensures Required(AtItem(plan, m, if retried then ItemLocal(plan, m) else {m}), Pointer(pointer, None))
            <==> (field == "result" || field == "attempts") && SeenByItem(plan, m, retried, n)
  {
    var tokens := Tokens(pointer);
    assert tokens[1] == n && tokens[2] == field;
  }
}
