/**
 The compiler's view of flows known to have completed: the defaults of output pointers to
 unconditional steps are dropped.  Such a default can still apply, when the step's result lacks
 the value; what is claimed of completed flows holds exactly when none did.  A plan of two flows
 is accepted by that claim and has a run in which it does not hold.
 */
module StaticCompletion {
  import opened Foundations
  import opened Json
  import opened Pointers
  import opened Bindings
  import opened Plans
  import opened Records
  import opened Engine
  import opened Availability
  import opened Readiness
  import opened StaticSchemas
  import opened StaticValues
  import opened StaticConditions
  import opened StaticScopes
  import opened StaticResults
  import opened Routing
  import opened Acceptance
  import opened GraphValidation
  import opened Trails
  import opened FlowRows
  import opened Tightness
  import Accounting

  // ---- Dropping defaults -----------------------------------------------------------------

  // A pointer with a default to a step that always runs.
  predicate Drops(pointer: string, default: Option<Json>, conditional: set<string>) {
    default.Some? && ReadsStep(Tokens(pointer)) && Tokens(pointer)[1] !in conditional
  }

  // `completion_binding`.
  function CompletionBinding(binding: Binding, conditional: set<string>): Binding
    decreases binding
  {
    match binding
    case Pointer(pointer, default) =>
      if Drops(pointer, default, conditional) then Pointer(pointer, None) else binding
    case Fields(fields) =>
      Fields(seq(|fields|, k requires 0 <= k < |fields| =>
                   Named(fields[k].name, CompletionBinding(fields[k].binding, conditional))))
    case _ => binding
  }

  // A dropped default is what resolution delivered.
  predicate Defaulted(binding: Binding, conditional: set<string>, context: Json)
    decreases binding
  {
    match binding
    case Pointer(pointer, default) => Drops(pointer, default, conditional) && Walk(Tokens(pointer), context).None?
    case Fields(fields) => exists k | 0 <= k < |fields| :: Defaulted(fields[k].binding, conditional, context)
    case _ => false
  }

  // Where a binding delivers a value, the binding without the defaults delivers the same
  // exactly when none of them applied; otherwise it is missing.
  lemma {:induction false} CompletionAgrees(binding: Binding, conditional: set<string>, context: Json)
    requires ResolveBinding(binding, context).Ok?
    ensures ResolveBinding(CompletionBinding(binding, conditional), context)
            == if Defaulted(binding, conditional, context) then Err(MissingBinding)
                else ResolveBinding(binding, context)
    decreases binding, 1
  {
    if binding.Fields? {
      FieldsAgree(binding.fields, CompletionBinding(binding, conditional).fields, 0, map[], conditional, context);
    }
  }

  lemma {:induction false} FieldsAgree(fields: seq<Named>, dropped: seq<Named>, k: nat, values: Object,
                                       conditional: set<string>, context: Json)
    requires |dropped| == |fields| && k <= |fields| && ResolveFrom(fields, k, values, context).Ok?
    requires forall j | 0 <= j < |fields| ::
               dropped[j] == Named(fields[j].name, CompletionBinding(fields[j].binding, conditional))
    ensures ResolveFrom(dropped, k, values, context)
            == if exists j ::
                k <= j < |fields| && Defaulted(fields[j].binding, conditional, context) then Err(MissingBinding)
               else ResolveFrom(fields, k, values, context)
    decreases fields, 0, |fields| - k
  {
    if k < |fields| {
      CompletionAgrees(fields[k].binding, conditional, context);
      var value := ResolveBinding(fields[k].binding, context).value;
      FieldsAgree(fields, dropped, k + 1, values[fields[k].name := value], conditional, context);
    }
  }

  lemma {:induction false} CompletionAuthored(binding: Binding, conditional: set<string>)
    requires Authored(binding) && NarrowBinding(binding)
    ensures Authored(CompletionBinding(binding, conditional)) && NarrowBinding(CompletionBinding(binding, conditional))
    decreases binding
  {
    if binding.Fields? {
      var fields := binding.fields;
      forall k | 0 <= k < |fields|
        ensures Authored(CompletionBinding(fields[k].binding, conditional))
        ensures NarrowBinding(CompletionBinding(fields[k].binding, conditional))
      {
        CompletionAuthored(fields[k].binding, conditional);
      }
    }
  }

  // ---- The scope of completed flows ---------------------------------------------------------

  // `WorkflowScope.flow_result` of a completed flow.
  function CompletedResult(c: Catalog, flow: Flow): Static {
    if flow.output.None? then FlowResult(c, flow)
    else BindingStatic(c.links, CompletionBinding(flow.output.value, ConditionalNames(flow.steps)),
                       FlowResolver(c.links, ScopeInside(c, flow)))
  }

  // A delivered result in which no dropped default applied.
  ghost predicate Undefaulted(e: Engine, flow: Flow, value: Json) {
    if flow.output.None? then Accepted(e, flow.name, value)
    else exists payload, records ::
      && IsProjection(e, flow, flow.output.value, payload, records, value)
      && !Defaulted(flow.output.value, ConditionalNames(flow.steps), FlowContext(payload, e.metadata, records))
  }

  lemma UndefaultedCovered(e: Engine, c: Catalog, flow: Flow, value: Json)
    requires Undefaulted(e, flow, value) && FlowConforms(e, c, flow) && OutputReadable(flow)
    ensures Covers(c.links, CompletedResult(c, flow), value)
  {
    if flow.output.None? {
      DeliveredCovered(e, c, flow, value);
    } else {
      var payload, records :|
        && IsProjection(e, flow, flow.output.value, payload, records, value)
        && !Defaulted(flow.output.value, ConditionalNames(flow.steps), FlowContext(payload, e.metadata, records));
      var scope, conditional := ScopeInside(c, flow), ConditionalNames(flow.steps);
      var context := FlowContext(payload, e.metadata, records);
      InputFits(e, c, flow.name, payload, OPEN);
      ProducedFits(e, c, flow, records);
      FlowScopeFits(c.links, scope, payload, e.metadata, records);
      CompletionAuthored(flow.output.value, conditional);
      CompletionAgrees(flow.output.value, conditional, context);
      BindingCovers(c.links, CompletionBinding(flow.output.value, conditional), FlowResolver(c.links, scope), context);
    }
  }

  // `completed_at`.
  function CompletedScope(c: Catalog, plan: Plan, completed: set<string>): WorkflowScope {
    WorkflowScope(c.payload,
                  map n | n in plan.flows ::
                    if n in completed then CompletedResult(c, plan.At(n)) else FlowResult(c, plan.At(n)))
  }

  // Every result of the record is delivered, without a dropped default where completed.
  ghost predicate ResultOf(e: Engine, flow: Flow, completed: bool, result: Option<Json>) {
    result.Some? ==> if completed then Undefaulted(e, flow, result.value) else Delivered(e, flow, result.value)
  }

  ghost predicate RecordOf(e: Engine, flow: Flow, completed: bool, record: FlowRecord) {
    && ResultOf(e, flow, completed, record.result)
    && forall k {:trigger record.attempts[k]} | 0 <= k < |record.attempts| ::
         ResultOf(e, flow, completed, record.attempts[k].result)
  }

  lemma ResultFitsCompleted(e: Engine, c: Catalog, flow: Flow, completed: bool, result: Option<Json>)
    requires ResultOf(e, flow, completed, result) && FlowConforms(e, c, flow) && OutputReadable(flow)
    ensures ResultFits(c.links, if completed then CompletedResult(c, flow) else FlowResult(c, flow), result)
  {
    if result.Some? {
      if completed {
        UndefaultedCovered(e, c, flow, result.value);
      } else {
        DeliveredCovered(e, c, flow, result.value);
      }
    }
  }

  // Whatever a pointer finds at a boundary is covered by the scope of the completed flows,
  // provided that no dropped default applied in them.
  lemma CompletedScopeFits(e: Engine, c: Catalog, completed: set<string>, payload: Json, records: FlowRecords)
    requires Conforms(e, c) && Valid(c.links, c.payload, payload)
    requires forall n | n in records && n in e.plan.flows :: RecordOf(e, e.plan.At(n), n in completed, records[n])
    ensures Fitting(c.links, WorkflowResolver(c.links, CompletedScope(c, e.plan, completed)),
                    WorkflowContext(payload, e.metadata, records))
  {
    var scope := CompletedScope(c, e.plan, completed);
    forall n | n in records && n in scope.results ensures FlowRecordFits(c.links, scope.results[n], records[n]) {
      var flow := e.plan.At(n);
      ResultFitsCompleted(e, c, flow, n in completed, records[n].result);
      forall k | 0 <= k < |records[n].attempts|
        ensures ResultFits(c.links, scope.results[n], records[n].attempts[k].result)
      {
        ResultFitsCompleted(e, c, flow, n in completed, records[n].attempts[k].result);
      }
    }
    WorkflowScopeFits(c.links, scope, payload, e.metadata, records);
  }

  // ---- The check it is used for ---------------------------------------------------------------

  // `_may_be_missing`: a required binding whose value can be structurally missing.
  predicate MayBeMissing(binding: Binding, resolve: Resolver)
    decreases binding
  {
    match binding
    case Literal(_) => false
    case Pointer(pointer, default) => default.None? && resolve(pointer).missing
    case FirstOf(members, default) => default.None? && forall k | 0 <= k < |members| :: resolve(members[k]).missing
    case Fields(fields) => exists k | 0 <= k < |fields| :: MayBeMissing(fields[k].binding, resolve)
  }

  // ---- A plan whose dropped default applies ----------------------------------------------

  const EMPTY: Json := Obj(map[])

  function OutputPointer(): string {
    Spell(["steps", "s", "result", "a"])
  }

  function ConsumerPointer(): string {
    Spell(["flows", "f", "result", "x"])
  }

  // One handler step that always runs; the flow delivers part of its result, or {}.
  const DEFAULTING := Flow("f", [], [Operation("s", None, Handler, [])], Some(Pointer(OutputPointer(), Some(EMPTY))),
                           Some(Direct(ToFlow("g"))), None, false, false, None, None)

  // It requires a part of what the first flow delivered.
  const CONSUMING := Flow("g", [Named("x", Pointer(ConsumerPointer(), None))], [Operation("s", None, Handler, [])],
                          None, Some(Direct(ToOutcome(EndCompleted))), None, false, false, None, None)

  const PAIR := Plan(["f", "g"], map["f" := DEFAULTING, "g" := CONSUMING], StartFlow("f"), None)

  // The handler declares that "a" is an object, and optional.
  const OPTIONAL := Catalog(map[], ANYTHING, map[], map[("f", "s") := DECLARED])

  lemma DefaultingDrops()
    ensures ConditionalNames(DEFAULTING.steps) == {}
    ensures Tokens(OutputPointer()) == ["steps", "s", "result", "a"]
    ensures Tokens(ConsumerPointer()) == ["flows", "f", "result", "x"]
    ensures CompletionBinding(DEFAULTING.output.value, {}) == Pointer(OutputPointer(), None)
    ensures Admissible(OutputPointer()) && Admissible(ConsumerPointer())
  {
    SpellRoundTrip(["steps", "s", "result", "a"]);
    SpellRoundTrip(["flows", "f", "result", "x"]);
  }

  // ---- What the two scopes say of it -------------------------------------------------------------

  const DECLARED := View(Record(map["a" := Typed(KObject)]), "")
  const PART := View(Typed(KObject), "")

  lemma PartBelow()
    ensures Below(map[], Of(Schematic(DECLARED)), "a") == Of(Schematic(PART))
    ensures Below(map[], Of(Schematic(PART)), "x") == Root(OPEN)
  {
    assert Expand(map[], DECLARED, 0) == [DECLARED] && Child(map[], DECLARED, "a") == Some(PART);
    ViewBelow(map[], DECLARED, PART, "a");
    assert Expand(map[], PART, 0) == [PART] && Child(map[], PART, "x") == Some(ANYTHING);
    ViewBelow(map[], PART, ANYTHING, "x");
  }

  lemma StepOutputStatic()
    ensures FlowStatic(map[], ScopeInside(OPTIONAL, DEFAULTING), OutputPointer()) == Of(Schematic(PART))
  {
    var scope, step := ScopeInside(OPTIONAL, DEFAULTING), DEFAULTING.steps[0];
    DefaultingDrops();
    assert StepNamed(DEFAULTING.steps, "s") == Some(step);
    assert "s" in Names(DEFAULTING.steps) && StepResult(OPTIONAL, DEFAULTING, step) == DECLARED;
    assert "s" in scope.results && scope.results["s"] == DECLARED;
    var parts := Tokens(OutputPointer());
    assert parts[3..] == ["a"] && ["a"][1..] == [];
    PartBelow();
    assert PointerFrom(map[], Of(Schematic(DECLARED)), ["a"]) == Of(Schematic(PART));
  }

  lemma CompletedIsPart()
    ensures CompletedResult(OPTIONAL, DEFAULTING) == Of(Schematic(PART))
    ensures FlowResult(OPTIONAL, DEFAULTING) == Static([Schematic(PART), Const(EMPTY)], false, false)
  {
    DefaultingDrops();
    StepOutputStatic();
  }

  lemma DefaultBelow()
    ensures Below(map[], Static([Schematic(PART), Const(EMPTY)], false, false), "x").missing
  {
    var both := [Schematic(PART), Const(EMPTY)];
    assert both[..1] == [Schematic(PART)] && [Schematic(PART)][..0] == [];
    assert Expand(map[], PART, 0) == [PART] && Schemas([PART]) == [Schematic(PART)];
    assert Alternatives(map[], [Schematic(PART)]) == [Schematic(PART)];
    assert Alternatives(map[], both) == [Schematic(PART)] + [Const(EMPTY)] == both;
    var children := ChildrenOf(map[], both, "x");
    assert |children| == 2 && children[1] == Static([], true, true);
  }

  lemma ResultStatic(scope: WorkflowScope, pointer: string, parts: seq<string>, result: Static)
    requires parts == Tokens(pointer) && |parts| == 4 && parts[0] == "flows" && parts[2] == "result"
    requires parts[1] in scope.results && scope.results[parts[1]] == result
    ensures WorkflowStatic(map[], scope, pointer) == Below(map[], result, parts[3])
  {
    assert parts[3..] == [parts[3]] && [parts[3]][1..] == [];
    assert PointerFrom(map[], result, [parts[3]]) == PointerFrom(map[], Below(map[], result, parts[3]), []);
  }

  lemma ConsumerStatics(plan: Plan)
    requires "f" in plan.flows && plan.At("f") == DEFAULTING
    ensures !WorkflowStatic(map[], CompletedScope(OPTIONAL, plan, {"f"}), ConsumerPointer()).missing
    ensures WorkflowStatic(map[], CompletedScope(OPTIONAL, plan, {}), ConsumerPointer()).missing
  {
    CompletedIsPart();
    PartBelow();
    DefaultBelow();
    DefaultingDrops();
    var pointer, parts := ConsumerPointer(), Tokens(ConsumerPointer());
    ResultStatic(CompletedScope(OPTIONAL, plan, {"f"}), pointer, parts, CompletedResult(OPTIONAL, DEFAULTING));
    ResultStatic(CompletedScope(OPTIONAL, plan, {}), pointer, parts, FlowResult(OPTIONAL, DEFAULTING));
  }

  // ---- The run ------------------------------------------------------------------------------------

  lemma FindsNothing(pointer: string, default: Json, context: Json)
    requires Admissible(pointer) && Walk(Tokens(pointer), context).None? && Fits(default, 0, MAX_JSON_DEPTH)
    ensures ResolveBinding(Pointer(pointer, Some(default)), context) == Ok(default)
    ensures ResolveBinding(Pointer(pointer, None), context) == Err(MissingBinding)
  {
  }

  lemma OutputDefaults(context: Json, metadata: Object, steps: StepRecords)
    requires context == FlowContext(EMPTY, metadata, steps)
    requires "s" in steps && steps["s"].result == Some(EMPTY)
    ensures ResolveBinding(DEFAULTING.output.value, context) == Ok(EMPTY)
    ensures ResolveBinding(CompletionBinding(DEFAULTING.output.value, {}), context) == Err(MissingBinding)
  {
    DefaultingDrops();
    NothingThere(context, metadata, steps, Tokens(OutputPointer()));
    FindsNothing(OutputPointer(), EMPTY, context);
  }

  lemma NothingThere(context: Json, metadata: Object, steps: StepRecords, parts: seq<string>)
    requires context == FlowContext(EMPTY, metadata, steps) && |parts| == 4
    requires parts[0] == "steps" && parts[1] == "s" && parts[2] == "result"
    requires "s" in steps && steps["s"].result == Some(EMPTY)
    ensures Walk(parts, context).None?
  {
    var table := map n | n in steps :: StepData(steps[n]);
    ResultThere(steps["s"]);
    WalkInto(parts, context.fields);
    WalkInto(parts[1..], table);
    WalkInto(parts[1..][1..], StepData(steps["s"]).fields);
    WalkInto(parts[1..][1..][1..], EMPTY.fields);
  }

  lemma ResultThere(record: StepRecord)
    requires record.result.Some?
    ensures StepData(record).Obj? && "result" in StepData(record).fields
    ensures StepData(record).fields["result"] == record.result.value
  {
  }

  // The first flow's handler returns {}, as its schema allows, and the flow delivers its default.
  lemma DefaultingRuns(e: Engine, w: World) returns (run: FlowRun)
    requires Generous(e) && w.consumed < e.maxSteps
    ensures run == ExecuteFlow(e, DEFAULTING, EMPTY, w, 0)
    ensures run.record.status == Completed && run.record.result == Some(EMPTY)
  {
    run := ExecuteFlow(e, DEFAULTING, EMPTY, w, 0);
    var step, p := DEFAULTING.Step(0), Progress(SkippedSteps(DEFAULTING.steps), Accounting.NO_USAGE, w);
    StepEnters(e, step, EMPTY, p, map[], 0);
    var ran := RunOperation(e, step, map[], Stepped(p));
    HandlerReturns(e, step, Stepped(p));
    assert RunSteps(e, DEFAULTING, EMPTY, 0, p, 0) == RunSteps(e, DEFAULTING, EMPTY, 1, ran.progress, 0);
    assert RunSteps(e, DEFAULTING, EMPTY, 1, ran.progress, 0)
           == Project(e, DEFAULTING, EMPTY, ran.progress, Completed, []);
    OutputDefaults(Context(e, EMPTY, ran.progress), e.metadata, ran.progress.steps);
  }

  lemma HandlerReturns(e: Engine, step: Step, p: Progress)
    requires Generous(e) && step == Operation("s", None, Handler, [])
    ensures var ran := RunOperation(e, step, map[], p);
            && ran.Ran? && ran.record.status == Completed && ran.record.result == Some(EMPTY)
            && ran.progress.steps == p.steps["s" := ran.record]
  {
  }

  // What the second flow requires is nowhere in the first one's record.
  lemma ConsumerMisses(metadata: Object, records: FlowRecords)
    requires "f" in records && records["f"].result == Some(EMPTY)
    ensures ResolveAll(CONSUMING.input, WorkflowContext(EMPTY, metadata, records)) == Err(MissingBinding)
  {
    DefaultingDrops();
    var context := WorkflowContext(EMPTY, metadata, records);
    NothingBelow(context, metadata, records, Tokens(ConsumerPointer()));
    FindsNothing(ConsumerPointer(), EMPTY, context);
    MissingFirst(CONSUMING.input, context);
  }

  lemma MissingFirst(pairs: seq<Named>, context: Json)
    requires |pairs| == 1 && ResolveBinding(pairs[0].binding, context) == Err(MissingBinding)
    ensures ResolveAll(pairs, context) == Err(MissingBinding)
  {
  }

  lemma NothingBelow(context: Json, metadata: Object, records: FlowRecords, parts: seq<string>)
    requires context == WorkflowContext(EMPTY, metadata, records) && |parts| == 4
    requires parts[0] == "flows" && parts[1] == "f" && parts[2] == "result"
    requires "f" in records && records["f"].result == Some(EMPTY)
    ensures Walk(parts, context).None?
  {
    var table := map n | n in records :: FlowData(records[n]);
    FlowResultThere(records["f"]);
    WalkInto(parts, context.fields);
    WalkInto(parts[1..], table);
    WalkInto(parts[1..][1..], FlowData(records["f"]).fields);
    WalkInto(parts[1..][1..][1..], EMPTY.fields);
  }

  lemma FlowResultThere(record: FlowRecord)
    requires record.result.Some?
    ensures FlowData(record).Obj? && "result" in FlowData(record).fields
    ensures FlowData(record).fields["result"] == record.result.value
  {
  }

  // A routed flow without input that completes leads to its target.
  lemma FirstLeads(e: Engine, flow: Flow, next: string, records: FlowRecords, w: World, run: FlowRun)
    requires Generous(e) && Simple(flow, ToFlow(next)) && flow.input == []
    requires run == ExecuteFlow(e, flow, EMPTY, w.Next(), 0) && run.record.status == Completed
    ensures RunRouted(e, flow, EMPTY, records, None, w)
            == RoutedRun(Ok(Next(Onward(flow.name, next))), records[flow.name := run.record], None, run.world)
  {
    assert ResolveAll([], WorkflowContext(EMPTY, e.metadata, records)) == Ok(map[]);
  }

  function Onward(source: string, next: string): TransitionRecord {
    TransitionRecord(source, Completed, ToFlow(next), KindDirect, None, None, None)
  }

  // A routed flow whose input cannot be bound ends the drive.
  lemma SecondFails(e: Engine, name: string, visited: set<string>, records: FlowRecords, ts: seq<TransitionRecord>,
                    w: World)
    requires Generous(e) && Enters(e, name, visited, w)
    requires ResolveAll(e.plan.At(name).input, WorkflowContext(EMPTY, e.metadata, records)) == Err(MissingBinding)
    ensures DriveFrom(e, EMPTY, name, visited, records, ts, w).outcome == Err(Error(MissingBinding))
  {
  }

  // So does a run whose first flow completes and whose second one misses its input.
  lemma RowFails(e: Engine, first: Flow, second: Flow, w: World, run: FlowRun)
    requires Generous(e) && Row(e.plan, first, second) && first.input == []
    requires run == ExecuteFlow(e, first, EMPTY, w.Next().Next(), 0) && run.record.status == Completed
    requires ResolveAll(second.input, WorkflowContext(EMPTY, e.metadata, RecordsAfter(e.plan, first, run)))
             == Err(MissingBinding)
    ensures FailsWith(Run(e, EMPTY, w).error, MissingBinding)
  {
    var records, t := InitialRecords(e.plan), Onward(first.name, second.name);
    RowMembers(e.plan, first, second);
    FirstLeads(e, first, second.name, records, w.Next(), run);
    DriveGoesOn(e, EMPTY, first.name, {}, records, [], w, RunRouted(e, first, EMPTY, records, None, w.Next()), t,
                second.name);
    SecondFails(e, second.name, {} + {first.name}, RecordsAfter(e.plan, first, run), [] + [t], run.world);
  }

  function RecordsAfter(plan: Plan, first: Flow, run: FlowRun): FlowRecords {
    InitialRecords(plan)[first.name := run.record]
  }

  lemma PairFails(e: Engine, w: World)
    requires Generous(e) && e.plan == PAIR && w.consumed < e.maxSteps
    ensures FailsWith(Run(e, EMPTY, w).error, MissingBinding)
  {
    var run := DefaultingRuns(e, w.Next().Next());
    ConsumerMisses(e.metadata, RecordsAfter(PAIR, DEFAULTING, run));
    RowFails(e, DEFAULTING, CONSUMING, w, run);
  }

  // ---- The plan passes ----------------------------------------------------------------------------

  lemma PairAuthored()
    ensures AuthoredPlan(PAIR) && RepeatsAcceptable(PAIR)
  {
    DefaultingAuthored();
    ConsumingAuthored();
    RowAuthored(PAIR, DEFAULTING, CONSUMING);
  }

  lemma DefaultingAuthored()
    ensures AuthoredFlow(DEFAULTING)
  {
    DefaultingDrops();
    SimpleAuthored(DEFAULTING, ToFlow("g"));
  }

  lemma ConsumingAuthored()
    ensures AuthoredFlow(CONSUMING)
  {
    DefaultingDrops();
    PointerPair(CONSUMING.input, ConsumerPointer());
    SimpleAuthored(CONSUMING, ToOutcome(EndCompleted));
  }

  lemma PointerPair(pairs: seq<Named>, pointer: string)
    requires |pairs| == 1 && pairs[0].binding == Pointer(pointer, None) && Admissible(pointer)
    ensures AuthoredPairs(pairs)
  {
  }

  // Its bindings read only what has run.
  lemma PairAccepted(graph: FlowGraph)
    requires Exact(PAIR, graph)
    ensures PlanAccepted(PAIR, graph)
  {
    DefaultingDrops();
    RowBefore(PAIR, graph, DEFAULTING, CONSUMING);
    RowMembers(PAIR, DEFAULTING, CONSUMING);
    OutputKnown(DEFAULTING, OutputPointer(), EMPTY);
    ResultAvailable(PAIR, "f", CONSUMING.input, ConsumerPointer(), Before(PAIR, graph, "g"));
    RowAccepted(PAIR, graph, DEFAULTING, CONSUMING);
  }

  // What the second flow requires may not be missing in the scope of the flows known to have
  // completed before it.
  ghost predicate SpanPasses(plan: Plan, graph: FlowGraph) {
    forall completed: set<string> {:trigger CompletedScope(OPTIONAL, plan, completed)}
      | (forall n :: n in completed <==> CompletedBefore(plan, graph, "g", n)) ::
      !MayBeMissing(Pointer(ConsumerPointer(), None), WorkflowResolver(map[],
                                                                       CompletedScope(OPTIONAL, plan, completed)))
  }

  lemma MissingIs(pointer: string, scope: WorkflowScope)
    ensures MayBeMissing(Pointer(pointer, None), WorkflowResolver(map[], scope))
            <==> WorkflowStatic(map[], scope, pointer).missing
  {
  }

  lemma RowSpans(plan: Plan, graph: FlowGraph, first: Flow, second: Flow)
    requires Row(plan, first, second) && Exact(plan, graph) && first.name == "f" && second.name == "g"
    requires !WorkflowStatic(map[], CompletedScope(OPTIONAL, plan, {"f"}), ConsumerPointer()).missing
    ensures SpanPasses(plan, graph)
  {
    forall completed: set<string> {:trigger CompletedScope(OPTIONAL, plan, completed)}
      | (forall n :: n in completed <==> CompletedBefore(plan, graph, "g", n))
      ensures !MayBeMissing(Pointer(ConsumerPointer(), None),
                            WorkflowResolver(map[], CompletedScope(OPTIONAL, plan, completed)))
    {
      OnlyFirst(plan, graph, first, second, completed);
      MissingIs(ConsumerPointer(), CompletedScope(OPTIONAL, plan, completed));
    }
  }

  lemma PairSpans(graph: FlowGraph)
    requires Exact(PAIR, graph)
    ensures SpanPasses(PAIR, graph)
    ensures MayBeMissing(Pointer(ConsumerPointer(), None), WorkflowResolver(map[], CompletedScope(OPTIONAL, PAIR, {})))
  {
    RowMembers(PAIR, DEFAULTING, CONSUMING);
    ConsumerStatics(PAIR);
    MissingIs(ConsumerPointer(), CompletedScope(OPTIONAL, PAIR, {}));
    RowSpans(PAIR, graph, DEFAULTING, CONSUMING);
  }

  // The compiler accepts the plan by what it claims of the completed flow, which it would not
  // otherwise do; and a run in which the handler returns {} fails with a missing binding.
  lemma DefaultStillApplies(graph: FlowGraph, e: Engine, w: World)
    requires Exact(PAIR, graph) && Generous(e) && e.plan == PAIR && w.consumed < e.maxSteps
    ensures AuthoredPlan(PAIR) && RepeatsAcceptable(PAIR) && Acceptable(PAIR) && PlanAccepted(PAIR, graph)
    ensures SpanPasses(PAIR, graph)
    ensures MayBeMissing(Pointer(ConsumerPointer(), None), WorkflowResolver(map[], CompletedScope(OPTIONAL, PAIR, {})))
    ensures FailsWith(Run(e, EMPTY, w).error, MissingBinding)
  {
    PairAuthored();
    RowAcceptable(PAIR, DEFAULTING, CONSUMING);
    PairAccepted(graph);
    PairSpans(graph);
    PairFails(e, w);
  }
}
