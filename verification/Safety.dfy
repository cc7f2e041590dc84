/**
 Accepted flows do not go wrong: no execution of a flow fails with INVALID_CONFIGURATION,
 and none with MISSING_BINDING when its required pointers are backed by data.  One mutual
 induction over the engine covers both codes.
 */
module Safety {
  import opened Foundations
  import opened Json
  import opened Bindings
  import opened Overrides
  import opened Conditions
  import opened Plans
  import opened Accounting
  import opened Records
  import opened Engine
  import opened Routing
  import opened Acceptance
  import opened Availability
  import opened Readiness
  import opened Production
  import Repeats

  // A failure code and an engine, the run's payload and the compiler's graph facts.
  datatype Setting = Setting(e: Engine, code: ErrorCode, run: Json, graph: FlowGraph, depths: map<string, nat>)

  // ---- What the compiler checked of one flow ---------------------------------------------

  ghost predicate Fed(s: Setting, scope: Scope, site: Site, pairs: seq<Named>) {
    && AuthoredPairs(pairs)
    && (s.code == InvalidConfiguration ==> ShortPairs(pairs))
    && (s.code == MissingBinding ==> RequiredAll(site, pairs) && DataSureAll(s.e, scope, site, pairs))
  }

  ghost predicate FedOne(s: Setting, scope: Scope, site: Site, binding: Binding) {
    && Authored(binding)
    && (s.code == InvalidConfiguration ==> Short(binding))
    && (s.code == MissingBinding ==> Required(site, binding) && DataSure(s.e, scope, site, binding))
  }

  ghost predicate StepFit(s: Setting, flow: Flow, k: int) {
    && AuthoredStep(flow.Step(k))
    && (s.code == InvalidConfiguration ==> ShortStep(flow.Step(k)))
    && Fed(s, InputOf(flow.name), InFlow(flow.steps, NamesBefore(flow.steps, k)), flow.Step(k).Arguments())
  }

  // The calls of the flow fit below this depth.
  predicate Deep(s: Setting, n: string, depth: int) {
    n in s.depths && depth + s.depths[n] <= LIMIT
  }

  // It nests deeper than what it calls.
  predicate NestsAbove(s: Setting, a: string, n: string, levels: int) {
    a in s.depths && n in s.depths && s.depths[n] + levels <= s.depths[a]
  }

  // The records a repeat relies on before its first attempt.
  function Base(s: Setting, n: string): set<string> {
    if s.e.plan.At(n).callable then {} else Before(s.e.plan, s.graph, n)
  }

  function ScopeOf(s: Setting, n: string): Scope {
    if s.e.plan.At(n).callable then InputOf(n) else RunPayload(s.run)
  }

  function SiteOf(s: Setting, n: string, available: set<string>): Site {
    if s.e.plan.At(n).callable then AtItem(s.e.plan, n, available) else AtBoundary(s.e.plan, available)
  }

  ghost predicate RepeatFit(s: Setting, n: string) {
    var repeat, scope := s.e.plan.At(n).Repeating(), ScopeOf(s, n);
    && AuthoredRepeat(repeat)
    && (s.code == InvalidConfiguration ==> ShortRepeat(repeat))
    && Fed(s, scope, SiteOf(s, n, Base(s, n) + {n}), repeat.retryFlowInput)
    && Fed(s, scope, SiteOf(s, n, Base(s, n) + ItemLocal(s.e.plan, n)), repeat.retryInput)
  }

  ghost predicate OutputFed(s: Setting, flow: Flow) {
    match flow.output
    case None => true
    case Some(output) => FedOne(s, InputOf(flow.name), AtOutput(flow.steps), output)
  }

  ghost predicate FlowFit(s: Setting, n: string) {
    var flow := s.e.plan.At(n);
    && flow.name == n && n in s.depths
    && flow.steps != []
    && DistinctNames(flow.steps)
    && (forall k {:trigger StepFit(s, flow, k)} | 0 <= k < |flow.steps| :: StepFit(s, flow, k))
    && OutputFed(s, flow)
    && (!flow.callable ==> Fed(s, RunPayload(s.run), AtBoundary(s.e.plan, Before(s.e.plan, s.graph, n)), flow.input))
    && (flow.repeat.Some? ==> RepeatFit(s, n))
    && forall d | d in Base(s, n) :: d in s.e.plan.flows && !s.e.plan.At(d).callable
  }

  ghost predicate Fit(s: Setting) {
    && (s.code == InvalidConfiguration || s.code == MissingBinding)
    && Silent(s.e, s.code)
    && (forall n {:trigger FlowFit(s, n)} | n in s.e.plan.flows :: FlowFit(s, n))
    && (forall a, k, n | CallsAt(s.e.plan, a, k, n) ::
        Callable(s.e.plan, n) && NestsAbove(s, a, n, 1))
    && (forall a, n | HasRetry(s.e.plan, a, n) ::
          Callable(s.e.plan, n) && n != a && NestsAbove(s, a, n, 0))
  }

  // ---- Bindings ------------------------------------------------------------------------------

  lemma PairsSafe(s: Setting, scope: Scope, site: Site, context: Json, pairs: seq<Named>)
    requires s.code == InvalidConfiguration || s.code == MissingBinding
    requires Fed(s, scope, site, pairs) && Ready(s.e, scope, site, context)
    ensures ResolveAll(pairs, context) != Err(s.code)
  {
    ArgumentsResolve(pairs, context);
    if s.code == MissingBinding {
      ReadyResolvesAll(s.e, scope, site, context, pairs);
    } else {
      ShortPairsNeverOverlong(pairs, context);
    }
  }

  lemma BindingSafe(s: Setting, scope: Scope, site: Site, context: Json, binding: Binding)
    requires s.code == InvalidConfiguration || s.code == MissingBinding
    requires FedOne(s, scope, site, binding) && Ready(s.e, scope, site, context)
    ensures ResolveBinding(binding, context) != Err(s.code)
  {
    ResolvesIffResolvable(binding, context);
    if s.code == MissingBinding {
      ReadyResolves(s.e, scope, site, context, binding);
    } else {
      ShortNeverOverlong(binding, context);
    }
  }

  lemma ConditionSafe(s: Setting, condition: Condition, context: Json)
    requires s.code == InvalidConfiguration || s.code == MissingBinding
    requires AuthoredCondition(condition) && (s.code == InvalidConfiguration ==> ShortCondition(condition))
    ensures Evaluate(condition, context, s.e.matcher) != Err(s.code)
  {
    FailsIffOverlong(condition, context, s.e.matcher);
    if s.code == InvalidConfiguration {
      ShortConditionNeverOverlong(condition, context, s.e.matcher);
    }
  }

  // What is bound as the input of a flow.
  predicate SafeInput(s: Setting, n: string, input: Result<Object, Exn>) {
    match input
    case Err(exn) => !Reports(exn, s.code)
    case Ok(fields) => Accepted(s.e, n, Obj(fields))
  }

  lemma InputSafe(s: Setting, n: string, scope: Scope, site: Site, context: Json, pairs: seq<Named>)
    requires s.code == InvalidConfiguration || s.code == MissingBinding
    requires Silent(s.e, s.code)
    requires Fed(s, scope, site, pairs) && Ready(s.e, scope, site, context)
    ensures SafeInput(s, n, FlowInput(s.e, n, pairs, context))
  {
    PairsSafe(s, scope, site, context, pairs);
    var inputs := ResolveAll(pairs, context);
    if inputs.Ok? {
      var rejected := s.e.validate(n, inputs.value);
    }
  }

  // ---- Flows ----------------------------------------------------------------------------------

  // A finished run of a flow: not failed with the code, and with a deliverable result
  // unless it failed.
  ghost predicate SafeRun(s: Setting, n: string, record: FlowRecord) {
    && !FailsWith(record.error, s.code)
    && (record.status != Failed ==> record.result.Some? && Made(s.e, s.e.plan.At(n), record))
  }

  lemma SafeCodes(s: Setting, exn: Exn, w: World)
    requires s.code == InvalidConfiguration || s.code == MissingBinding
    requires !Reports(exn, s.code)
    ensures RecordFailure(s.e, exn, w).0.code != s.code
  {
    RecordedCode(s.e, exn, w);
  }

  lemma ProjectSafe(s: Setting, n: string, payload: Json, p: Progress, k: nat, status: Status, issues: seq<Issue>)
    requires Fit(s) && n in s.e.plan.flows && Accepted(s.e, n, payload)
    requires k > 0 && StepsReady(s.e, InputOf(n), s.e.plan.At(n).steps, p.steps, k, status == NeedsReview)
    ensures SafeRun(s, n, Project(s.e, s.e.plan.At(n), payload, p, status, issues).record)
  {
    var flow := s.e.plan.At(n);
    assert FlowFit(s, n);
    match flow.output
    case None =>
      assert InScope(s.e, InputOf(n), payload);
    case Some(output) =>
      OutputReady(s.e, flow, payload, p.steps, k, status == NeedsReview);
      var context := Context(s.e, payload, p);
      BindingSafe(s, InputOf(n), AtOutput(flow.steps), context, output);
      var result := ResolveBinding(output, context);
      if result.Err? {
        SafeCodes(s, Error(result.error), p.world);
      } else {
        assert IsProjection(s.e, flow, output, payload, p.steps, result.value);
      }
  }

  // One step further: it left its record, or it was skipped.
  lemma ReadyAfter(e: Engine, scope: Scope, flow: Flow, records: StepRecords, k: nat, record: StepRecord)
    requires StepsReady(e, scope, flow.steps, records, k, false) && k < |flow.steps| && DistinctNames(flow.steps)
    requires StepsProduced(e, flow.steps, records[flow.Step(k).name := record])
    requires StepLeaves(e, scope, flow.Step(k), record)
    requires record.status == Completed || record.status == NeedsReview
    ensures StepsReady(e, scope, flow.steps, records[flow.Step(k).name := record], k + 1, record.status == NeedsReview)
  {
    var steps := flow.steps;
    forall j | 0 <= j < |steps| && j != k ensures steps[j].name != steps[k].name {
    }
  }

  lemma {:induction false} FlowSafe(s: Setting, n: string, payload: Json, w: World, depth: int)
    requires Fit(s) && n in s.e.plan.flows && Deep(s, n, depth)
    requires Accepted(s.e, n, payload)
    ensures SafeRun(s, n, ExecuteFlow(s.e, s.e.plan.At(n), payload, w, depth).record)
    decreases LIMIT - depth, 2, |s.e.plan.At(n).steps| + 1
  {
    var flow := s.e.plan.At(n);
    assert FlowFit(s, n);
    SkippedProduced(s.e, flow.steps);
    SkippedRecords(flow.steps);
    forall j | 0 <= j < |flow.steps| ensures IsSkipped(flow.steps[j], SkippedSteps(flow.steps)) {
    }
    StepsSafe(s, n, payload, 0, Progress(SkippedSteps(flow.steps), NO_USAGE, w), depth);
  }

  // A step that ends its flow.
  lemma StopSafe(s: Setting, n: string, payload: Json, k: nat, p: Progress, depth: int, run: StepRun)
    requires Fit(s) && n in s.e.plan.flows && Accepted(s.e, n, payload) && k < |s.e.plan.At(n).steps|
    requires run == RunStep(s.e, s.e.plan.At(n).Step(k), payload, p, depth) && SafeStep(s, n, k, p.steps, run)
    requires EndsFlow(run)
    ensures SafeRun(s, n, RunSteps(s.e, s.e.plan.At(n), payload, k, p, depth).record)
  {
    if run.Interrupted? {
      SafeCodes(s, run.exn, run.progress.world);
    } else if run.record.status == NeedsReview {
      ProjectSafe(s, n, payload, run.progress, k + 1, NeedsReview, run.issues);
    }
  }

  lemma AllStepsSafe(s: Setting, n: string, payload: Json, k: nat, p: Progress, depth: int)
    requires Fit(s) && n in s.e.plan.flows && Accepted(s.e, n, payload) && k >= |s.e.plan.At(n).steps|
    requires StepsReady(s.e, InputOf(n), s.e.plan.At(n).steps, p.steps, k, false)
    ensures SafeRun(s, n, RunSteps(s.e, s.e.plan.At(n), payload, k, p, depth).record)
  {
    assert FlowFit(s, n);
    ProjectSafe(s, n, payload, p, k, Completed, []);
  }

  lemma {:induction false} StepsSafe(s: Setting, n: string, payload: Json, k: nat, p: Progress, depth: int)
    requires Fit(s) && n in s.e.plan.flows && Deep(s, n, depth)
    requires Accepted(s.e, n, payload)
    requires StepsReady(s.e, InputOf(n), s.e.plan.At(n).steps, p.steps, k, false)
    ensures SafeRun(s, n, RunSteps(s.e, s.e.plan.At(n), payload, k, p, depth).record)
    decreases LIMIT - depth, 2, |s.e.plan.At(n).steps| - k
  {
    var flow := s.e.plan.At(n);
    if k >= |flow.steps| {
      AllStepsSafe(s, n, payload, k, p, depth);
    } else {
      StepSafe(s, n, k, payload, p, depth);
      var run := RunStep(s.e, flow.Step(k), payload, p, depth);
      if EndsFlow(run) {
        StopSafe(s, n, payload, k, p, depth, run);
      } else {
        StepsSafe(s, n, payload, k + 1, run.progress, depth);
      }
    }
  }

  // ---- Steps -----------------------------------------------------------------------------------

  // An entered step: it raised nothing of the code, or left a record of its own.
  ghost predicate SafeEntry(s: Setting, n: string, k: int, before: StepRecords, run: StepRun) {
    var flow := s.e.plan.At(n);
    match run
    case Interrupted(exn, _, _) => !Reports(exn, s.code)
    case Bypassed(_) => false
    case Ran(record, _, p) =>
      && !FailsWith(record.error, s.code) && record.status != Skipped && p.steps == before[flow.Step(k).name := record]
      && (record.status != Failed ==> StepsProduced(s.e, flow.steps, p.steps))
  }

  ghost predicate SafeStep(s: Setting, n: string, k: int, before: StepRecords, run: StepRun) {
    var steps := s.e.plan.At(n).steps;
    match run
    case Interrupted(exn, _, _) => !Reports(exn, s.code)
    case Bypassed(p) => p.steps == before && StepsReady(s.e, InputOf(n), steps, p.steps, k + 1, false)
    case Ran(record, _, p) =>
      && !FailsWith(record.error, s.code)
      && (record.status != Failed ==>
          && StepsReady(s.e, InputOf(n), steps, p.steps, k + 1, record.status == NeedsReview)
          && record.status != Skipped)
  }

  lemma {:induction false} StepSafe(s: Setting, n: string, k: nat, payload: Json, p: Progress, depth: int)
    requires Fit(s) && n in s.e.plan.flows && Deep(s, n, depth)
    requires Accepted(s.e, n, payload) && k < |s.e.plan.At(n).steps|
    requires StepsReady(s.e, InputOf(n), s.e.plan.At(n).steps, p.steps, k, false)
    ensures SafeStep(s, n, k, p.steps, RunStep(s.e, s.e.plan.At(n).Step(k), payload, p, depth))
    decreases LIMIT - depth, 1, 1
  {
    var step := s.e.plan.At(n).Step(k);
    assert FlowFit(s, n) && StepFit(s, s.e.plan.At(n), k);
    if step.guard.Some? {
      ConditionSafe(s, step.guard.value, Context(s.e, payload, p));
    }
    var p1 := p.(world := p.world.Next());
    if !s.e.expired(p.world.tick) {
      if Guard(s.e, step, Context(s.e, payload, p)) == Ok(true) {
        EnterSafe(s, n, k, payload, p1, depth);
        EnteredSafe(s, n, k, payload, p, depth, RunStep(s.e, step, payload, p, depth));
      } else if Guard(s.e, step, Context(s.e, payload, p)) == Ok(false) {
        assert StepDone(s.e, InputOf(n), s.e.plan.At(n).steps[k], StepAt(p.steps, s.e.plan.At(n).steps[k].name), false);
      }
    }
  }

  // What an entered step leaves is what a visit of it leaves.
  lemma EnteredSafe(s: Setting, n: string, k: nat, payload: Json, p: Progress, depth: int, run: StepRun)
    requires Fit(s) && n in s.e.plan.flows && k < |s.e.plan.At(n).steps|
    requires Accepted(s.e, n, payload)
    requires StepsReady(s.e, InputOf(n), s.e.plan.At(n).steps, p.steps, k, false)
    requires run == RunStep(s.e, s.e.plan.At(n).Step(k), payload, p, depth) && SafeEntry(s, n, k, p.steps, run)
    ensures SafeStep(s, n, k, p.steps, run)
  {
    assert FlowFit(s, n);
    var steps := s.e.plan.At(n).steps;
    if run.Ran? && run.record.status != Failed {
      assert InScope(s.e, InputOf(n), payload);
      assert StepLeaves(s.e, InputOf(n), steps[k], run.record);
      ReadyAfter(s.e, InputOf(n), s.e.plan.At(n), p.steps, k, run.record);
    }
  }

  lemma {:induction false} EnterSafe(s: Setting, n: string, k: nat, payload: Json, p: Progress, depth: int)
    requires Fit(s) && n in s.e.plan.flows && Deep(s, n, depth)
    requires Accepted(s.e, n, payload) && k < |s.e.plan.At(n).steps|
    requires StepsReady(s.e, InputOf(n), s.e.plan.At(n).steps, p.steps, k, false)
    ensures SafeEntry(s, n, k, p.steps, EnterStep(s.e, s.e.plan.At(n).Step(k), payload, p, depth))
    decreases LIMIT - depth, 1, 0
  {
    var flow := s.e.plan.At(n);
    var step := flow.steps[k];
    if p.world.consumed < s.e.maxSteps {
      var p1 := p.(world := p.world.(consumed := p.world.consumed + 1));
      ArgumentsSafe(s, n, k, payload, p);
      var inputs := ResolveAll(step.Arguments(), Context(s.e, payload, p));
      if inputs.Ok? {
        EnterRuns(s.e, step, payload, p, p1, inputs.value, depth);
        if step.Collection? {
          CollectionSafe(s, n, k, inputs.value, p1.world, depth);
          CollectedSafe(s, n, k, inputs.value, p1, depth);
        } else {
          OperationSafe(s, n, k, inputs.value, p1);
        }
      }
    }
  }

  lemma ArgumentsSafe(s: Setting, n: string, k: nat, payload: Json, p: Progress)
    requires Fit(s) && n in s.e.plan.flows && Accepted(s.e, n, payload) && k < |s.e.plan.At(n).steps|
    requires StepsReady(s.e, InputOf(n), s.e.plan.At(n).steps, p.steps, k, false)
    ensures ResolveAll(s.e.plan.At(n).Step(k).Arguments(), Context(s.e, payload, p)) != Err(s.code)
  {
    var flow := s.e.plan.At(n);
    assert FlowFit(s, n) && StepFit(s, flow, k);
    FlowReady(s.e, flow, payload, p.steps, k);
    PairsSafe(s, InputOf(n), InFlow(flow.steps, NamesBefore(flow.steps, k)), Context(s.e, payload, p),
              flow.Step(k).Arguments());
  }

  lemma CollectedSafe(s: Setting, n: string, k: nat, inputs: Object, p: Progress, depth: int)
    requires Fit(s) && n in s.e.plan.flows
    requires k < |s.e.plan.At(n).steps| && s.e.plan.At(n).Step(k).Collection?
    requires StepsReady(s.e, InputOf(n), s.e.plan.At(n).steps, p.steps, k, false)
    requires var step := s.e.plan.At(n).Step(k);
             SafeCollection(s, step, ExecuteCollection(s.e, step, inputs, p.world, depth).0)
    ensures SafeEntry(s, n, k, p.steps, RunCollection(s.e, s.e.plan.At(n).Step(k), inputs, p, depth))
  {
    var flow := s.e.plan.At(n);
    var result := ExecuteCollection(s.e, flow.steps[k], inputs, p.world, depth).0;
    assert FlowFit(s, n);
    if result.Ok? && result.value.status != Failed {
      ProducedAfter(s.e, flow.steps, p.steps, flow.steps[k], result.value);
    }
  }

  lemma OperationSafe(s: Setting, n: string, k: nat, inputs: Object, p: Progress)
    requires Fit(s) && n in s.e.plan.flows && k < |s.e.plan.At(n).steps| && s.e.plan.At(n).Step(k).Operation?
    requires StepsReady(s.e, InputOf(n), s.e.plan.At(n).steps, p.steps, k, false)
    ensures SafeEntry(s, n, k, p.steps, RunOperation(s.e, s.e.plan.At(n).Step(k), inputs, p))
  {
    var flow := s.e.plan.At(n);
    var step := flow.steps[k];
    var reply := s.e.execute(p.world.tick, step, inputs).reply;
    var run := RunOperation(s.e, step, inputs, p);
    assert FlowFit(s, n);
    if run.Ran? {
      assert reply.Returned? && run.record.result == Some(reply.outcome.result);
      assert Supplied(s.e, step, reply.outcome.result, reply.outcome.selection);
      assert Clean(step, run.record);
      ProducedAfter(s.e, flow.steps, p.steps, flow.steps[k], run.record);
    }
  }

  // ---- Collections --------------------------------------------------------------------------------

  ghost predicate SafeCollection(s: Setting, step: Step, result: Result<StepRecord, Exn>) {
    match result
    case Err(exn) => !Reports(exn, s.code)
    case Ok(record) =>
      && !FailsWith(record.error, s.code) && record.status != Skipped
      && (record.status != Failed ==>
            Clean(step, record) && record.result.Some? && Sourced(s.e, step, record))
  }

  lemma {:induction false} CollectionSafe(s: Setting, n: string, k: nat, inputs: Object, w: World, depth: int)
    requires Fit(s) && n in s.e.plan.flows && Deep(s, n, depth)
    requires k < |s.e.plan.At(n).steps| && s.e.plan.At(n).Step(k).Collection?
    ensures var step := s.e.plan.At(n).Step(k);
            SafeCollection(s, step, ExecuteCollection(s.e, step, inputs, w, depth).0)
    decreases LIMIT - depth, 0, 0
  {
    var step := s.e.plan.At(n).Step(k);
    assert FlowFit(s, n) && StepFit(s, s.e.plan.At(n), k);
    assert CallsAt(s.e.plan, n, k, step.Targets()[0]);
    CollectionMakes(s.e, step, inputs, w, depth);
    if ItemsOnly(step, inputs) {
      ItemsChecked(s.e, step, RawItems(inputs), [], {}, w);
      var (checked, w1) := CheckItems(s.e, step, RawItems(inputs), [], {}, w);
      match checked
      case Err(exn) => CheckSafe(s, n, k, exn);
      case Ok(items) =>
        BatchRuns(s.e, step, inputs, w, depth, items, w1);
        forall i | 0 <= i < |items| ensures ChildFit(s, items[i], depth + 1) {
          assert ItemFits(s.e, s.e.plan.At(n).Step(k), items[i]);
          assert CallsAt(s.e.plan, n, k, items[i].flow);
        }
        ItemsSafe(s, 0, EmptyBatch(s.e.plan, items), w1, depth + 1);
    }
  }

  lemma CheckSafe(s: Setting, n: string, k: nat, exn: Exn)
    requires Fit(s) && n in s.e.plan.flows && CheckError(s.e, s.e.plan.At(n).Step(k), exn)
    ensures !Reports(exn, s.code)
  {
    forall target | target in s.e.plan.At(n).Step(k).Targets() ensures CallableFlow(s.e.plan, target).Some? {
      assert CallsAt(s.e.plan, n, k, target);
    }
  }

  ghost predicate ChildFit(s: Setting, item: Item, depth: int) {
    && item.flow in s.e.plan.flows
    && s.e.plan.At(item.flow).callable
    && Deep(s, item.flow, depth)
    && Accepted(s.e, item.flow, Obj(item.payload))
  }

  ghost predicate AllFit(s: Setting, entries: seq<Entry>, depth: int) {
    forall i | 0 <= i < |entries| :: ChildFit(s, entries[i].item, depth)
  }

  ghost predicate SafeBatch(s: Setting, result: Result<Batch, Exn>) {
    match result
    case Err(exn) => !Reports(exn, s.code)
    case Ok(batch) => !FailsWith(batch.failure, s.code)
  }

  lemma {:induction false} ItemsSafe(s: Setting, k: nat, batch: Batch, w: World, depth: int)
    requires Fit(s) && batch.failure.None? && AllFit(s, batch.entries, depth)
    ensures SafeBatch(s, RunItems(s.e, k, batch, w, depth).0)
    decreases LIMIT - depth, 6, |batch.entries| - k
  {
    if k < |batch.entries| {
      var item := batch.entries[k].item;
      assert ChildFit(s, item, depth);
      ItemSafe(s, item.flow, item.payload, w, depth);
      var run := RunItem(s.e, s.e.plan.At(item.flow), item.payload, w, depth);
      if run.outcome.Ok? && !run.outcome.value.Stops() {
        ItemsSafe(s, k + 1, Entered(batch, k, run.outcome.value), run.world, depth);
      }
    }
  }

  ghost predicate SafeItem(s: Setting, outcome: Result<ItemDone, Exn>) {
    match outcome
    case Err(exn) => !Reports(exn, s.code)
    case Ok(done) => !FailsWith(done.failure, s.code) && !FailsWith(done.record.error, s.code)
  }

  lemma {:induction false} ItemSafe(s: Setting, n: string, payload: Object, w: World, depth: int)
    requires Fit(s) && Callable(s.e.plan, n) && Deep(s, n, depth)
    requires Accepted(s.e, n, Obj(payload))
    ensures SafeItem(s, RunItem(s.e, s.e.plan.At(n), payload, w, depth).outcome)
    decreases LIMIT - depth, 5, 0
  {
    match s.e.plan.At(n).repeat
    case None => FlowSafe(s, n, Obj(payload), w, depth);
    case Some(repeat) =>
      assert FlowFit(s, n) && RepeatFit(s, n);
      LoopSafe(s, n, Some(payload), Obj(payload), Obj(payload), [], map[], w, depth);
  }

  // ---- Repeats ----------------------------------------------------------------------------------

  // Records outside the repeat's own two stay as they were.
  predicate SameElsewhere(local: set<string>, before: FlowRecords, after: FlowRecords) {
    forall m | m in before && m !in local :: m in after && FlowAt(after, m) == FlowAt(before, m)
  }

  lemma ReadyElsewhere(e: Engine, plan: Plan, local: set<string>, before: FlowRecords, after: FlowRecords,
                       available: set<string>)
    requires RecordsReady(e, plan, before, available) && SameElsewhere(local, before, after) && available !! local
    ensures RecordsReady(e, plan, after, available)
  {
    forall n | n in available ensures RecordReady(e, plan, after, n) {
      assert RecordReady(e, plan, before, n);
    }
  }

  // The scope of a repeat: routed at the boundary, or one item.
  ghost predicate RepeatScope(s: Setting, n: string, item: Option<Object>, scope: Json) {
    && s.e.plan.At(n).repeat.Some?
    && (item.Some? <==> s.e.plan.At(n).callable)
    && InScope(s.e, ScopeOf(s, n), scope)
  }

  ghost predicate SafeLoop(s: Setting, n: string, before: FlowRecords, loop: Loop) {
    match loop.outcome
    case Err(exn) => !Reports(exn, s.code)
    case Ok(halted) =>
      && !FailsWith(halted.failure, s.code)
      && SafeRun(s, n, loop.last) && loop.last.attempts != []
      && (loop.last.status != Failed ==> FlowLeaves(s.e, s.e.plan, n, loop.last))
      && n in loop.records && FlowAt(loop.records, n) == loop.last
      && SameElsewhere(ItemLocal(s.e.plan, n), before, loop.records)
  }

  // Runs after which a repeat goes on.
  ghost predicate Going(e: Engine, flow: Flow, runs: seq<FlowRecord>) {
    forall run | run in runs :: Executed(e, flow, run) && run.status == Completed
  }

  ghost predicate RetriesGoing(s: Setting, n: string, records: FlowRecords) {
    forall retry {:trigger HasRetry(s.e.plan, n, retry)}
      | HasRetry(s.e.plan, n, retry) && retry in s.e.plan.flows ::
      Going(s.e, s.e.plan.At(retry), RunsOf(records, retry))
  }

  // One more run that did not fail.
  lemma GoingEnds(e: Engine, flow: Flow, runs: seq<FlowRecord>, run: FlowRecord)
    requires Going(e, flow, runs) && Ended(e, flow, run)
    ensures AllEnded(e, flow, runs + [run])
    ensures run.status == Completed ==> Going(e, flow, runs + [run])
  {
  }

  lemma RunExecuted(e: Engine, flow: Flow, payload: Json, w: World, depth: int)
    requires Accepted(e, flow.name, payload)
    ensures Executed(e, flow, ExecuteFlow(e, flow, payload, w, depth).record)
  {
  }

  predicate EndsIn(attempts: seq<FlowRecord>, run: FlowRecord) {
    attempts != [] && attempts[|attempts| - 1] == run
  }

  // The attempts up to this run, if it did not fail.
  ghost predicate Attempting(s: Setting, n: string, attempts: seq<FlowRecord>, run: FlowRecord) {
    && EndsIn(attempts, run)
    && (run.status != Failed ==> AllEnded(s.e, s.e.plan.At(n), attempts))
    && (run.status == Completed ==> Going(s.e, s.e.plan.At(n), attempts))
  }

  lemma AttemptStands(s: Setting, n: string, attempts: seq<FlowRecord>, run: FlowRecord, record: FlowRecord)
    requires n in s.e.plan.flows && s.e.plan.At(n).repeat.Some? && Attempting(s, n, attempts, run)
    requires run.status != Failed && record.attempts == attempts && record.result == run.result
             && record.error == run.error
    ensures FlowLeaves(s.e, s.e.plan, n, record)
  {
  }

  lemma BaseIsElsewhere(s: Setting, n: string)
    requires Fit(s) && n in s.e.plan.flows
    ensures Base(s, n) !! ItemLocal(s.e.plan, n)
  {
    assert FlowFit(s, n);
  }

  lemma {:induction false} LoopSafe(s: Setting, n: string, item: Option<Object>, scope: Json, input: Json,
                                    attempts: seq<FlowRecord>, records: FlowRecords, w: World, depth: int)
    requires Fit(s) && n in s.e.plan.flows && Deep(s, n, depth)
    requires RepeatScope(s, n, item, scope) && Accepted(s.e, n, input)
    requires |attempts| < s.e.plan.At(n).Repeating().maxAttempts
    requires RecordsReady(s.e, s.e.plan, records, Base(s, n))
    requires Going(s.e, s.e.plan.At(n), attempts) && RetriesGoing(s, n, records)
    ensures var flow := s.e.plan.At(n);
            SafeLoop(s, n, records, Attempts(s.e, flow, flow.Repeating(), item, scope, input, attempts, records, w,
                                             depth))
    decreases LIMIT - depth, 4, s.e.plan.At(n).Repeating().maxAttempts - |attempts|, 0
  {
    var flow := s.e.plan.At(n);
    var repeat, local := flow.Repeating(), ItemLocal(s.e.plan, n);
    assert flow.name == n by { assert FlowFit(s, n); }
    FlowSafe(s, n, input, w, depth);
    var run := ExecuteFlow(s.e, flow, input, w, depth);
    var attempts' := attempts + [run.record];
    var current := run.record.(attempts := attempts');
    var records' := records[n := current];
    AttemptGoes(s, n, input, attempts, w, depth);
    Repeats.FlowRan(s.e, flow, input, w, depth);
    BaseIsElsewhere(s, n);
    OthersGoing(s, n, records, current);
    ReadyElsewhere(s.e, s.e.plan, local, records, records', Base(s, n));
    DecideSafe(s, n, item, scope, run, attempts', records', depth);
    ProceedSafe(s, n, item, scope, run.record, attempts', records, records',
                Decide(s.e, flow, repeat, item, scope, run, |attempts'|, records', depth), depth);
  }

  lemma {:induction false} ProceedSafe(s: Setting, n: string, item: Option<Object>, scope: Json, run: FlowRecord,
                                       attempts: seq<FlowRecord>, before: FlowRecords, records: FlowRecords,
                                       decided: Decided, depth: int)
    requires Fit(s) && n in s.e.plan.flows && Deep(s, n, depth) && RepeatScope(s, n, item, scope)
    requires SafeRun(s, n, run) && Attempting(s, n, attempts, run) && run.attempts == []
    requires records == before[n := run.(attempts := attempts)]
    requires RecordsReady(s.e, s.e.plan, records, Base(s, n))
    requires SafeDecision(s, n, records, decided) && Follows(s.e.plan.At(n).Repeating(), run, |attempts|, decided)
    ensures var flow := s.e.plan.At(n);
            SafeLoop(s, n, before, Proceed(s.e, flow, flow.Repeating(), item, scope, run, attempts, decided, depth))
    decreases LIMIT - depth, 4, s.e.plan.At(n).Repeating().maxAttempts - |attempts|, 1
  {
    var flow := s.e.plan.At(n);
    assert flow.name == n by { assert FlowFit(s, n); }
    match decided.outcome
    case Err(_) =>
    case Ok(Halt(halted)) =>
      HaltSafe(s, n, run, attempts, records, decided, halted);
    case Ok(Again(next)) =>
      var records' := decided.records[n := run.(attempts := attempts)];
      NextReady(s, n, run, attempts, records, decided);
      LoopSafe(s, n, item, scope, Obj(next), attempts, records', decided.world, depth);
  }

  // The loop that ends with this decision.
  lemma HaltSafe(s: Setting, n: string, run: FlowRecord, attempts: seq<FlowRecord>, records: FlowRecords,
                 decided: Decided, halted: Halted)
    requires n in s.e.plan.flows && s.e.plan.At(n).repeat.Some? && attempts != []
    requires SafeRun(s, n, run) && Attempting(s, n, attempts, run)
    requires decided.outcome == Ok(Halt(halted)) && SafeDecision(s, n, records, decided)
    requires Follows(s.e.plan.At(n).Repeating(), run, |attempts|, decided)
    ensures var last := Standing(run, attempts, halted.status, Some(halted.stop));
            SafeLoop(s, n, records, Loop(Ok(halted), last, decided.records[n := last], decided.world))
  {
    var last := Standing(run, attempts, halted.status, Some(halted.stop));
    if last.status != Failed {
      AttemptStands(s, n, attempts, run, last);
    }
  }

  // The records the next attempt starts from.
  lemma NextReady(s: Setting, n: string, run: FlowRecord, attempts: seq<FlowRecord>, records: FlowRecords,
                  decided: Decided)
    requires Fit(s) && n in s.e.plan.flows && RecordsReady(s.e, s.e.plan, records, Base(s, n))
    requires SameElsewhere(ItemLocal(s.e.plan, n), records, decided.records) && RetriesGoing(s, n, decided.records)
    ensures var records' := decided.records[n := run.(attempts := attempts)];
            RecordsReady(s.e, s.e.plan, records', Base(s, n)) && RetriesGoing(s, n, records')
  {
    var current := run.(attempts := attempts);
    BaseIsElsewhere(s, n);
    OthersGoing(s, n, decided.records, current);
    ReadyElsewhere(s.e, s.e.plan, ItemLocal(s.e.plan, n), records, decided.records[n := current], Base(s, n));
  }

  lemma AttemptGoes(s: Setting, n: string, input: Json, attempts: seq<FlowRecord>, w: World, depth: int)
    requires n in s.e.plan.flows && s.e.plan.At(n).name == n && Accepted(s.e, n, input)
    requires Going(s.e, s.e.plan.At(n), attempts)
    ensures var run := ExecuteFlow(s.e, s.e.plan.At(n), input, w, depth).record;
            Attempting(s, n, attempts + [run], run)
  {
    var flow := s.e.plan.At(n);
    RunExecuted(s.e, flow, input, w, depth);
    var run := ExecuteFlow(s.e, flow, input, w, depth).record;
    if run.status != Failed {
      GoingEnds(s.e, flow, attempts, run);
    }
  }

  // The flow's own record is none of its retry flow's.
  lemma OthersGoing(s: Setting, n: string, records: FlowRecords, record: FlowRecord)
    requires Fit(s) && RetriesGoing(s, n, records)
    ensures RetriesGoing(s, n, records[n := record])
  {
    forall retry | HasRetry(s.e.plan, n, retry) && retry in s.e.plan.flows
      ensures RunsOf(records[n := record], retry) == RunsOf(records, retry)
    {
    }
  }

  ghost predicate SafeDecision(s: Setting, n: string, before: FlowRecords, decided: Decided) {
    && SameElsewhere(ItemLocal(s.e.plan, n), before, decided.records)
    && match decided.outcome
       case Err(exn) => !Reports(exn, s.code)
       case Ok(Halt(halted)) => !FailsWith(halted.failure, s.code)
       case Ok(Again(input)) => Accepted(s.e, n, Obj(input)) && RetriesGoing(s, n, decided.records)
  }

  // Only a completed run is followed by another, and only within the limit; a failed one
  // keeps its status.
  predicate Follows(repeat: Repeat, run: FlowRecord, attempt: int, decided: Decided) {
    match decided.outcome
    case Err(_) => true
    case Ok(Again(_)) => attempt < repeat.maxAttempts && run.status == Completed
    case Ok(Halt(halted)) => halted.status.Some? ==> run.status != Failed
  }

  lemma {:induction false} DecideSafe(s: Setting, n: string, item: Option<Object>, scope: Json, run: FlowRun,
                                      attempts: seq<FlowRecord>, records: FlowRecords, depth: int)
    requires Fit(s) && n in s.e.plan.flows && Deep(s, n, depth)
    requires run.record.status != Skipped
    requires RepeatScope(s, n, item, scope) && SafeRun(s, n, run.record) && Attempting(s, n, attempts, run.record)
    requires n in records && FlowAt(records, n) == run.record.(attempts := attempts)
    requires RecordsReady(s.e, s.e.plan, records, Base(s, n)) && RetriesGoing(s, n, records)
    ensures var flow := s.e.plan.At(n);
            var decided := Decide(s.e, flow, flow.Repeating(), item, scope, run, |attempts|, records, depth);
            SafeDecision(s, n, records, decided) && Follows(flow.Repeating(), run.record, |attempts|, decided)
    decreases LIMIT - depth, 3, 1
  {
    var flow := s.e.plan.At(n);
    var repeat := flow.Repeating();
    assert AuthoredRepeat(repeat) && (s.code == InvalidConfiguration ==> ShortRepeat(repeat)) by {
      assert FlowFit(s, n) && RepeatFit(s, n);
    }
    var until := Evaluate(repeat.until, WorkflowContext(scope, s.e.metadata, records), s.e.matcher);
    ConditionSafe(s, repeat.until, WorkflowContext(scope, s.e.metadata, records));
    Repeats.DecideIs(s.e, flow, repeat, item, scope, run, |attempts|, records, depth);
    var next := GoOn(s.e, flow, repeat, item, scope, run, records, depth);
    if run.record.status == Completed {
      assert RecordsReady(s.e, s.e.plan, records, Base(s, n) + {n}) by {
        AttemptStands(s, n, attempts, run.record, records[n]);
        assert RecordReady(s.e, s.e.plan, records, n);
      }
      match repeat.retryFlow
      case None => PrepareSafe(s, n, item, scope, run.issues, records, run.world);
      case Some(retry) =>
        assert HasRetry(s.e.plan, n, retry);
        RetrySafe(s, n, retry, item, scope, run.issues, records, run.world, depth);
    }
    DecidedSafe(s, n, until, run, |attempts|, records, next);
  }

  lemma DecidedSafe(s: Setting, n: string, until: Result<bool, ErrorCode>, run: FlowRun, attempt: int,
                    records: FlowRecords, next: Decided)
    requires n in s.e.plan.flows && s.e.plan.At(n).repeat.Some? && until != Err(s.code)
    requires run.record.status != Skipped
    requires run.record.status == Completed ==> SafeDecision(s, n, records, next)
    ensures var repeat := s.e.plan.At(n).Repeating();
            var decided := Repeats.DecidedBy(repeat, until, run, attempt, records, next);
            SafeDecision(s, n, records, decided) && Follows(repeat, run.record, attempt, decided)
  {
  }

  lemma RetryInputSafe(s: Setting, n: string, retry: string, item: Option<Object>, scope: Json, records: FlowRecords)
    requires Fit(s) && HasRetry(s.e.plan, n, retry)
    requires RepeatScope(s, n, item, scope) && RecordsReady(s.e, s.e.plan, records, Base(s, n) + {n})
    ensures SafeInput(s, retry, FlowInput(s.e, retry, s.e.plan.At(n).Repeating().retryFlowInput,
                                          WorkflowContext(scope, s.e.metadata, records)))
  {
    var site := SiteOf(s, n, Base(s, n) + {n});
    assert FlowFit(s, n) && RepeatFit(s, n);
    BoundaryReady(s.e, ScopeOf(s, n), site, scope, records);
    InputSafe(s, retry, ScopeOf(s, n), site, WorkflowContext(scope, s.e.metadata, records),
              s.e.plan.At(n).Repeating().retryFlowInput);
  }

  lemma {:induction false} RetrySafe(s: Setting, n: string, retry: string, item: Option<Object>, scope: Json,
                                     issues: seq<Issue>, records: FlowRecords, w: World, depth: int)
    requires Fit(s) && HasRetry(s.e.plan, n, retry) && Deep(s, n, depth)
    requires retry in s.e.plan.flows && RetriesGoing(s, n, records)
    requires RepeatScope(s, n, item, scope) && RecordsReady(s.e, s.e.plan, records, Base(s, n) + {n})
    ensures var flow := s.e.plan.At(n);
            SafeDecision(s, n, records,
              RunRetry(s.e, flow, flow.Repeating(), s.e.plan.At(retry), item, scope, issues, records, w, depth))
    decreases LIMIT - depth, 3, 0
  {
    var flow := s.e.plan.At(n);
    var repeat := flow.Repeating();
    RetryInputSafe(s, n, retry, item, scope, records);
    assert s.e.plan.At(retry).name == retry by { assert FlowFit(s, retry); }
    var input := FlowInput(s.e, retry, repeat.retryFlowInput, WorkflowContext(scope, s.e.metadata, records));
    if input.Err? {
      SafeCodes(s, input.error, w);
      assert retry in ItemLocal(s.e.plan, n);
    } else {
      FlowSafe(s, retry, Obj(input.value), w, depth);
      RunExecuted(s.e, s.e.plan.At(retry), Obj(input.value), w, depth);
      AfterRetrySafe(s, n, retry, item, scope, issues, records,
                     ExecuteFlow(s.e, s.e.plan.At(retry), Obj(input.value), w, depth));
    }
  }

  lemma AfterRetrySafe(s: Setting, n: string, retry: string, item: Option<Object>, scope: Json, issues: seq<Issue>,
                       records: FlowRecords, run: FlowRun)
    requires Fit(s) && HasRetry(s.e.plan, n, retry) && retry in s.e.plan.flows && SafeRun(s, retry, run.record)
    requires Executed(s.e, s.e.plan.At(retry), run.record) && RetriesGoing(s, n, records)
    requires RepeatScope(s, n, item, scope) && RecordsReady(s.e, s.e.plan, records, Base(s, n) + {n})
    ensures var flow := s.e.plan.At(n);
            SafeDecision(s, n, records,
              AfterRetry(s.e, flow, flow.Repeating(), s.e.plan.At(retry), item, scope, issues, records, run))
  {
    var records' := records[retry := RetryRecord(run.record, RunsOf(records, retry))];
    if run.record.status == Completed {
      RetryRecordReady(s, n, retry, records, run.record);
      PrepareSafe(s, n, item, scope, issues, records', run.world);
    }
    assert FlowFit(s, retry) && FlowFit(s, n) && RepeatFit(s, n);
    ExecutedStatus(s.e, s.e.plan.At(retry), run.record);
    RetryDecides(s, n, retry, item, scope, issues, records, run);
  }

  lemma RetryDecides(s: Setting, n: string, retry: string, item: Option<Object>, scope: Json, issues: seq<Issue>,
                     records: FlowRecords, run: FlowRun)
    requires HasRetry(s.e.plan, n, retry) && retry in s.e.plan.flows && s.e.plan.At(retry).name == retry
    requires s.code == InvalidConfiguration || s.code == MissingBinding
    requires run.record.status != Skipped
    requires !FailsWith(run.record.error, s.code) && AuthoredRepeat(s.e.plan.At(n).Repeating())
    requires s.code == InvalidConfiguration ==> ShortRepeat(s.e.plan.At(n).Repeating())
    requires run.record.status == Completed ==>
               var flow := s.e.plan.At(n);
               var records' := records[retry := RetryRecord(run.record, RunsOf(records, retry))];
               SafeDecision(s, n, records', Prepare(s.e, flow, flow.Repeating(), item, scope, issues, records',
                                                    run.world))
    ensures var flow := s.e.plan.At(n);
            SafeDecision(s, n, records,
              AfterRetry(s.e, flow, flow.Repeating(), s.e.plan.At(retry), item, scope, issues, records, run))
  {
    var proceed := s.e.plan.At(n).Repeating().continueWhen;
    var records' := records[retry := RetryRecord(run.record, RunsOf(records, retry))];
    if proceed.Some? {
      ConditionSafe(s, proceed.value, WorkflowContext(scope, s.e.metadata, records'));
    }
  }

  lemma RetryRecordReady(s: Setting, n: string, retry: string, records: FlowRecords, record: FlowRecord)
    requires Fit(s) && HasRetry(s.e.plan, n, retry) && retry in s.e.plan.flows && RetriesGoing(s, n, records)
    requires Executed(s.e, s.e.plan.At(retry), record) && record.status == Completed
    requires RecordsReady(s.e, s.e.plan, records, Base(s, n) + {n})
    ensures var records' := records[retry := RetryRecord(record, RunsOf(records, retry))];
            && RecordsReady(s.e, s.e.plan, records', Base(s, n) + ItemLocal(s.e.plan, n))
            && RetriesGoing(s, n, records')
  {
    var runs := RunsOf(records, retry);
    var records' := records[retry := RetryRecord(record, runs)];
    GoingEnds(s.e, s.e.plan.At(retry), runs, record);
    assert KeepsRuns(s.e.plan, retry);
    assert FlowLeaves(s.e, s.e.plan, retry, records'[retry]);
    forall m | m in Base(s, n) + ItemLocal(s.e.plan, n) ensures RecordReady(s.e, s.e.plan, records', m) {
      if m != retry {
        assert m in Base(s, n) + {n};
        assert RecordReady(s.e, s.e.plan, records, m);
      }
    }
  }

  // How an execution ends.
  lemma ExecutedStatus(e: Engine, flow: Flow, run: FlowRecord)
    requires Executed(e, flow, run)
    ensures run.status != Skipped
  {
    var payload, w, depth: int :|
      Accepted(e, flow.name, payload) && ExecuteFlow(e, flow, payload, w, depth).record == run;
    Repeats.FlowRan(e, flow, payload, w, depth);
  }

  lemma PrepareSafe(s: Setting, n: string, item: Option<Object>, scope: Json, issues: seq<Issue>, records: FlowRecords,
                    w: World)
    requires Fit(s) && n in s.e.plan.flows && RepeatScope(s, n, item, scope) && RetriesGoing(s, n, records)
    requires RecordsReady(s.e, s.e.plan, records,
               Base(s, n) + if s.e.plan.At(n).Repeating().retryFlow.Some? then ItemLocal(s.e.plan, n) else {n})
    ensures var flow := s.e.plan.At(n);
            SafeDecision(s, n, records, Prepare(s.e, flow, flow.Repeating(), item, scope, issues, records, w))
  {
    var flow := s.e.plan.At(n);
    var context := WorkflowContext(scope, s.e.metadata, records);
    NextInputSafe(s, n, item, scope, records);
    var next := if s.e.expired(w.tick) then Err(Error(RunTimeout))
        else NextInput(s.e, flow, flow.Repeating(), item, context);
    if next.Err? {
      SafeCodes(s, next.error, w.Next());
    }
  }

  lemma NextInputSafe(s: Setting, n: string, item: Option<Object>, scope: Json, records: FlowRecords)
    requires Fit(s) && n in s.e.plan.flows && RepeatScope(s, n, item, scope)
    requires RecordsReady(s.e, s.e.plan, records,
               Base(s, n) + if s.e.plan.At(n).Repeating().retryFlow.Some? then ItemLocal(s.e.plan, n) else {n})
    ensures var flow := s.e.plan.At(n);
            SafeInput(s, n, NextInput(s.e, flow, flow.Repeating(), item,
                                      WorkflowContext(scope, s.e.metadata, records)))
  {
    var flow := s.e.plan.At(n);
    var repeat := flow.Repeating();
    var context := WorkflowContext(scope, s.e.metadata, records);
    var available := Base(s, n) + ItemLocal(s.e.plan, n);
    assert FlowFit(s, n) && RepeatFit(s, n);
    if repeat.retryFlow.None? {
      assert ItemLocal(s.e.plan, n) == {n};
    }
    BoundaryReady(s.e, ScopeOf(s, n), SiteOf(s, n, available), scope, records);
    PairsSafe(s, ScopeOf(s, n), SiteOf(s, n, available), context, repeat.retryInput);
    if item.None? {
      BoundaryReady(s.e, ScopeOf(s, n), SiteOf(s, n, Base(s, n)), scope, records);
      OverrideSafe(s, n, context);
    } else {
      ReplacedSafe(s, n, repeat, item.value, context);
    }
  }

  // An item's next input, once its overrides are safe.
  lemma ReplacedSafe(s: Setting, n: string, repeat: Repeat, payload: Object, context: Json)
    requires Silent(s.e, s.code) && ResolveAll(repeat.retryInput, context) != Err(s.code)
    requires s.e.plan.At(n).name == n
    ensures SafeInput(s, n, NextInput(s.e, s.e.plan.At(n), repeat, Some(payload), context))
  {
  }

  lemma {:induction false} FoundBinding(overrides: seq<Named>, base: Named)
    ensures FindBinding(overrides, base) == base.binding
            || exists k :: 0 <= k < |overrides| && FindBinding(overrides, base) == overrides[k].binding
  {
    if overrides != [] && overrides[0].name != base.name {
      FoundBinding(overrides[1..], base);
      if k :| 0 <= k < |overrides[1..]| && FindBinding(overrides, base) == overrides[1..][k].binding {
        assert overrides[k + 1].binding == FindBinding(overrides, base);
      }
    }
  }

  lemma OverrideSafe(s: Setting, n: string, context: Json)
    requires Fit(s) && n in s.e.plan.flows && !s.e.plan.At(n).callable && s.e.plan.At(n).repeat.Some?
    requires Ready(s.e, ScopeOf(s, n), SiteOf(s, n, Base(s, n)), context)
    requires Ready(s.e, ScopeOf(s, n), SiteOf(s, n, Base(s, n) + ItemLocal(s.e.plan, n)), context)
    ensures SafeInput(s, n, FlowInput(s.e, n, Override(s.e.plan.At(n).input, s.e.plan.At(n).Repeating().retryInput),
                                      context))
  {
    var flow := s.e.plan.At(n);
    var base, overrides := flow.input, flow.Repeating().retryInput;
    var pairs := Override(base, overrides);
    assert FlowFit(s, n) && RepeatFit(s, n);
    forall k | 0 <= k < |pairs|
      ensures Authored(pairs[k].binding) && (s.code == InvalidConfiguration ==> Short(pairs[k].binding))
      ensures s.code == MissingBinding ==> Resolvable(pairs[k].binding, context)
    {
      OverriddenSafe(s, n, context, base[k]);
    }
    ResolvedSafe(s, n, pairs, context);
  }

  // Arguments that resolve in this context, bound as the input of a flow.
  lemma ResolvedSafe(s: Setting, n: string, pairs: seq<Named>, context: Json)
    requires s.code == InvalidConfiguration || s.code == MissingBinding
    requires Silent(s.e, s.code) && AuthoredPairs(pairs)
    requires s.code == InvalidConfiguration ==> ShortPairs(pairs)
    requires s.code == MissingBinding ==> AllResolvable(pairs, context)
    ensures SafeInput(s, n, FlowInput(s.e, n, pairs, context))
  {
    ArgumentsResolve(pairs, context);
    if s.code == InvalidConfiguration {
      ShortPairsNeverOverlong(pairs, context);
    }
    var inputs := ResolveAll(pairs, context);
    if inputs.Ok? {
      var rejected := s.e.validate(n, inputs.value);
    }
  }

  lemma OverriddenSafe(s: Setting, n: string, context: Json, base: Named)
    requires FlowFit(s, n) && !s.e.plan.At(n).callable && RepeatFit(s, n) && base in s.e.plan.At(n).input
    requires Ready(s.e, ScopeOf(s, n), SiteOf(s, n, Base(s, n)), context)
    requires Ready(s.e, ScopeOf(s, n), SiteOf(s, n, Base(s, n) + ItemLocal(s.e.plan, n)), context)
    ensures var binding := FindBinding(s.e.plan.At(n).Repeating().retryInput, base);
            && Authored(binding) && (s.code == InvalidConfiguration ==> Short(binding))
            && (s.code == MissingBinding ==> Resolvable(binding, context))
  {
    var flow := s.e.plan.At(n);
    var overrides := flow.Repeating().retryInput;
    FoundBinding(overrides, base);
    if s.code == MissingBinding {
      ReadyResolvesAll(s.e, ScopeOf(s, n), SiteOf(s, n, Base(s, n)), context, flow.input);
      ReadyResolvesAll(s.e, ScopeOf(s, n), SiteOf(s, n, Base(s, n) + ItemLocal(s.e.plan, n)), context, overrides);
    }
  }
}
