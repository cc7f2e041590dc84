/**
 Where every result of a run comes from: each flow record's result, and each retained
 attempt's, was projected from records its own steps produced.  No compiler check is needed.
 */
module Production {
  import opened Foundations
  import opened Json
  import opened Bindings
  import opened Overrides
  import opened Plans
  import opened Accounting
  import opened Records
  import opened Engine
  import opened Availability
  import opened Readiness

  // ---- Steps ------------------------------------------------------------------------------

  lemma {:induction false} SkippedNames(steps: seq<Step>)
    ensures SkippedSteps(steps).Keys == Names(steps)
    decreases |steps|
  {
    if steps != [] {
      var rest := steps[..|steps| - 1];
      SkippedNames(rest);
      NamesGrow(steps, |steps| - 1);
      assert steps[..|steps| - 1 + 1] == steps;
    }
  }

  // Every step starts with its own skipped record.
  lemma {:induction false} SkippedAt(steps: seq<Step>, j: nat)
    requires DistinctNames(steps) && j < |steps|
    ensures IsSkipped(steps[j], SkippedSteps(steps))
    decreases |steps|
  {
    var last := |steps| - 1;
    if j < last {
      assert steps[..last][j] == steps[j] && steps[j].name != steps[last].name;
      SkippedAt(steps[..last], j);
    }
  }

  predicate IsSkipped(step: Step, records: StepRecords) {
    step.name in records && records[step.name] == SkippedStep(step)
  }

  lemma SkippedRecords(steps: seq<Step>)
    requires DistinctNames(steps)
    ensures SkippedSteps(steps).Keys == Names(steps)
    ensures forall step | step in steps :: IsSkipped(step, SkippedSteps(steps))
  {
    SkippedNames(steps);
    forall step | step in steps ensures IsSkipped(step, SkippedSteps(steps)) {
      var j :| 0 <= j < |steps| && steps[j] == step;
      SkippedAt(steps, j);
    }
  }

  lemma SkippedProduced(e: Engine, steps: seq<Step>)
    requires DistinctNames(steps)
    ensures StepsProduced(e, steps, SkippedSteps(steps))
  {
    SkippedRecords(steps);
  }

  lemma ProducedAfter(e: Engine, steps: seq<Step>, records: StepRecords, step: Step, record: StepRecord)
    requires StepsProduced(e, steps, records) && step in steps && DistinctNames(steps)
    requires Clean(step, record) && Sourced(e, step, record)
    ensures StepsProduced(e, steps, records[step.name := record])
  {
    var after := records[step.name := record];
    forall other | other in steps ensures StepProduced(e, other, after) {
      assert StepProduced(e, other, records);
      assert other.name == step.name ==> other == step;
    }
  }

  // A batch that did not fail has no failure.
  predicate BatchClean(result: Result<Batch, Exn>) {
    match result
    case Err(_) => true
    case Ok(batch) => batch.status != Skipped && (batch.status != Failed ==> batch.failure.None?)
  }

  lemma {:induction false} ItemsLeaveClean(e: Engine, k: nat, batch: Batch, w: World, depth: int)
    requires batch.failure.None? && batch.status != Skipped
    ensures BatchClean(RunItems(e, k, batch, w, depth).0)
    decreases |batch.entries| - k
  {
    if k < |batch.entries| {
      var item := batch.entries[k].item;
      var run := RunItem(e, e.plan.At(item.flow), item.payload, w, depth);
      if run.outcome.Ok? && !run.outcome.value.Stops() {
        ItemsLeaveClean(e, k + 1, Entered(batch, k, run.outcome.value), run.world, depth);
      }
    }
  }

  // A collection that did not fail leaves a clean record with a ledger.
  ghost predicate CollectionMade(e: Engine, step: Step, result: Result<StepRecord, Exn>) {
    match result
    case Err(_) => true
    case Ok(record) =>
      record.status != Skipped
      && (record.status != Failed ==> Clean(step, record) && record.result.Some? && Sourced(e, step, record))
  }

  lemma CollectionMakes(e: Engine, step: Step, inputs: Object, w: World, depth: int)
    requires step.Collection?
    ensures CollectionMade(e, step, ExecuteCollection(e, step, inputs, w, depth).0)
  {
    if depth < LIMIT && ItemsOnly(step, inputs) {
      var (checked, w1) := CheckItems(e, step, RawItems(inputs), [], {}, w);
      if checked.Ok? {
        var batch := EmptyBatch(e.plan, checked.value);
        BatchRuns(e, step, inputs, w, depth, checked.value, w1);
        ItemsLeaveClean(e, 0, batch, w1, depth + 1);
        var result := RunItems(e, 0, batch, w1, depth + 1).0;
        assert result.Ok? ==> IsLedger(result.value.entries, Ledger(result.value.entries));
      }
    }
  }

  ghost predicate StepMade(e: Engine, steps: seq<Step>, before: StepRecords, run: StepRun) {
    match run
    case Interrupted(_, _, _) => true
    case Bypassed(p) => p.steps == before
    case Ran(record, _, p) => record.status != Failed ==> StepsProduced(e, steps, p.steps)
  }

  lemma StepMakes(e: Engine, steps: seq<Step>, step: Step, payload: Json, p: Progress, depth: int)
    requires DistinctNames(steps) && step in steps && StepsProduced(e, steps, p.steps)
    ensures StepMade(e, steps, p.steps, RunStep(e, step, payload, p, depth))
  {
    var p1 := p.(world := p.world.Next());
    var p2 := p1.(world := p1.world.(consumed := p1.world.consumed + 1));
    var inputs := ResolveAll(step.Arguments(), Context(e, payload, p1));
    if inputs.Ok? && p1.world.consumed < e.maxSteps {
      EnterRuns(e, step, payload, p1, p2, inputs.value, depth);
      if step.Collection? {
        CollectionMakes(e, step, inputs.value, p2.world, depth);
        var result := ExecuteCollection(e, step, inputs.value, p2.world, depth).0;
        if result.Ok? && result.value.status != Failed {
          ProducedAfter(e, steps, p2.steps, step, result.value);
        }
      } else {
        var run := RunOperation(e, step, inputs.value, p2);
        if run.Ran? {
          var reply := e.execute(p2.world.tick, step, inputs.value).reply;
          assert reply.Returned? && run.record.result == Some(reply.outcome.result);
          assert Supplied(e, step, reply.outcome.result, reply.outcome.selection);
          ProducedAfter(e, steps, p2.steps, step, run.record);
        }
      }
    }
  }

  // ---- Flows ----------------------------------------------------------------------------------

  // A result the record holds was delivered by its flow.
  ghost predicate Made(e: Engine, flow: Flow, record: FlowRecord) {
    match record.result
    case None => true
    case Some(result) => Delivered(e, flow, result)
  }

  ghost predicate AttemptsMade(e: Engine, flow: Flow, attempts: seq<FlowRecord>) {
    forall run {:trigger Made(e, flow, run)} | run in attempts :: Made(e, flow, run)
  }

  ghost predicate RecordMade(e: Engine, flow: Flow, record: FlowRecord) {
    Made(e, flow, record) && AttemptsMade(e, flow, record.attempts)
  }

  lemma {:induction false} FlowMakes(e: Engine, flow: Flow, payload: Json, w: World, depth: int)
    requires Accepted(e, flow.name, payload) && DistinctNames(flow.steps)
    ensures var record := ExecuteFlow(e, flow, payload, w, depth).record; Made(e, flow, record) && record.attempts == []
  {
    SkippedProduced(e, flow.steps);
    StepsMake(e, flow, payload, 0, Progress(SkippedSteps(flow.steps), NO_USAGE, w), depth);
  }

  lemma {:induction false} StepsMake(e: Engine, flow: Flow, payload: Json, k: nat, p: Progress, depth: int)
    requires Accepted(e, flow.name, payload) && DistinctNames(flow.steps)
    requires StepsProduced(e, flow.steps, p.steps)
    ensures var record := RunSteps(e, flow, payload, k, p, depth).record; Made(e, flow, record) && record.attempts == []
    decreases |flow.steps| - k
  {
    if k >= |flow.steps| {
      ProjectMakes(e, flow, payload, p, Completed, []);
    } else {
      StepMakes(e, flow.steps, flow.steps[k], payload, p, depth);
      match RunStep(e, flow.steps[k], payload, p, depth)
      case Interrupted(_, _, _) =>
      case Bypassed(p') => StepsMake(e, flow, payload, k + 1, p', depth);
      case Ran(record, issues, p') =>
        if record.status == NeedsReview {
          ProjectMakes(e, flow, payload, p', NeedsReview, issues);
        } else if record.status != Failed {
          StepsMake(e, flow, payload, k + 1, p', depth);
        }
    }
  }

  lemma ProjectMakes(e: Engine, flow: Flow, payload: Json, p: Progress, status: Status, issues: seq<Issue>)
    requires Accepted(e, flow.name, payload) && StepsProduced(e, flow.steps, p.steps)
    ensures var record := Project(e, flow, payload, p, status, issues).record;
            Made(e, flow, record) && record.attempts == []
  {
    if flow.output.Some? {
      var result := ResolveBinding(flow.output.value, Context(e, payload, p));
      if result.Ok? {
        assert IsProjection(e, flow, flow.output.value, payload, p.steps, result.value);
      }
    }
  }

  // ---- Records of a scope -----------------------------------------------------------------------

  // Flows stand under their own names and their steps under distinct ones.
  predicate WellNamed(plan: Plan) {
    forall n {:trigger plan.At(n)} | n in plan.flows :: plan.At(n).name == n && DistinctNames(plan.At(n).steps)
  }

  ghost predicate MadeAt(e: Engine, records: FlowRecords, n: string) {
    n in records && n in e.plan.flows ==> RecordMade(e, e.plan.At(n), FlowAt(records, n))
  }

  ghost predicate AllMade(e: Engine, records: FlowRecords) {
    forall n {:trigger MadeAt(e, records, n)} | n in records :: MadeAt(e, records, n)
  }

  lemma RecordPut(e: Engine, records: FlowRecords, name: string, record: FlowRecord)
    requires AllMade(e, records) && name in e.plan.flows && RecordMade(e, e.plan.At(name), record)
    ensures AllMade(e, records[name := record])
  {
    var after := records[name := record];
    forall n | n in after ensures MadeAt(e, after, n) {
      assert n in records ==> MadeAt(e, records, n);
    }
  }

  predicate AcceptedInput(e: Engine, name: string, input: Result<Object, Exn>) {
    match input
    case Err(_) => true
    case Ok(fields) => Accepted(e, name, Obj(fields))
  }

  lemma InputAccepted(e: Engine, name: string, bindings: seq<Named>, context: Json)
    ensures AcceptedInput(e, name, FlowInput(e, name, bindings, context))
  {
  }

  lemma RetryPut(e: Engine, records: FlowRecords, retry: string, run: FlowRecord)
    requires AllMade(e, records) && retry in e.plan.flows && Made(e, e.plan.At(retry), run)
    ensures AllMade(e, records[retry := RetryRecord(run, RunsOf(records, retry))])
  {
    assert retry in records ==> MadeAt(e, records, retry);
    RecordPut(e, records, retry, RetryRecord(run, RunsOf(records, retry)));
  }

  lemma RetryMakes(e: Engine, flow: Flow, repeat: Repeat, retry: string, item: Option<Object>, scope: Json,
                   issues: seq<Issue>, records: FlowRecords, w: World, depth: int)
    requires WellNamed(e.plan) && AllMade(e, records) && retry in e.plan.flows
    ensures AllMade(e, RunRetry(e, flow, repeat, e.plan.At(retry), item, scope, issues, records, w, depth).records)
  {
    var called := e.plan.At(retry);
    var bound := FlowInput(e, retry, repeat.retryFlowInput, WorkflowContext(scope, e.metadata, records));
    if bound.Err? {
      RetryPut(e, records, retry, FailedBeforeRun(called, RecordFailure(e, bound.error, w).0));
    } else {
      InputAccepted(e, retry, repeat.retryFlowInput, WorkflowContext(scope, e.metadata, records));
      FlowMakes(e, called, Obj(bound.value), w, depth);
      RetryPut(e, records, retry, ExecuteFlow(e, called, Obj(bound.value), w, depth).record);
    }
  }

  lemma DecideMakes(e: Engine, flow: Flow, repeat: Repeat, item: Option<Object>, scope: Json, run: FlowRun,
                    attempt: int, records: FlowRecords, depth: int)
    requires WellNamed(e.plan) && AllMade(e, records)
    ensures AllMade(e, Decide(e, flow, repeat, item, scope, run, attempt, records, depth).records)
  {
    if repeat.retryFlow.Some? && repeat.Retry() in e.plan.flows {
      RetryMakes(e, flow, repeat, repeat.Retry(), item, scope, run.issues, records, run.world, depth);
    }
    var decided := Decide(e, flow, repeat, item, scope, run, attempt, records, depth);
    assert decided.records == records || decided == GoOn(e, flow, repeat, item, scope, run, records, depth);
  }

  // Every record a repeat leaves in its scope was made by its flow.
  lemma {:induction false} AttemptsMake(e: Engine, n: string, repeat: Repeat, item: Option<Object>, scope: Json,
                                        input: Json, attempts: seq<FlowRecord>, records: FlowRecords, w: World,
                                        depth: int)
    requires WellNamed(e.plan) && n in e.plan.flows && Accepted(e, n, input)
    requires AllMade(e, records) && AttemptsMade(e, e.plan.At(n), attempts)
    ensures AllMade(e, Attempts(e, e.plan.At(n), repeat, item, scope, input, attempts, records, w, depth).records)
    decreases repeat.maxAttempts - |attempts|, 0
  {
    var flow := e.plan.At(n);
    if |attempts| < repeat.maxAttempts {
      FlowMakes(e, flow, input, w, depth);
      var run := ExecuteFlow(e, flow, input, w, depth);
      var attempts' := attempts + [run.record];
      var records' := records[n := run.record.(attempts := attempts')];
      RecordPut(e, records, n, run.record.(attempts := attempts'));
      DecideMakes(e, flow, repeat, item, scope, run, |attempts'|, records', depth);
      AgainAccepted(e, flow, repeat, item, scope, run, |attempts'|, records', depth);
      ProceedMakes(e, n, repeat, item, scope, run.record, attempts',
                   Decide(e, flow, repeat, item, scope, run, |attempts'|, records', depth), depth);
    }
  }

  lemma {:induction false} ProceedMakes(e: Engine, n: string, repeat: Repeat, item: Option<Object>, scope: Json,
                                        run: FlowRecord, attempts: seq<FlowRecord>, decided: Decided, depth: int)
    requires WellNamed(e.plan) && n in e.plan.flows && Made(e, e.plan.At(n), run)
    requires AllMade(e, decided.records) && AttemptsMade(e, e.plan.At(n), attempts)
    requires NextAccepted(e, e.plan.At(n), decided)
    ensures AllMade(e, Proceed(e, e.plan.At(n), repeat, item, scope, run, attempts, decided, depth).records)
    decreases repeat.maxAttempts - |attempts|, 1
  {
    match decided.outcome
    case Err(_) =>
    case Ok(Halt(halted)) =>
      RecordPut(e, decided.records, n, Standing(run, attempts, halted.status, Some(halted.stop)));
    case Ok(Again(next)) =>
      var current := run.(attempts := attempts);
      RecordPut(e, decided.records, n, current);
      AttemptsMake(e, n, repeat, item, scope, Obj(next), attempts, decided.records[n := current], decided.world, depth);
  }

  // The next attempt's input was accepted by the flow's contract.
  predicate NextAccepted(e: Engine, flow: Flow, decided: Decided) {
    match decided.outcome
    case Ok(Again(input)) => Accepted(e, flow.name, Obj(input))
    case _ => true
  }

  lemma AgainAccepted(e: Engine, flow: Flow, repeat: Repeat, item: Option<Object>, scope: Json, run: FlowRun,
                      attempt: int, records: FlowRecords, depth: int)
    ensures NextAccepted(e, flow, Decide(e, flow, repeat, item, scope, run, attempt, records, depth))
  {
    match repeat.retryFlow
    case None => PrepareAccepted(e, flow, repeat, item, scope, run.issues, records, run.world);
    case Some(retry) =>
      RetryAccepted(e, flow, repeat, e.plan.At(retry), item, scope, run.issues, records, run.world, depth);
  }

  lemma RetryAccepted(e: Engine, flow: Flow, repeat: Repeat, retry: Flow, item: Option<Object>, scope: Json,
                      issues: seq<Issue>, records: FlowRecords, w: World, depth: int)
    ensures NextAccepted(e, flow, RunRetry(e, flow, repeat, retry, item, scope, issues, records, w, depth))
  {
    var bound := FlowInput(e, retry.name, repeat.retryFlowInput, WorkflowContext(scope, e.metadata, records));
    if bound.Ok? {
      var again := ExecuteFlow(e, retry, Obj(bound.value), w, depth);
      PrepareAccepted(e, flow, repeat, item, scope, issues,
                      records[retry.name := RetryRecord(again.record, RunsOf(records, retry.name))], again.world);
    }
  }

  lemma PrepareAccepted(e: Engine, flow: Flow, repeat: Repeat, item: Option<Object>, scope: Json, issues: seq<Issue>,
                        records: FlowRecords, w: World)
    ensures NextAccepted(e, flow, Prepare(e, flow, repeat, item, scope, issues, records, w))
  {
    var context := WorkflowContext(scope, e.metadata, records);
    InputAccepted(e, flow.name, Override(flow.input, repeat.retryInput), context);
    if item.Some? {
      var overrides := ResolveAll(repeat.retryInput, context);
    }
  }
}
