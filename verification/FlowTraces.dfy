/**
 What one execution of a flow does: its steps are visited in order, each runs exactly when its
 condition holds in the records its predecessors left, and the first one that fails or asks for
 review is the last.
 */
module FlowTraces {
  import opened Foundations
  import opened Json
  import opened Bindings
  import opened Conditions
  import opened Plans
  import opened Accounting
  import opened Records
  import opened Engine

  // ---- One visit --------------------------------------------------------------------------------

  // A step without a condition, or with one that holds.
  predicate Allowed(e: Engine, step: Step, context: Json) {
    match step.guard
    case None => true
    case Some(condition) => Evaluate(condition, context, e.matcher) == Ok(true)
  }

  predicate Forbidden(e: Engine, step: Step, context: Json) {
    match step.guard
    case None => false
    case Some(condition) => Evaluate(condition, context, e.matcher) == Ok(false)
  }

  // One look at the clock; nothing is counted or spent.
  function Looked(p: Progress): Progress {
    Progress(p.steps, p.usage, World(p.world.tick + 1, p.world.consumed, p.world.spent))
  }

  // The world a step runs in: one look at the clock and one step counted.
  function Counting(p: Progress): Progress {
    Progress(p.steps, p.usage, World(p.world.tick + 1, p.world.consumed + 1, p.world.spent))
  }

  // Before the deadline, a step whose condition is false changes nothing.
  lemma ForbiddenIsSkipped(e: Engine, step: Step, payload: Json, p: Progress, depth: int)
    requires !e.expired(p.world.tick) && Forbidden(e, step, FlowContext(payload, e.metadata, p.steps))
    ensures RunStep(e, step, payload, p, depth)
            == Bypassed(Looked(p))
  {
  }

  // After the deadline no step is entered, and a condition that cannot be evaluated stops the flow.
  lemma NeitherStops(e: Engine, step: Step, payload: Json, p: Progress, depth: int, code: ErrorCode)
    ensures e.expired(p.world.tick) ==>
              RunStep(e, step, payload, p, depth) == Interrupted(Error(RunTimeout), None, Looked(p))
    ensures !e.expired(p.world.tick) && Fails(e, step, FlowContext(payload, e.metadata, p.steps), code) ==>
              RunStep(e, step, payload, p, depth) == Interrupted(Error(code), None, Looked(p))
  {
  }

  predicate Fails(e: Engine, step: Step, context: Json, code: ErrorCode) {
    match step.guard
    case None => false
    case Some(condition) => Evaluate(condition, context, e.matcher) == Err(code)
  }

  // An allowed step is counted, and runs on what its bindings deliver.
  ghost predicate EntersWith(e: Engine, step: Step, context: Json, p: Progress, depth: int, run: StepRun) {
    if p.world.consumed >= e.maxSteps then run.Interrupted? && run.exn == Error(StepLimitReached)
    else
      match ResolveAll(step.Arguments(), context)
      case Err(code) => run == Interrupted(Error(code), Some(Active(step.name, NO_USAGE, step.Collection?)),
                                           Counting(p))
      case Ok(inputs) =>
        && Binds(step.Arguments(), context, inputs)
        && run == if step.Collection? then RunCollection(e, step, inputs, Counting(p), depth)
                  else RunOperation(e, step, inputs, Counting(p))
  }

  lemma AllowedIsEntered(e: Engine, step: Step, payload: Json, p: Progress, depth: int)
    requires !e.expired(p.world.tick) && Allowed(e, step, FlowContext(payload, e.metadata, p.steps))
    ensures EntersWith(e, step, FlowContext(payload, e.metadata, p.steps), p, depth,
                    RunStep(e, step, payload, p, depth))
  {
    var context := FlowContext(payload, e.metadata, p.steps);
    var p1 := p.(world := p.world.Next());
    assert RunStep(e, step, payload, p, depth) == EnterStep(e, step, payload, p1, depth);
    var inputs := ResolveAll(step.Arguments(), context);
    if inputs.Ok? {
      ArgumentsBind(step.Arguments(), context, inputs.value);
    }
  }

  // What a visit comes to: a step that was passed by was forbidden and left no trace, one that ran
  // was allowed and ran on what its bindings delivered.
  ghost predicate Visited(e: Engine, step: Step, context: Json, p: Progress, depth: int, run: StepRun) {
    match run
    case Interrupted(_, active, p') => p'.steps == p.steps && Names(active, step.name)
    case Bypassed(p') =>
      && !e.expired(p.world.tick) && Forbidden(e, step, context)
      && p' == Looked(p)
    case Ran(record, _, p') =>
      && !e.expired(p.world.tick) && Allowed(e, step, context) && p.world.consumed < e.maxSteps
      && record.status != Skipped
      && p'.steps == p.steps[step.name := record]
      && exists inputs: Object {:trigger Binds(step.Arguments(), context, inputs)} ::
           Binds(step.Arguments(), context, inputs) && Performed(e, step, inputs, Counting(p), depth, record,
                                                                 run.issues)
  }

  predicate Names(active: Option<Active>, name: string) {
    active.Some? ==> active.value.name == name
  }

  // The record is what the executor or the collection left.
  ghost predicate Performed(e: Engine, step: Step, inputs: Object, p: Progress, depth: int, record: StepRecord,
                            issues: seq<Issue>) {
    if step.Collection? then
      issues == [] && ExecuteCollection(e, step, inputs, p.world, depth).0 == Ok(record)
    else
      match e.execute(p.world.tick, step, inputs)
      case Execution(Returned(outcome), usage) =>
        && !e.expired(p.world.tick + 1) && ValidOutcome(outcome, step) && Fits(outcome.result, 0, MAX_JSON_DEPTH)
        && record == StepRecord(if outcome.needsReview then NeedsReview else Completed, Some(outcome.result), None,
                                Some(usage), outcome.selection, None, false)
        && issues == if outcome.needsReview then outcome.issues else []
      case _ => false
  }

  lemma OperationPerforms(e: Engine, step: Step, inputs: Object, p: Progress)
    requires step.Operation?
    ensures match RunOperation(e, step, inputs, p)
            case Ran(record, issues, p') =>
              && Performed(e, step, inputs, p, 0, record, issues) && p'.steps == p.steps[step.name := record]
              && p'.world.spent == p.world.spent + [e.execute(p.world.tick, step, inputs).usage]
              && p'.usage == p.usage.Plus(e.execute(p.world.tick, step, inputs).usage)
            case Interrupted(_, active, p') => p'.steps == p.steps && Names(active, step.name)
            case Bypassed(_) => false
  {
  }

  // The executor returned in time, and what it returned is accepted.
  predicate Accepted(e: Engine, step: Step, reply: Reply, tick: nat) {
    match reply
    case Returned(outcome) =>
      !e.expired(tick) && ValidOutcome(outcome, step) && Fits(outcome.result, 0, MAX_JSON_DEPTH)
    case _ => false
  }

  // What an executor's exception is recorded as: its own code, a timeout after the bound that was
  // hit, and anything else as a failed dependency.
  predicate RecordedAs(exn: Exn, late: bool, failure: Failure) {
    match exn
    case Service(code, retryable) =>
      if (code == RequestTimeout || code == RunTimeout) && !retryable
      then failure == Failure(if late then RunTimeout else RequestTimeout, false)
      else failure == Failure(code, retryable)
    case _ => failure == Failure(DependencyFailure, false)
  }

  // The exception an executor's reply interrupts its step with.
  predicate Interrupts(reply: Reply, late: bool, exn: Exn) {
    match reply
    case TimedOut => exn == Error(RunTimeout)
    case Raised(raised) =>
      if raised == Error(RequestTimeout) || raised == Error(RunTimeout)
      then exn == Error(if late then RunTimeout else RequestTimeout)
      else exn == raised
    case Returned(_) => exn == Error(if late then RunTimeout else InvalidOutput)
  }

  // An operation leaves a record exactly when its executor's outcome is accepted; otherwise it is
  // interrupted, and what it used is not lost.
  lemma OperationSettles(e: Engine, step: Step, inputs: Object, p: Progress)
    ensures var execution := e.execute(p.world.tick, step, inputs);
            match RunOperation(e, step, inputs, p)
            case Ran(_, _, _) => Accepted(e, step, execution.reply, p.world.tick + 1)
            case Interrupted(exn, active, _) =>
              && !Accepted(e, step, execution.reply, p.world.tick + 1)
              && active == Some(Active(step.name, execution.usage, false))
              && Interrupts(execution.reply, e.expired(p.world.tick + 1), exn)
            case Bypassed(_) => false
  {
  }

  // An interrupted flow fails with that failure, and so does the step it was in.
  lemma AbortRecords(e: Engine, p: Progress, exn: Exn, active: Option<Active>, issues: seq<Issue>)
    ensures var run := Abort(e, p, exn, active, issues);
            && run.record.status == Failed && run.record.result.None? && run.record.error.Some?
            && RecordedAs(exn, e.expired(p.world.tick), run.record.error.value)
            && match active
               case None => run.record.steps == p.steps
               case Some(step) =>
                 && run.record.steps.Keys == p.steps.Keys + {step.name}
                 && (forall n | n in p.steps && n != step.name :: run.record.steps[n] == p.steps[n])
                 && var record := run.record.steps[step.name];
                 && record.status == Failed && record.error == run.record.error && record.usage == Some(step.usage)
                 && record.result.None? && record.collection == step.collection
  {
  }

  lemma {:induction false} ItemsRan(e: Engine, k: nat, batch: Batch, w: World, depth: int)
    requires batch.status != Skipped
    ensures match RunItems(e, k, batch, w, depth).0
            case Err(_) => true
            case Ok(after) => after.status != Skipped
    decreases |batch.entries| - k
  {
    if k < |batch.entries| {
      var item := batch.entries[k].item;
      var run := RunItem(e, e.plan.At(item.flow), item.payload, w, depth);
      if run.outcome.Ok? && !run.outcome.value.Stops() {
        ItemsRan(e, k + 1, Entered(batch, k, run.outcome.value), run.world, depth);
      }
    }
  }

  lemma CollectionRan(e: Engine, step: Step, inputs: Object, w: World, depth: int)
    ensures match ExecuteCollection(e, step, inputs, w, depth).0
            case Err(_) => true
            case Ok(record) => record.status != Skipped
  {
    var (checked, w1) := CheckItems(e, step, RawItems(inputs), [], {}, w);
    if depth < LIMIT && ItemsOnly(step, inputs) && checked.Ok? {
      BatchRuns(e, step, inputs, w, depth, checked.value, w1);
      ItemsRan(e, 0, EmptyBatch(e.plan, checked.value), w1, depth + 1);
    }
  }

  lemma VisitIs(e: Engine, step: Step, payload: Json, p: Progress, depth: int)
    ensures Visited(e, step, FlowContext(payload, e.metadata, p.steps), p, depth,
                    RunStep(e, step, payload, p, depth))
  {
    var context := FlowContext(payload, e.metadata, p.steps);
    if !e.expired(p.world.tick) && Forbidden(e, step, context) {
      ForbiddenIsSkipped(e, step, payload, p, depth);
    } else if !e.expired(p.world.tick) && Allowed(e, step, context) {
      AllowedIsEntered(e, step, payload, p, depth);
      var inputs := ResolveAll(step.Arguments(), context);
      if p.world.consumed < e.maxSteps && inputs.Ok? {
        if step.Operation? {
          OperationPerforms(e, step, inputs.value, Counting(p));
        } else {
          CollectionRan(e, step, inputs.value, Counting(p).world, depth);
        }
      }
    }
  }

  // ---- One execution ----------------------------------------------------------------------------

  // The records step number k found: those of its predecessors, and all others skipped.
  function Before(flow: Flow, records: StepRecords, k: nat): StepRecords {
    if k == 0 then SkippedSteps(flow.steps)
    else Before(flow, records, k - 1)[flow.Step(k - 1).name := StepAt(records, flow.Step(k - 1).name)]
  }

  function ContextAt(e: Engine, flow: Flow, payload: Json, records: StepRecords, k: nat): Json {
    FlowContext(payload, e.metadata, Before(flow, records, k))
  }

  // The step was allowed and left this record.
  ghost predicate RanThere(e: Engine, step: Step, context: Json, depth: int, record: StepRecord, issues: seq<Issue>) {
    && Allowed(e, step, context)
    && exists inputs: Object, p {:trigger Performed(e, step, inputs, p, depth, record, issues)} ::
         Binds(step.Arguments(), context, inputs) && Performed(e, step, inputs, p, depth, record, issues)
  }

  // The execution went past this step: it was skipped because its condition was false in the
  // records its predecessors left, or it was allowed there and completed.
  ghost predicate Past(e: Engine, flow: Flow, payload: Json, records: StepRecords, k: nat, depth: int) {
    var step, context := flow.Step(k), ContextAt(e, flow, payload, records, k);
    var record := StepAt(records, step.name);
    || (Forbidden(e, step, context) && record == SkippedStep(step))
    || (record.status == Completed && RanThere(e, step, context, depth, record, []))
  }

  // The result is the payload, or what the output delivers in the records left.
  predicate Delivered(e: Engine, flow: Flow, payload: Json, record: FlowRecord) {
    match (flow.output, record.result)
    case (None, Some(value)) => value == payload
    case (Some(output), Some(value)) =>
      ResolveBinding(output, FlowContext(payload, e.metadata, record.steps)) == Ok(value)
    case _ => false
  }

  // An execution that went past m steps and left all behind the next one skipped.
  ghost predicate Traced(e: Engine, flow: Flow, payload: Json, run: FlowRun, m: nat, depth: int) {
    var records, n := run.record.steps, |flow.steps|;
    && m <= n && (forall k: nat | k < m :: Past(e, flow, payload, records, k, depth))
    && records == Before(flow, records, if m < n then m + 1 else n)
    && match run.record.status
       case Completed => m == n && run.issues == [] && Delivered(e, flow, payload, run.record)
       case NeedsReview =>
         && m < n && StepAt(records, flow.Step(m).name).status == NeedsReview
         && RanThere(e, flow.Step(m), ContextAt(e, flow, payload, records, m), depth,
                     StepAt(records, flow.Step(m).name), run.issues)
         && Delivered(e, flow, payload, run.record)
       case Failed => run.record.result.None?
       case Skipped => false
  }

  lemma {:induction false} BeforeSame(flow: Flow, one: StepRecords, other: StepRecords, k: nat)
    requires forall j: nat | j < k :: StepAt(one, flow.Step(j).name) == StepAt(other, flow.Step(j).name)
    ensures Before(flow, one, k) == Before(flow, other, k)
  {
    if k > 0 {
      BeforeSame(flow, one, other, k - 1);
    }
  }

  // A later record changes nothing for the steps before.
  lemma LaterChangesNothing(e: Engine, flow: Flow, payload: Json, records: StepRecords, k: nat, record: StepRecord,
                            depth: int)
    requires DistinctNames(flow.steps) && k < |flow.steps|
    ensures Before(flow, records[flow.Step(k).name := record], k) == Before(flow, records, k)
    ensures forall j: nat | j < k && Past(e, flow, payload, records, j, depth) ::
              Past(e, flow, payload, records[flow.Step(k).name := record], j, depth)
  {
    var later := records[flow.Step(k).name := record];
    forall j: nat | j < k ensures StepAt(later, flow.Step(j).name) == StepAt(records, flow.Step(j).name) {
      assert flow.Step(j) == flow.steps[j] && flow.Step(k) == flow.steps[k];
    }
    BeforeSame(flow, later, records, k);
    forall j: nat | j < k ensures Before(flow, later, j) == Before(flow, records, j) {
      BeforeSame(flow, later, records, j);
    }
  }

  lemma {:induction false} SkippedHas(steps: seq<Step>, k: nat)
    requires k < |steps|
    ensures steps[k].name in SkippedSteps(steps)
    decreases |steps|
  {
    if k < |steps| - 1 {
      SkippedHas(steps[..|steps| - 1], k);
    }
  }

  lemma {:induction false} BeforeHas(flow: Flow, records: StepRecords, j: nat, k: nat)
    requires k < |flow.steps|
    ensures flow.Step(k).name in Before(flow, records, j)
  {
    if j == 0 {
      SkippedHas(flow.steps, k);
    } else {
      BeforeHas(flow, records, j - 1, k);
    }
  }

  // The execution so far.
  ghost predicate UpTo(e: Engine, flow: Flow, payload: Json, records: StepRecords, k: nat, depth: int) {
    && records == Before(flow, records, k)
    && forall j: nat | j < k :: Past(e, flow, payload, records, j, depth)
  }

  // The records after one more step.
  lemma OneMore(e: Engine, flow: Flow, payload: Json, records: StepRecords, k: nat, record: StepRecord, depth: int,
                later: StepRecords)
    requires DistinctNames(flow.steps) && k < |flow.steps| && UpTo(e, flow, payload, records, k, depth)
    requires later == records[flow.Step(k).name := record]
    ensures later == Before(flow, later, k + 1) && Before(flow, later, k) == records
    ensures forall j: nat | j < k :: Past(e, flow, payload, later, j, depth)
  {
    LaterChangesNothing(e, flow, payload, records, k, record, depth);
    assert StepAt(later, flow.Step(k).name) == record;
    forall j: nat | j < k ensures Past(e, flow, payload, later, j, depth) {
      assert Past(e, flow, payload, records, j, depth);
    }
  }

  // Nothing changed, so the records are those after one more step as well.
  lemma NoneMore(flow: Flow, records: StepRecords, k: nat)
    requires k < |flow.steps| && records == Before(flow, records, k)
    ensures records == Before(flow, records, k + 1)
  {
    BeforeHas(flow, records, k, k);
  }

  // A step that was passed by has its skipped record.
  lemma {:induction false} AheadIsSkipped(flow: Flow, records: StepRecords, j: nat, k: nat)
    requires DistinctNames(flow.steps) && j <= k < |flow.steps|
    ensures StepAt(Before(flow, records, j), flow.Step(k).name) == SkippedStep(flow.Step(k))
  {
    if j == 0 {
      SkippedIs(flow.steps, k);
    } else {
      AheadIsSkipped(flow, records, j - 1, k);
      assert flow.Step(j - 1) == flow.steps[j - 1] && flow.Step(k) == flow.steps[k];
    }
  }

  lemma {:induction false} SkippedIs(steps: seq<Step>, k: nat)
    requires DistinctNames(steps) && k < |steps|
    ensures StepAt(SkippedSteps(steps), steps[k].name) == SkippedStep(steps[k])
    decreases |steps|
  {
    if k < |steps| - 1 {
      SkippedIs(steps[..|steps| - 1], k);
    }
  }

  // The end of an execution: its result is projected, or that fails.
  lemma ProjectTrace(e: Engine, flow: Flow, payload: Json, p: Progress, status: Status, issues: seq<Issue>)
    requires status == Completed || status == NeedsReview
    ensures var run := Project(e, flow, payload, p, status, issues);
            && run.record.steps == p.steps
            && if run.record.status == Failed then run.record.result.None?
               else run.record.status == status && run.issues == issues && Delivered(e, flow, payload, run.record)
  {
  }

  lemma AbortTrace(e: Engine, flow: Flow, p: Progress, exn: Exn, active: Option<Active>, k: nat)
    requires k < |flow.steps| && p.steps == Before(flow, p.steps, k) && Names(active, flow.Step(k).name)
    ensures var run := Abort(e, p, exn, active, []);
            && run.record.status == Failed && run.record.result.None?
            && (run.record.steps == p.steps || Adds(p.steps, flow.Step(k).name, run.record.steps))
  {
  }

  // Only this record is new.
  predicate Adds(before: StepRecords, name: string, after: StepRecords) {
    after == before[name := StepAt(after, name)]
  }

  // A step that is interrupted ends its flow.
  lemma InterruptTrace(e: Engine, flow: Flow, payload: Json, k: nat, p: Progress, p': Progress, exn: Exn,
                       active: Option<Active>, depth: int)
    requires DistinctNames(flow.steps) && k < |flow.steps| && UpTo(e, flow, payload, p.steps, k, depth)
    requires p'.steps == p.steps && Names(active, flow.Step(k).name)
    ensures Traced(e, flow, payload, Abort(e, p', exn, active, []), k, depth)
  {
    var ended := Abort(e, p', exn, active, []);
    AbortTrace(e, flow, p', exn, active, k);
    NoneMore(flow, p.steps, k);
    if ended.record.steps != p.steps {
      OneMore(e, flow, payload, p.steps, k, StepAt(ended.record.steps, flow.Step(k).name), depth, ended.record.steps);
    }
  }

  // So does one whose record failed or needs review.
  lemma RecordTrace(e: Engine, flow: Flow, payload: Json, k: nat, p: Progress, p': Progress, depth: int,
                    record: StepRecord, issues: seq<Issue>)
    requires DistinctNames(flow.steps) && k < |flow.steps| && UpTo(e, flow, payload, p.steps, k, depth)
    requires p'.steps == p.steps[flow.Step(k).name := record] && record.status == NeedsReview
    requires RanThere(e, flow.Step(k), FlowContext(payload, e.metadata, p.steps), depth, record, issues)
    ensures Traced(e, flow, payload, Project(e, flow, payload, p', NeedsReview, issues), k, depth)
  {
    OneMore(e, flow, payload, p.steps, k, record, depth, p'.steps);
    ProjectTrace(e, flow, payload, p', NeedsReview, issues);
  }

  // A step that ends its flow.
  lemma StopTrace(e: Engine, flow: Flow, payload: Json, k: nat, p: Progress, depth: int, run: StepRun)
    requires DistinctNames(flow.steps) && k < |flow.steps| && UpTo(e, flow, payload, p.steps, k, depth)
    requires run == RunStep(e, flow.Step(k), payload, p, depth) && EndsFlow(run)
    requires Visited(e, flow.Step(k), ContextAt(e, flow, payload, p.steps, k), p, depth, run)
    ensures Traced(e, flow, payload, RunSteps(e, flow, payload, k, p, depth), k, depth)
  {
    match run
    case Interrupted(exn, active, p') =>
      InterruptTrace(e, flow, payload, k, p, p', exn, active, depth);
    case Bypassed(_) =>
    case Ran(record, issues, p') =>
      if record.status == NeedsReview {
        RecordTrace(e, flow, payload, k, p, p', depth, record, issues);
      } else {
        OneMore(e, flow, payload, p.steps, k, record, depth, p'.steps);
      }
  }

  // A step the flow goes past.
  lemma GoneOn(e: Engine, flow: Flow, payload: Json, k: nat, p: Progress, depth: int, run: StepRun)
    requires DistinctNames(flow.steps) && k < |flow.steps| && UpTo(e, flow, payload, p.steps, k, depth)
    requires Visited(e, flow.Step(k), ContextAt(e, flow, payload, p.steps, k), p, depth, run) && !EndsFlow(run)
    requires run.Ran? ==> run.record.status == Completed && run.issues == []
    ensures UpTo(e, flow, payload, run.progress.steps, k + 1, depth)
  {
    if run.Bypassed? {
      NoneMore(flow, p.steps, k);
      AheadIsSkipped(flow, p.steps, k, k);
    } else {
      OneMore(e, flow, payload, p.steps, k, run.record, depth, run.progress.steps);
    }
  }

  lemma VisitCompletes(run: StepRun)
    requires !EndsFlow(run)
    ensures run.Ran? && run.record.status != Skipped ==> run.record.status == Completed
  {
  }

  // What the step loop makes of the steps from number k on.
  lemma {:induction false} StepsTrace(e: Engine, flow: Flow, payload: Json, k: nat, p: Progress, depth: int)
      returns (m: nat)
    requires DistinctNames(flow.steps) && k <= |flow.steps| && UpTo(e, flow, payload, p.steps, k, depth)
    ensures Traced(e, flow, payload, RunSteps(e, flow, payload, k, p, depth), m, depth)
    decreases |flow.steps| - k
  {
    m := k;
    if k == |flow.steps| {
      ProjectTrace(e, flow, payload, p, Completed, []);
    } else {
      var run := RunStep(e, flow.Step(k), payload, p, depth);
      VisitIs(e, flow.Step(k), payload, p, depth);
      if EndsFlow(run) {
        StopTrace(e, flow, payload, k, p, depth, run);
      } else {
        StepsPass(e, flow, payload, k, p, depth, run);
        VisitCompletes(run);
        GoneOn(e, flow, payload, k, p, depth, run);
        m := StepsTrace(e, flow, payload, k + 1, run.progress, depth);
      }
    }
  }

  // Every execution of a flow is such a trace.
  lemma FlowFollowsTrace(e: Engine, flow: Flow, payload: Json, w: World, depth: int) returns (m: nat)
    requires DistinctNames(flow.steps)
    ensures Traced(e, flow, payload, ExecuteFlow(e, flow, payload, w, depth), m, depth)
  {
    m := StepsTrace(e, flow, payload, 0, Progress(SkippedSteps(flow.steps), NO_USAGE, w), depth);
  }

  // In a completed execution a step is skipped exactly when its condition was false in the
  // records its predecessors left, and ran exactly when it was allowed there.
  lemma SkippedWhenFalse(e: Engine, flow: Flow, payload: Json, w: World, depth: int, k: nat)
    requires DistinctNames(flow.steps) && k < |flow.steps|
    requires ExecuteFlow(e, flow, payload, w, depth).record.status == Completed
    ensures var records := ExecuteFlow(e, flow, payload, w, depth).record.steps;
            var status := StepAt(records, flow.Step(k).name).status;
            && (status == Skipped <==> Forbidden(e, flow.Step(k), ContextAt(e, flow, payload, records, k)))
            && (status == Completed <==> Allowed(e, flow.Step(k), ContextAt(e, flow, payload, records, k)))
  {
    var m := FlowFollowsTrace(e, flow, payload, w, depth);
    assert Past(e, flow, payload, ExecuteFlow(e, flow, payload, w, depth).record.steps, k, depth);
  }
}
