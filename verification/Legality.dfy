/**
 What the public contract says of records (which parts go with which status, how attempts are
 counted, how deep ledgers nest), and that every execution leaves such records.
 */
module Legality {
  import opened Foundations
  import opened Json
  import opened Plans
  import opened Accounting
  import opened Records
  import opened Engine
  import opened Repeats

  // The most items a public collection result lists.
  const MAX_COLLECTION_ITEMS: nat := 1024

  // ---- The public contract of records ------------------------------------------------

  // Presence of result, error and measurements for a status.
  predicate Presence(status: Status, result: Option<Json>, error: Option<Failure>, usage: Option<Usage>) {
    match status
    case Completed => result.Some? && error.None?
    case NeedsReview => error.None?
    case Failed => result.None? && error.Some?
    case Skipped => result.None? && error.None? && usage.None?
  }

  // A selection comes with a result, and its origin agrees with the status.
  predicate SelectionAgrees(record: StepRecord) {
    match record.selection
    case None => true
    case Some(selection) =>
      record.result.Some? && record.status == if selection.origin == FromModel then Completed else NeedsReview
  }

  // A step record at a nesting level; a collection's ledger is one level below.
  ghost predicate LegalStep(record: StepRecord, level: nat)
    decreases level, 1
  {
    && Presence(record.status, record.result, record.error, record.usage)
    && SelectionAgrees(record)
    && (record.partialResult.Some? ==> record.status == Failed && record.collection)
    && ShowsLedger(record.partialResult, level)
    && (record.collection && (record.status == Completed || record.status == NeedsReview) ==>
          record.result.Some? && ShowsLedger(record.result, level))
  }

  ghost predicate ShowsLedger(value: Option<Json>, level: nat)
    decreases level, 0, 1
  {
    match value
    case None => true
    case Some(ledger) => LegalLedger(ledger, level)
  }

  ghost predicate LegalLedger(value: Json, level: nat)
    decreases level, 0, 0
  {
    level > 0 && exists entries {:trigger LegalBatch(entries, level - 1)} ::
      LegalBatch(entries, level - 1) && value == Ledger(entries)
  }

  predicate DistinctIds(entries: seq<Entry>) {
    forall j, k | 0 <= j < k < |entries| :: entries[j].item.id != entries[k].item.id
  }

  ghost predicate LegalBatch(entries: seq<Entry>, level: nat)
    decreases level, 9
  {
    && |entries| <= MAX_COLLECTION_ITEMS && DistinctIds(entries)
    && forall entry {:trigger LegalEntry(entry, level)} | entry in entries :: LegalEntry(entry, level)
  }

  ghost predicate LegalEntry(entry: Entry, level: nat)
    decreases level, 8
  {
    LegalFlow(entry.record, level) && LegalRetry(entry.retry, level)
  }

  ghost predicate LegalRetry(retry: Option<FlowRecord>, level: nat)
    decreases level, 7
  {
    match retry
    case None => true
    case Some(record) => LegalFlow(record, level)
  }

  ghost predicate LegalSteps(steps: StepRecords, level: nat)
    decreases level, 2
  {
    forall n {:trigger StepAt(steps, n)} | n in steps :: LegalStep(StepAt(steps, n), level)
  }

  ghost predicate LegalRun(record: FlowRecord, level: nat)
    decreases level, 3
  {
    && Presence(record.status, record.result, record.error, record.usage)
    && LegalSteps(record.steps, level)
  }

  // Attempts are runs of their own: none was skipped, at most 64 of them.
  ghost predicate LegalAttempts(attempts: seq<FlowRecord>, level: nat)
    decreases level, 5
  {
    && |attempts| <= 64
    && forall run {:trigger LegalAttempt(run, level)} | run in attempts :: LegalAttempt(run, level)
  }

  ghost predicate LegalAttempt(record: FlowRecord, level: nat)
    decreases level, 4
  {
    LegalRun(record, level) && record.status != Skipped && record.attempts == []
  }

  ghost predicate LegalFlow(record: FlowRecord, level: nat)
    decreases level, 6
  {
    && LegalRun(record, level) && LegalAttempts(record.attempts, level)
    && (record.status == Skipped ==> record.attempts == [] && record.stoppedBy.None?)
    && (record.stoppedBy.Some? ==> record.attempts != [])
  }

  // The count is zero exactly when the flow was skipped, and numbers its attempts.
  lemma CountsExecutions(record: FlowRecord, level: nat)
    requires LegalFlow(record, level)
    ensures record.AttemptCount() == 0 <==> record.status == Skipped
    ensures record.AttemptCount() <= 64
    ensures AttemptsValue(record.attempts).Some? ==>
              && |AttemptsValue(record.attempts).value.items| == record.AttemptCount()
              && forall k | 0 <= k < record.AttemptCount() ::
                AttemptsValue(record.attempts).value.items[k].Obj?
                && AttemptsValue(record.attempts).value.items[k].fields["attempt"] == Int(k + 1)
  {
    forall k | 0 <= k < |record.attempts| ensures AttemptValue(record.attempts[k], k + 1).fields["attempt"]
        == Int(k + 1) {
      NumberedFirst(record.attempts[k], k + 1);
    }
  }

  lemma NumberedFirst(record: FlowRecord, index: nat)
    ensures AttemptValue(record, index).fields["attempt"] == Int(index)
  {
    var key := "attempt";
    assert |key| == 7;
    NotOptional(key, "result", record.result);
    NotOptional(key, "usage", UsageValue(record.usage));
    NotOptional(key, "error", ErrorValue(record.error));
    Unmerged(key, map["status" := Str(StatusText(record.status))], Optional("result", record.result));
    Unmerged(key, map["status" := Str(StatusText(record.status))] + Optional("result", record.result),
             Optional("usage", UsageValue(record.usage)));
  }

  lemma NotOptional(key: string, name: string, value: Option<Json>)
    requires |key| != |name|
    ensures key !in Optional(name, value)
  {
  }

  lemma Unmerged(key: string, left: Object, right: Object)
    requires key !in left && key !in right
    ensures key !in left + right
  {
  }

  lemma SkippedLegal(flow: Flow, level: nat)
    ensures LegalFlow(SkippedFlow(flow), level)
  {
    SkippedStepsLegal(flow.steps, level);
  }

  lemma {:induction false} SkippedStepsLegal(steps: seq<Step>, level: nat)
    ensures LegalSteps(SkippedSteps(steps), level)
  {
    if steps != [] {
      var init := SkippedSteps(steps[..|steps| - 1]);
      SkippedStepsLegal(steps[..|steps| - 1], level);
      forall n | n in SkippedSteps(steps) ensures LegalStep(StepAt(SkippedSteps(steps), n), level) {
        assert n in init ==> LegalStep(StepAt(init, n), level);
      }
    }
  }

  // Repeats run at most 64 attempts, and retry flows are filed under their own name.
  predicate BoundedRepeat(plan: Plan, name: string, repeat: Repeat) {
    && repeat.maxAttempts <= 64 && repeat.retryFlow != Some(name)
    && (repeat.retryFlow.Some? && repeat.Retry() in plan.flows ==> plan.At(repeat.Retry()).name == repeat.Retry())
  }

  predicate BoundedStep(step: Step) {
    step.Collection? ==> step.maxItems <= MAX_COLLECTION_ITEMS
  }

  predicate BoundedSteps(flow: Flow) {
    forall k | 0 <= k < |flow.steps| :: BoundedStep(flow.steps[k])
  }

  predicate BoundedFlow(plan: Plan, flow: Flow) {
    BoundedSteps(flow) && (flow.repeat.Some? ==> BoundedRepeat(plan, flow.name, flow.Repeating()))
  }

  ghost predicate Bounded(plan: Plan) {
    forall n {:trigger BoundedFlow(plan, plan.At(n))} | n in plan.flows :: BoundedFlow(plan, plan.At(n))
  }

  // The levels of ledgers below this depth.
  function Level(depth: int): nat {
    if depth <= LIMIT then LIMIT - depth else 0
  }

  // ---- Flows -----------------------------------------------------------------------------

  // A run just executed.
  ghost predicate Fresh(record: FlowRecord, level: nat) {
    LegalAttempt(record, level) && record.stoppedBy.None?
  }

  lemma StepWritten(steps: StepRecords, name: string, record: StepRecord, level: nat)
    requires LegalSteps(steps, level) && LegalStep(record, level)
    ensures LegalSteps(steps[name := record], level)
  {
    var steps' := steps[name := record];
    forall n | n in steps' ensures LegalStep(StepAt(steps', n), level) {
      if n != name {
        assert StepAt(steps', n) == StepAt(steps, n);
      }
    }
  }

  lemma AbortLegal(e: Engine, p: Progress, exn: Exn, active: Option<Active>, issues: seq<Issue>, level: nat)
    requires LegalSteps(p.steps, level)
    ensures Fresh(Abort(e, p, exn, active, issues).record, level)
  {
    if active.Some? {
      var failure := RecordFailure(e, exn, p.world).0;
      StepWritten(p.steps, active.value.name,
                  StepRecord(Failed, None, Some(failure), Some(active.value.usage), None, None,
                             active.value.collection), level);
    }
  }

  lemma ProjectLegal(e: Engine, flow: Flow, payload: Json, p: Progress, status: Status, issues: seq<Issue>, level: nat)
    requires LegalSteps(p.steps, level) && (status == Completed || status == NeedsReview)
    ensures Fresh(Project(e, flow, payload, p, status, issues).record, level)
  {
    if flow.output.Some? {
      var result := Bindings.ResolveBinding(flow.output.value, Context(e, payload, p));
      if result.Err? {
        AbortLegal(e, p, Error(result.error), None, issues, level);
      }
    }
  }

  lemma {:induction false} FlowLegal(e: Engine, flow: Flow, payload: Json, w: World, depth: int)
    requires Bounded(e.plan) && BoundedSteps(flow)
    ensures Fresh(ExecuteFlow(e, flow, payload, w, depth).record, Level(depth))
    decreases LIMIT - depth, 2, |flow.steps| + 1
  {
    SkippedStepsLegal(flow.steps, Level(depth));
    StepsLegal(e, flow, payload, 0, Progress(SkippedSteps(flow.steps), Accounting.NO_USAGE, w), depth);
  }

  lemma {:induction false} StepsLegal(e: Engine, flow: Flow, payload: Json, k: nat, p: Progress, depth: int)
    requires Bounded(e.plan) && BoundedSteps(flow)
    requires LegalSteps(p.steps, Level(depth))
    ensures Fresh(RunSteps(e, flow, payload, k, p, depth).record, Level(depth))
    decreases LIMIT - depth, 2, |flow.steps| - k
  {
    if k >= |flow.steps| {
      ProjectLegal(e, flow, payload, p, Completed, [], Level(depth));
    } else {
      assert Stepped(RunStep(e, flow.steps[k], payload, p, depth), Level(depth)) by {
        var p1 := p.(world := p.world.Next());
        if !e.expired(p.world.tick) && Guard(e, flow.steps[k], Context(e, payload, p)) == Ok(true) {
          EnterLegal(e, flow.steps[k], payload, p1, depth);
        }
      }
      match RunStep(e, flow.steps[k], payload, p, depth)
      case Interrupted(exn, active, p') => AbortLegal(e, p', exn, active, [], Level(depth));
      case Bypassed(p') => StepsLegal(e, flow, payload, k + 1, p', depth);
      case Ran(record, issues, p') =>
        if record.status == NeedsReview {
          ProjectLegal(e, flow, payload, p', NeedsReview, issues, Level(depth));
        } else if record.status != Failed {
          StepsLegal(e, flow, payload, k + 1, p', depth);
        }
    }
  }

  // ---- Steps -------------------------------------------------------------------------------

  ghost predicate Stepped(run: StepRun, level: nat) {
    && LegalSteps(run.progress.steps, level)
    && match run
       case Ran(record, _, _) => record.status == Failed ==> record.error.Some?
       case _ => true
  }

  lemma {:induction false} EnterLegal(e: Engine, step: Step, payload: Json, p: Progress, depth: int)
    requires Bounded(e.plan) && BoundedStep(step) && LegalSteps(p.steps, Level(depth))
    ensures Stepped(EnterStep(e, step, payload, p, depth), Level(depth))
    decreases LIMIT - depth, 1, 0
  {
    if p.world.consumed < e.maxSteps {
      var p1 := p.(world := p.world.(consumed := p.world.consumed + 1));
      var inputs := Bindings.ResolveAll(step.Arguments(), Context(e, payload, p));
      if inputs.Ok? {
        EnterRuns(e, step, payload, p, p1, inputs.value, depth);
        if step.Collection? {
          CollectionWrites(e, step, inputs.value, p1.world, depth);
          var result := ExecuteCollection(e, step, inputs.value, p1.world, depth).0;
          if result.Ok? {
            StepWritten(p1.steps, step.name, result.value, Level(depth));
          }
        } else {
          var run := RunOperation(e, step, inputs.value, p1);
          if run.Ran? {
            StepWritten(p1.steps, step.name, run.record, Level(depth));
            assert run.progress.steps == p1.steps[step.name := run.record];
          } else {
            assert run.progress.steps == p1.steps;
          }
        }
      }
    }
  }

  // ---- Collections -----------------------------------------------------------------------------

  ghost predicate CollectionLegal(result: Result<StepRecord, Exn>, level: nat) {
    match result
    case Err(_) => true
    case Ok(record) => LegalStep(record, level)
  }

  // No item identity occurs twice in a checked batch.
  ghost predicate Identified(items: seq<Item>, seen: set<string>) {
    && (forall j, k | 0 <= j < k < |items| :: items[j].id != items[k].id)
    && forall k | 0 <= k < |items| :: items[k].id in seen
  }

  ghost predicate CheckedOnce(result: Result<seq<Item>, Exn>, count: int) {
    match result
    case Err(_) => true
    case Ok(items) => |items| == count && exists seen :: Identified(items, seen)
  }

  lemma {:induction false} CheckedDistinct(e: Engine, step: Step, raw: seq<Json>, items: seq<Item>, seen: set<string>,
                                           w: World)
    requires |items| <= |raw| && Identified(items, seen)
    ensures CheckedOnce(CheckItems(e, step, raw, items, seen, w).0, |raw|)
    decreases |raw| - |items|
  {
    if |items| < |raw| && !e.expired(w.tick) {
      var read := ReadItem(step, raw[|items|], seen);
      if read.Some? && CallableFlow(e.plan, read.value.flow).Some?
          && e.validate(read.value.flow, read.value.payload).None? {
        CheckedDistinct(e, step, raw, items + [read.value], seen + {read.value.id}, w.Next());
      }
    }
  }

  lemma {:induction false} CollectionWrites(e: Engine, step: Step, inputs: Object, w: World, depth: int)
    requires Bounded(e.plan) && BoundedStep(step)
    ensures CollectionLegal(ExecuteCollection(e, step, inputs, w, depth).0, Level(depth))
    decreases LIMIT - depth, 0, 0
  {
    if depth < LIMIT && ItemsOnly(step, inputs) {
      CheckedDistinct(e, step, RawItems(inputs), [], {}, w);
      var (checked, w1) := CheckItems(e, step, RawItems(inputs), [], {}, w);
      if checked.Ok? {
        var seen :| Identified(checked.value, seen);
        var batch := EmptyBatch(e.plan, checked.value);
        assert LegalBatch(EmptyBatch(e.plan, checked.value).entries, Level(depth + 1)) by {
          var entries := EmptyBatch(e.plan, checked.value).entries;
          forall entry | entry in entries ensures LegalEntry(entry, Level(depth + 1)) {
            SkippedLegal(e.plan.At(entry.item.flow), Level(depth + 1));
          }
        }
        BatchRuns(e, step, inputs, w, depth, checked.value, w1);
        ItemsLegal(e, 0, batch, w1, depth + 1);
        CollectedRecorded(RunItems(e, 0, batch, w1, depth + 1), depth);
      }
    }
  }

  lemma LedgerShown(entries: seq<Entry>, level: nat)
    requires level > 0 && LegalBatch(entries, level - 1)
    ensures LegalLedger(Ledger(entries), level)
  {
  }

  ghost predicate BatchLegal(batch: Batch, level: nat) {
    && LegalBatch(batch.entries, level)
    && (batch.status == Failed <==> batch.failure.Some?) && batch.status != Skipped
  }

  ghost predicate ItemsAreLegal(result: Result<Batch, Exn>, level: nat) {
    match result
    case Err(_) => true
    case Ok(batch) => BatchLegal(batch, level)
  }

  lemma CollectedRecorded(run: (Result<Batch, Exn>, World), depth: int)
    requires depth < LIMIT && ItemsAreLegal(run.0, Level(depth + 1))
    ensures CollectionLegal(Collected(run).0, Level(depth))
  {
    if run.0.Ok? {
      LedgerShown(run.0.value.entries, Level(depth));
    }
  }

  lemma {:induction false} ItemsLegal(e: Engine, k: nat, batch: Batch, w: World, depth: int)
    requires Bounded(e.plan) && BatchLegal(batch, Level(depth)) && batch.status != Failed
    ensures ItemsAreLegal(RunItems(e, k, batch, w, depth).0, Level(depth))
    decreases LIMIT - depth, 6, |batch.entries| - k
  {
    if k < |batch.entries| {
      var item := batch.entries[k].item;
      ItemWrites(e, e.plan.At(item.flow), item.payload, w, depth);
      var run := RunItem(e, e.plan.At(item.flow), item.payload, w, depth);
      if run.outcome.Ok? {
        EntryWritten(batch, k, run.outcome.value, Level(depth));
        if !run.outcome.value.Stops() {
          ItemsLegal(e, k + 1, Entered(batch, k, run.outcome.value), run.world, depth);
        }
      }
    }
  }

  lemma EntryWritten(batch: Batch, k: nat, done: ItemDone, level: nat)
    requires BatchLegal(batch, level) && batch.status != Failed && k < |batch.entries| && ItemLegal(done, level)
    ensures BatchLegal(Entered(batch, k, done), level)
  {
    assert LegalRun(done.record, level);
    var entries := Entered(batch, k, done).entries;
    forall entry | entry in entries ensures LegalEntry(entry, level) {
      assert entry in batch.entries || entry == Entry(batch.entries[k].item, done.record, done.retry);
    }
  }

  ghost predicate ItemLegal(done: ItemDone, level: nat) {
    LegalFlow(done.record, level) && done.record.status != Skipped && LegalRetry(done.retry, level)
  }

  ghost predicate ItemIsLegal(outcome: Result<ItemDone, Exn>, level: nat) {
    match outcome
    case Err(_) => true
    case Ok(done) => ItemLegal(done, level)
  }

  lemma {:induction false} ItemWrites(e: Engine, flow: Flow, payload: Object, w: World, depth: int)
    requires Bounded(e.plan) && BoundedFlow(e.plan, flow)
    ensures ItemIsLegal(RunItem(e, flow, payload, w, depth).outcome, Level(depth))
    decreases LIMIT - depth, 5, 0
  {
    match flow.repeat
    case None => FlowLegal(e, flow, Obj(payload), w, depth);
    case Some(repeat) =>
      LoopLegal(e, flow, repeat, Some(payload), Obj(payload), Obj(payload), [], map[], w, depth);
  }

  // ---- Repeats -------------------------------------------------------------------------------------

  // The retry flow's record, if there is one: no more runs than attempts.
  ghost predicate Retrying(repeat: Repeat, records: FlowRecords, most: int, level: nat) {
    repeat.retryFlow.Some? && repeat.Retry() in records ==>
      LegalFlow(FlowAt(records, repeat.Retry()), level) && |FlowAt(records, repeat.Retry()).attempts| <= most
  }

  lemma RunWritten(repeat: Repeat, before: FlowRecords, name: string, run: FlowRecord, most: int, level: nat)
    requires repeat.retryFlow == Some(name) && Retrying(repeat, before, most, level) && 0 <= most < 64
             && Fresh(run, level)
    ensures Retrying(repeat, before[name := RetryRecord(run, RunsOf(before, name))], most + 1, level)
  {
    var attempts := RunsOf(before, name) + [run];
    if name in before {
      assert LegalFlow(before[name], level) && LegalAttempts(before[name].attempts, level);
    }
    assert LegalAttempts(attempts, level) && LegalRun(run, level);
    assert LegalFlow(RetryRecord(run, RunsOf(before, name)), level);
  }

  lemma {:induction false} RetryWrites(e: Engine, flow: Flow, repeat: Repeat, retry: Flow, item: Option<Object>,
                                       scope: Json, issues: seq<Issue>, records: FlowRecords, w: World, depth: int,
                                       most: int)
    requires Bounded(e.plan) && BoundedSteps(retry) && repeat.retryFlow == Some(retry.name)
    requires Retrying(repeat, records, most, Level(depth)) && 0 <= most < 64
    ensures Retrying(repeat, RunRetry(e, flow, repeat, retry, item, scope, issues, records, w, depth).records, most + 1,
                     Level(depth))
    decreases LIMIT - depth, 3, 0
  {
    var input := FlowInput(e, retry.name, repeat.retryFlowInput, WorkflowContext(scope, e.metadata, records));
    if input.Err? {
      SkippedStepsLegal(retry.steps, Level(depth));
      RunWritten(repeat, records, retry.name, FailedBeforeRun(retry, RecordFailure(e, input.error, w).0), most,
                 Level(depth));
    } else {
      FlowLegal(e, retry, Obj(input.value), w, depth);
      var run := ExecuteFlow(e, retry, Obj(input.value), w, depth);
      RunWritten(repeat, records, retry.name, run.record, most, Level(depth));
    }
  }

  ghost predicate LoopSoFar(repeat: Repeat, attempts: seq<FlowRecord>, records: FlowRecords, level: nat) {
    LegalAttempts(attempts, level) && Retrying(repeat, records, |attempts|, level)
  }

  // The record that stands when the repeat stops.
  ghost predicate StopsLegally(run: FlowRecord, attempts: seq<FlowRecord>, outcome: Result<Decision, Exn>, level: nat) {
    match outcome
    case Ok(Halt(halted)) =>
      var last := Standing(run, attempts, halted.status, Some(halted.stop));
      LegalFlow(last, level) && last.status != Skipped
    case _ => true
  }

  lemma VerdictStops(e: Engine, repeat: Repeat, scope: Json, records: FlowRecords, run: FlowRecord,
                     attempts: seq<FlowRecord>, retried: Option<FlowRecord>, decided: Decided, level: nat)
    requires Verdict(e, repeat, scope, records, run, |attempts|, retried, decided)
    requires Fresh(run, level) && LegalAttempts(attempts, level) && attempts != []
    ensures StopsLegally(run, attempts, decided.outcome, level)
    ensures LegalFlow(run.(attempts := attempts), level)
  {
    assert LegalRun(run, level);
  }

  ghost predicate LoopIsLegal(repeat: Repeat, loop: Loop, level: nat) {
    && LegalFlow(loop.last, level) && (loop.outcome.Ok? ==> loop.last.status != Skipped)
    && Retrying(repeat, loop.records, 64, level)
  }

  lemma {:induction false} LoopLegal(e: Engine, flow: Flow, repeat: Repeat, item: Option<Object>, scope: Json,
                                     input: Json, attempts: seq<FlowRecord>, records: FlowRecords, w: World, depth: int)
    requires Bounded(e.plan) && BoundedSteps(flow) && BoundedRepeat(e.plan, flow.name, repeat)
    requires LoopSoFar(repeat, attempts, records, Level(depth))
    ensures LoopIsLegal(repeat, Attempts(e, flow, repeat, item, scope, input, attempts, records, w, depth),
                        Level(depth))
    decreases LIMIT - depth, 4, repeat.maxAttempts - |attempts|, 0
  {
    var level := Level(depth);
    if |attempts| >= repeat.maxAttempts {
      SkippedLegal(flow, level);
    } else {
      FlowLegal(e, flow, input, w, depth);
      var run := ExecuteFlow(e, flow, input, w, depth);
      var attempts' := attempts + [run.record];
      var records' := records[flow.name := run.record.(attempts := attempts')];
      AttemptLegal(e, flow, repeat, item, scope, run, attempts, records, depth);
      ProceedLegal(e, flow, repeat, item, scope, run.record, attempts',
                   Decide(e, flow, repeat, item, scope, run, |attempts'|, records', depth), depth);
    }
  }

  // One more attempt and the decision on it.
  lemma {:induction false} AttemptLegal(e: Engine, flow: Flow, repeat: Repeat, item: Option<Object>, scope: Json,
                                        run: FlowRun, attempts: seq<FlowRecord>, records: FlowRecords, depth: int)
    requires Bounded(e.plan) && BoundedRepeat(e.plan, flow.name, repeat) && |attempts| < repeat.maxAttempts
    requires Fresh(run.record, Level(depth)) && LoopSoFar(repeat, attempts, records, Level(depth))
    ensures var attempts' := attempts + [run.record];
            var records' := records[flow.name := run.record.(attempts := attempts')];
            var decided := Decide(e, flow, repeat, item, scope, run, |attempts'|, records', depth);
            && LoopSoFar(repeat, attempts', decided.records, Level(depth))
            && StopsLegally(run.record, attempts', decided.outcome, Level(depth))
            && LegalFlow(run.record.(attempts := attempts'), Level(depth))
    decreases LIMIT - depth, 3, 2
  {
    var attempts' := attempts + [run.record];
    var records' := records[flow.name := run.record.(attempts := attempts')];
    if repeat.retryFlow.Some? && repeat.Retry() in e.plan.flows {
      assert BoundedFlow(e.plan, e.plan.At(repeat.Retry()));
      RetryWrites(e, flow, repeat, e.plan.At(repeat.Retry()), item, scope, run.issues, records', run.world,
                  depth, |attempts|);
    }
    DecideCases(e, flow, repeat, item, scope, run, |attempts'|, records', depth);
    var retried := DecideOutcome(e, flow, repeat, item, scope, run, |attempts'|, records', depth);
    VerdictStops(e, repeat, scope, records', run.record, attempts', retried,
                 Decide(e, flow, repeat, item, scope, run, |attempts'|, records', depth), Level(depth));
  }

  lemma {:induction false} ProceedLegal(e: Engine, flow: Flow, repeat: Repeat, item: Option<Object>, scope: Json,
                                        run: FlowRecord, attempts: seq<FlowRecord>, decided: Decided, depth: int)
    requires Bounded(e.plan) && BoundedSteps(flow) && BoundedRepeat(e.plan, flow.name, repeat)
    requires LoopSoFar(repeat, attempts, decided.records, Level(depth))
    requires StopsLegally(run, attempts, decided.outcome, Level(depth))
    requires LegalFlow(run.(attempts := attempts), Level(depth))
    ensures LoopIsLegal(repeat, Proceed(e, flow, repeat, item, scope, run, attempts, decided, depth), Level(depth))
    decreases LIMIT - depth, 4, repeat.maxAttempts - |attempts|, 1
  {
    match decided.outcome
    case Err(_) =>
    case Ok(Halt(_)) =>
    case Ok(Again(next)) =>
      LoopLegal(e, flow, repeat, item, scope, Obj(next), attempts,
                decided.records[flow.name := run.(attempts := attempts)], decided.world, depth);
  }
}
