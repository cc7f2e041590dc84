/**
 How deep collection ledgers nest as JSON.  A ledger adds at most eight levels around the
 results of its items, so sixteen collection levels over results of depth 64 stay within
 the execution limit of 192.
 */
module LedgerDepth {
  import opened Foundations
  import opened Json
  import opened Bindings
  import opened Plans
  import Accounting
  import opened Records
  import opened Engine
  import opened Acceptance
  import opened Readiness
  import opened Production
  import opened RecordDepth

  // ---- Ledgers -------------------------------------------------------------------------------

  predicate EntryShallow(entry: Entry, m: int) {
    FlowShallow(entry.record, m) && MaybeShallow(entry.retry, m)
  }

  predicate EntriesShallow(entries: seq<Entry>, m: int) {
    forall entry | entry in entries :: EntryShallow(entry, m)
  }

  // A ledger adds eight levels to the results of its items.
  lemma LedgerWithin(entries: seq<Entry>, m: int)
    requires EntriesShallow(entries, m) && m >= 3
    ensures Shallow(Ledger(entries), m + 8)
  {
    var values := Ledger(entries).fields["items"].items;
    forall k | 0 <= k < |values| ensures Shallow(values[k], m + 6) {
      assert EntryShallow(entries[k], m);
      EntryWithin(entries[k].item.id, entries[k].item.flow, entries[k].record, entries[k].retry, m);
    }
    ListWithin(values, m + 6);
    ObjectWithin(Ledger(entries).fields, m + 7);
  }

  // ---- The nesting of a plan -------------------------------------------------------------------

  // Eight levels for every collection level at or below the flow.
  function Bound(depths: map<string, nat>, n: string): nat {
    8 * NestingOf(depths, n) + MAX_JSON_DEPTH
  }

  function NestingOf(depths: map<string, nat>, n: string): nat {
    if n in depths then depths[n] else 0
  }

  predicate SelectingOutput(flow: Flow) {
    match flow.output
    case None => true
    case Some(output) => Selecting(output)
  }

  // Inputs of at most 64 levels, outputs that select, and the compiler's nesting depths.
  ghost predicate Nested(e: Engine, depths: map<string, nat>) {
    && Shallow(Obj(e.metadata), MAX_JSON_DEPTH)
    && (forall n, payload {:trigger Accepted(e, n, payload)} | Accepted(e, n, payload) ::
        Shallow(payload, MAX_JSON_DEPTH))
    && WellNamed(e.plan)
    && (forall n {:trigger e.plan.At(n)} | n in e.plan.flows ::
          n in depths && SelectingOutput(e.plan.At(n)))
    && (forall a, k, n {:trigger CallsAt(e.plan, a, k, n)} | CallsAt(e.plan, a, k, n) ::
          n in e.plan.flows && NestingOf(depths, n) + 1 <= NestingOf(depths, a))
    && (forall a, n {:trigger HasRetry(e.plan, a, n)} | HasRetry(e.plan, a, n) ::
          n in e.plan.flows && NestingOf(depths, n) <= NestingOf(depths, a))
  }

  // Every run of a flow at this collection depth is within the flow's bound.
  ghost predicate RunsShallow(e: Engine, depths: map<string, nat>, depth: int) {
    forall n, payload, w {:trigger ExecuteFlow(e, e.plan.At(n), payload, w, depth)}
      | n in e.plan.flows && Accepted(e, n, payload) ::
      RunShallow(ExecuteFlow(e, e.plan.At(n), payload, w, depth).record, Bound(depths, n))
  }

  // ---- Repeats at one collection depth ------------------------------------------------------------

  ghost predicate RecordWithin(e: Engine, depths: map<string, nat>, records: FlowRecords, n: string) {
    n in records ==> FlowShallow(FlowAt(records, n), Bound(depths, n))
  }

  ghost predicate RecordsWithin(e: Engine, depths: map<string, nat>, records: FlowRecords) {
    forall n {:trigger RecordWithin(e, depths, records, n)} | n in records :: RecordWithin(e, depths, records, n)
  }

  lemma PutWithin(e: Engine, depths: map<string, nat>, records: FlowRecords, n: string, record: FlowRecord)
    requires RecordsWithin(e, depths, records) && FlowShallow(record, Bound(depths, n))
    ensures RecordsWithin(e, depths, records[n := record])
  {
    var after := records[n := record];
    forall m | m in after ensures RecordWithin(e, depths, after, m) {
      assert m in records ==> RecordWithin(e, depths, records, m);
    }
  }

  lemma RetryPutWithin(e: Engine, depths: map<string, nat>, records: FlowRecords, retry: string, run: FlowRecord)
    requires RecordsWithin(e, depths, records) && RunShallow(run, Bound(depths, retry))
    ensures RecordsWithin(e, depths, records[retry := RetryRecord(run, RunsOf(records, retry))])
  {
    assert retry in records ==> RecordWithin(e, depths, records, retry);
    PutWithin(e, depths, records, retry, RetryRecord(run, RunsOf(records, retry)));
  }

  lemma {:induction false} SkippedShallow(steps: seq<Step>, m: int)
    ensures StepsShallow(SkippedSteps(steps), m)
  {
    if steps != [] {
      SkippedShallow(steps[..|steps| - 1], m);
    }
  }

  lemma PrepareKeeps(e: Engine, flow: Flow, repeat: Repeat, item: Option<Object>, scope: Json, issues: seq<Issue>,
                     records: FlowRecords, w: World)
    ensures Prepare(e, flow, repeat, item, scope, issues, records, w).records == records
  {
  }

  lemma AfterRetryWithin(e: Engine, depths: map<string, nat>, flow: Flow, repeat: Repeat, retry: string,
                         item: Option<Object>, scope: Json, issues: seq<Issue>, records: FlowRecords, run: FlowRun)
    requires RecordsWithin(e, depths, records) && retry in e.plan.flows && e.plan.At(retry).name == retry
    requires RunShallow(run.record, Bound(depths, retry))
    ensures RecordsWithin(e, depths, AfterRetry(e, flow, repeat, e.plan.At(retry), item, scope, issues, records,
                                                run).records)
  {
    var records' := records[retry := RetryRecord(run.record, RunsOf(records, retry))];
    RetryPutWithin(e, depths, records, retry, run.record);
    PrepareKeeps(e, flow, repeat, item, scope, issues, records', run.world);
    assert AfterRetry(e, flow, repeat, e.plan.At(retry), item, scope, issues, records, run).records == records';
  }

  lemma RetryWithin(e: Engine, depths: map<string, nat>, flow: Flow, repeat: Repeat, retry: string,
                    item: Option<Object>, scope: Json, issues: seq<Issue>, records: FlowRecords, w: World, depth: int)
    requires RunsShallow(e, depths, depth) && RecordsWithin(e, depths, records)
    requires retry in e.plan.flows && e.plan.At(retry).name == retry
    ensures RecordsWithin(e, depths, RunRetry(e, flow, repeat, e.plan.At(retry), item, scope, issues, records, w,
                                              depth).records)
  {
    var called, context := e.plan.At(retry), WorkflowContext(scope, e.metadata, records);
    var bound := FlowInput(e, retry, repeat.retryFlowInput, context);
    if bound.Err? {
      SkippedShallow(called.steps, Bound(depths, retry));
      RetryPutWithin(e, depths, records, retry, FailedBeforeRun(called, RecordFailure(e, bound.error, w).0));
    } else {
      InputAccepted(e, retry, repeat.retryFlowInput, context);
      AfterRetryWithin(e, depths, flow, repeat, retry, item, scope, issues, records,
                       ExecuteFlow(e, called, Obj(bound.value), w, depth));
    }
  }

  lemma DecideWithin(e: Engine, depths: map<string, nat>, flow: Flow, repeat: Repeat, item: Option<Object>, scope: Json,
                     run: FlowRun, attempt: int, records: FlowRecords, depth: int)
    requires Nested(e, depths) && RunsShallow(e, depths, depth) && RecordsWithin(e, depths, records)
    ensures RecordsWithin(e, depths, Decide(e, flow, repeat, item, scope, run, attempt, records, depth).records)
  {
    if repeat.retryFlow.Some? && repeat.Retry() in e.plan.flows {
      RetryWithin(e, depths, flow, repeat, repeat.Retry(), item, scope, run.issues, records, run.world, depth);
    }
    PrepareKeeps(e, flow, repeat, item, scope, run.issues, records, run.world);
    var decided := Decide(e, flow, repeat, item, scope, run, attempt, records, depth);
    assert decided.records == records || decided == GoOn(e, flow, repeat, item, scope, run, records, depth);
  }

  // Every record a repeat leaves is within its flow's bound.
  lemma {:induction false} AttemptsShallow(e: Engine, depths: map<string, nat>, n: string, repeat: Repeat,
                                           item: Option<Object>, scope: Json, input: Json, attempts: seq<FlowRecord>,
                                           records: FlowRecords, w: World, depth: int)
    requires Nested(e, depths) && RunsShallow(e, depths, depth)
    requires n in e.plan.flows && Accepted(e, n, input) && RecordsWithin(e, depths, records)
    requires AllShallow(attempts, Bound(depths, n))
    ensures LoopShallow(e, depths, n, Attempts(e, e.plan.At(n), repeat, item, scope, input, attempts, records, w,
                                               depth))
    decreases repeat.maxAttempts - |attempts|, 0
  {
    var flow := e.plan.At(n);
    if |attempts| < repeat.maxAttempts {
      var run := ExecuteFlow(e, flow, input, w, depth);
      var attempts' := attempts + [run.record];
      var records' := records[n := run.record.(attempts := attempts')];
      PutWithin(e, depths, records, n, run.record.(attempts := attempts'));
      DecideWithin(e, depths, flow, repeat, item, scope, run, |attempts'|, records', depth);
      AgainAccepted(e, flow, repeat, item, scope, run, |attempts'|, records', depth);
      ProceedShallow(e, depths, n, repeat, item, scope, run.record, attempts',
                     Decide(e, flow, repeat, item, scope, run, |attempts'|, records', depth), depth);
    }
  }

  ghost predicate LoopShallow(e: Engine, depths: map<string, nat>, n: string, loop: Loop) {
    loop.outcome.Ok? ==> FlowShallow(loop.last, Bound(depths, n)) && RecordsWithin(e, depths, loop.records)
  }

  lemma {:induction false} ProceedShallow(e: Engine, depths: map<string, nat>, n: string, repeat: Repeat,
                                          item: Option<Object>, scope: Json, run: FlowRecord,
                                          attempts: seq<FlowRecord>, decided: Decided, depth: int)
    requires Nested(e, depths) && RunsShallow(e, depths, depth)
    requires n in e.plan.flows && RecordsWithin(e, depths, decided.records) && NextAccepted(e, e.plan.At(n), decided)
    requires RunShallow(run, Bound(depths, n)) && AllShallow(attempts, Bound(depths, n))
    ensures LoopShallow(e, depths, n, Proceed(e, e.plan.At(n), repeat, item, scope, run, attempts, decided, depth))
    decreases repeat.maxAttempts - |attempts|, 1
  {
    match decided.outcome
    case Err(_) =>
    case Ok(Halt(halted)) =>
      PutWithin(e, depths, decided.records, n, Standing(run, attempts, halted.status, Some(halted.stop)));
    case Ok(Again(next)) =>
      var current := run.(attempts := attempts);
      PutWithin(e, depths, decided.records, n, current);
      AttemptsShallow(e, depths, n, repeat, item, scope, Obj(next), attempts, decided.records[n := current],
                      decided.world, depth);
  }

  // ---- Collections ------------------------------------------------------------------------------

  lemma FlowDeeper(record: FlowRecord, m: int, n: int)
    requires FlowShallow(record, m) && m <= n
    ensures FlowShallow(record, n)
  {
    RunDeeper(record, m, n);
    forall run | run in record.attempts ensures RunShallow(run, n) {
      RunDeeper(run, m, n);
    }
  }

  lemma RunDeeper(record: FlowRecord, m: int, n: int)
    requires RunShallow(record, m) && m <= n
    ensures RunShallow(record, n)
  {
    OptionDeeper(record.result, m, n);
    forall s | s in record.steps ensures StepShallow(record.steps[s], n) {
      OptionDeeper(record.steps[s].result, m, n);
      OptionDeeper(record.steps[s].partialResult, m, n);
    }
  }

  ghost predicate ItemShallow(outcome: Result<ItemDone, Exn>, m: int) {
    match outcome
    case Err(_) => true
    case Ok(done) => FlowShallow(done.record, m) && MaybeShallow(done.retry, m)
  }

  lemma RunItemShallow(e: Engine, depths: map<string, nat>, n: string, payload: Object, w: World, depth: int)
    requires Nested(e, depths) && RunsShallow(e, depths, depth)
    requires n in e.plan.flows && Accepted(e, n, Obj(payload))
    ensures ItemShallow(RunItem(e, e.plan.At(n), payload, w, depth).outcome, Bound(depths, n))
  {
    var flow := e.plan.At(n);
    match flow.repeat
    case None =>
      FlowMakes(e, flow, Obj(payload), w, depth);
    case Some(repeat) =>
      AttemptsShallow(e, depths, n, repeat, Some(payload), Obj(payload), Obj(payload), [], map[], w, depth);
      var loop := Attempts(e, flow, repeat, Some(payload), Obj(payload), Obj(payload), [], map[], w, depth);
      if loop.outcome.Ok? && repeat.retryFlow.Some? && repeat.Retry() in loop.records {
        var retry := repeat.Retry();
        assert HasRetry(e.plan, n, retry);
        assert RecordWithin(e, depths, loop.records, retry);
        FlowDeeper(loop.records[retry], Bound(depths, retry), Bound(depths, n));
      }
  }

  // Items whose flows lie one collection level below the bound.
  ghost predicate ItemBelow(e: Engine, depths: map<string, nat>, item: Item, m: int) {
    item.flow in e.plan.flows && Bound(depths, item.flow) <= m && Accepted(e, item.flow, Obj(item.payload))
  }

  ghost predicate AllBelow(e: Engine, depths: map<string, nat>, entries: seq<Entry>, m: int) {
    forall k | 0 <= k < |entries| :: ItemBelow(e, depths, entries[k].item, m)
  }

  ghost predicate BatchShallow(result: Result<Batch, Exn>, m: int) {
    match result
    case Err(_) => true
    case Ok(batch) => EntriesShallow(batch.entries, m)
  }

  lemma {:induction false} ItemsShallow(e: Engine, depths: map<string, nat>, k: nat, batch: Batch, w: World, depth: int,
                                        m: int)
    requires Nested(e, depths) && RunsShallow(e, depths, depth)
    requires AllBelow(e, depths, batch.entries, m) && EntriesShallow(batch.entries, m)
    ensures BatchShallow(RunItems(e, k, batch, w, depth).0, m)
    decreases |batch.entries| - k
  {
    if k < |batch.entries| {
      var item := batch.entries[k].item;
      assert ItemBelow(e, depths, item, m);
      RunItemShallow(e, depths, item.flow, item.payload, w, depth);
      var run := RunItem(e, e.plan.At(item.flow), item.payload, w, depth);
      if run.outcome.Ok? {
        var done := run.outcome.value;
        FlowDeeper(done.record, Bound(depths, item.flow), m);
        if done.retry.Some? {
          FlowDeeper(done.retry.value, Bound(depths, item.flow), m);
        }
        if !done.Stops() {
          ItemsShallow(e, depths, k + 1, Entered(batch, k, done), run.world, depth, m);
        }
      }
    }
  }

  ghost predicate CollectionShallow(result: Result<StepRecord, Exn>, m: int) {
    match result
    case Err(_) => true
    case Ok(record) => StepShallow(record, m)
  }

  // The ledger of a collection step is within the bound of its flow.
  lemma CollectionIsShallow(e: Engine, depths: map<string, nat>, a: string, s: nat, inputs: Object, w: World,
                            depth: int)
    requires Nested(e, depths) && (depth < LIMIT ==> RunsShallow(e, depths, depth + 1)) && a in e.plan.flows
    ensures CollectionShallow(ExecuteCollection(e, e.plan.At(a).Step(s), inputs, w, depth).0, Bound(depths, a))
  {
    var step := e.plan.At(a).Step(s);
    if depth < LIMIT && ItemsOnly(step, inputs) {
      ItemsChecked(e, step, RawItems(inputs), [], {}, w);
      var (checked, w1) := CheckItems(e, step, RawItems(inputs), [], {}, w);
      if checked.Ok? {
        BatchRuns(e, step, inputs, w, depth, checked.value, w1);
        BatchIsShallow(e, depths, a, s, checked.value, w1, depth + 1);
      }
    }
  }

  lemma CallsBelow(e: Engine, depths: map<string, nat>, a: string, s: nat, n: string)
    requires Nested(e, depths) && CallsAt(e.plan, a, s, n)
    ensures NestingOf(depths, a) > 0 && Bound(depths, n) <= Bound(depths, a) - 8
  {
  }

  lemma BatchIsShallow(e: Engine, depths: map<string, nat>, a: string, s: nat, items: seq<Item>, w: World, depth: int)
    requires Nested(e, depths) && RunsShallow(e, depths, depth)
    requires a in e.plan.flows && Batchable(e, e.plan.At(a).Step(s), items)
    ensures CollectionShallow(Collected(RunItems(e, 0, EmptyBatch(e.plan, items), w, depth)).0, Bound(depths, a))
  {
    var batch, m := EmptyBatch(e.plan, items), Bound(depths, a) - 8;
    forall k | 0 <= k < |batch.entries| ensures NestingOf(depths, a) > 0 && ItemBelow(e, depths, items[k], m) {
      assert ItemFits(e, e.plan.At(a).Step(s), items[k]);
      CallsBelow(e, depths, a, s, items[k].flow);
    }
    forall entry | entry in EmptyBatch(e.plan, items).entries ensures EntryShallow(entry, m) {
      SkippedShallow(e.plan.At(entry.item.flow).steps, m);
    }
    ItemsShallow(e, depths, 0, batch, w, depth, m);
    SameLength(e, 0, batch, w, depth);
    var result := RunItems(e, 0, batch, w, depth).0;
    if result.Ok? {
      if result.value.entries == [] {
        LedgerWithin(result.value.entries, 3);
        Deeper(Ledger(result.value.entries), 11, Bound(depths, a));
      } else {
        LedgerWithin(result.value.entries, Bound(depths, a) - 8);
      }
    }
  }

  predicate OfLength(result: Result<Batch, Exn>, count: int) {
    match result
    case Err(_) => true
    case Ok(batch) => |batch.entries| == count
  }

  lemma {:induction false} SameLength(e: Engine, k: nat, batch: Batch, w: World, depth: int)
    ensures OfLength(RunItems(e, k, batch, w, depth).0, |batch.entries|)
    decreases |batch.entries| - k
  {
    if k < |batch.entries| {
      var item := batch.entries[k].item;
      var run := RunItem(e, e.plan.At(item.flow), item.payload, w, depth);
      if run.outcome.Ok? && !run.outcome.value.Stops() {
        SameLength(e, k + 1, Entered(batch, k, run.outcome.value), run.world, depth);
      }
    }
  }

  // ---- Steps and flows ----------------------------------------------------------------------------

  ghost predicate StaysShallow(run: StepRun, m: int) {
    StepsShallow(run.progress.steps, m)
  }

  lemma EnterStaysShallow(e: Engine, depths: map<string, nat>, a: string, k: nat, payload: Json, p: Progress,
                          depth: int)
    requires Nested(e, depths) && (depth < LIMIT ==> RunsShallow(e, depths, depth + 1))
    requires a in e.plan.flows && StepsShallow(p.steps, Bound(depths, a))
    ensures StaysShallow(EnterStep(e, e.plan.At(a).Step(k), payload, p, depth), Bound(depths, a))
  {
    var step := e.plan.At(a).Step(k);
    var p1 := p.(world := p.world.(consumed := p.world.consumed + 1));
    var inputs := ResolveAll(step.Arguments(), Context(e, payload, p));
    if p.world.consumed < e.maxSteps && inputs.Ok? {
      EnterRuns(e, step, payload, p, p1, inputs.value, depth);
      if step.Collection? {
        CollectionIsShallow(e, depths, a, k, inputs.value, p1.world, depth);
        assert StaysShallow(RunCollection(e, step, inputs.value, p1, depth), Bound(depths, a));
      } else {
        var run := RunOperation(e, step, inputs.value, p1);
        if run.Ran? {
          Deeper(run.record.result.value, MAX_JSON_DEPTH, Bound(depths, a));
        }
      }
    }
  }

  lemma ProjectIsShallow(e: Engine, depths: map<string, nat>, a: string, payload: Json, p: Progress, status: Status,
                         issues: seq<Issue>)
    requires Nested(e, depths) && a in e.plan.flows && Accepted(e, a, payload)
    requires StepsShallow(p.steps, Bound(depths, a))
    ensures RunShallow(Project(e, e.plan.At(a), payload, p, status, issues).record, Bound(depths, a))
  {
    var flow, m := e.plan.At(a), Bound(depths, a);
    Deeper(payload, MAX_JSON_DEPTH, m);
    Deeper(Obj(e.metadata), MAX_JSON_DEPTH, m);
    if flow.output.Some? {
      SelectedWithin(flow.output.value, payload, e.metadata, p.steps, m);
    }
  }

  lemma AbortIsShallow(e: Engine, p: Progress, exn: Exn, active: Option<Active>, m: int)
    requires StepsShallow(p.steps, m)
    ensures RunShallow(Abort(e, p, exn, active, []).record, m)
  {
  }

  lemma {:induction false} FlowIsShallow(e: Engine, depths: map<string, nat>, a: string, payload: Json, k: nat,
                                         p: Progress, depth: int)
    requires Nested(e, depths) && (depth < LIMIT ==> RunsShallow(e, depths, depth + 1))
    requires a in e.plan.flows && Accepted(e, a, payload)
    requires StepsShallow(p.steps, Bound(depths, a))
    ensures RunShallow(RunSteps(e, e.plan.At(a), payload, k, p, depth).record, Bound(depths, a))
    decreases |e.plan.At(a).steps| - k
  {
    var flow := e.plan.At(a);
    if k >= |flow.steps| {
      ProjectIsShallow(e, depths, a, payload, p, Completed, []);
    } else {
      var step := e.plan.At(a).Step(k);
      var p1 := p.(world := p.world.Next());
      EnterStaysShallow(e, depths, a, k, payload, p1, depth);
      assert flow.Step(k) == flow.steps[k];
      match RunStep(e, flow.Step(k), payload, p, depth)
      case Interrupted(exn, active, p') => AbortIsShallow(e, p', exn, active, Bound(depths, a));
      case Bypassed(p') => FlowIsShallow(e, depths, a, payload, k + 1, p', depth);
      case Ran(record, issues, p') =>
        if record.status == NeedsReview {
          ProjectIsShallow(e, depths, a, payload, p', NeedsReview, issues);
        } else if record.status != Failed {
          FlowIsShallow(e, depths, a, payload, k + 1, p', depth);
        }
    }
  }

  // Every flow run at every collection depth keeps its results within 8n + 64 levels,
  // where n is the number of collection levels from the flow down.
  lemma {:induction false} RunsAreShallow(e: Engine, depths: map<string, nat>, depth: int)
    requires Nested(e, depths)
    ensures RunsShallow(e, depths, depth)
    decreases LIMIT - depth
  {
    if depth < LIMIT {
      RunsAreShallow(e, depths, depth + 1);
    }
    forall n, payload, w | n in e.plan.flows && Accepted(e, n, payload)
      ensures RunShallow(ExecuteFlow(e, e.plan.At(n), payload, w, depth).record, Bound(depths, n))
    {
      var flow := e.plan.At(n);
      SkippedShallow(flow.steps, Bound(depths, n));
      FlowIsShallow(e, depths, n, payload, 0, Progress(SkippedSteps(flow.steps), Accounting.NO_USAGE, w), depth);
    }
  }

  // Inputs of at most 64 levels, and outputs that only select.
  ghost predicate ShallowData(e: Engine) {
    && Shallow(Obj(e.metadata), MAX_JSON_DEPTH)
    && (forall n, payload {:trigger Accepted(e, n, payload)} | Accepted(e, n, payload) ::
        Shallow(payload, MAX_JSON_DEPTH))
    && forall n {:trigger e.plan.At(n)} | n in e.plan.flows :: SelectingOutput(e.plan.At(n))
  }

  lemma NestedFrom(e: Engine, rank: map<string, nat>, depths: map<string, nat>)
    requires AuthoredPlan(e.plan) && Certified(e.plan, rank, depths) && ShallowData(e)
    ensures Nested(e, depths)
  {
    forall n | n in e.plan.flows ensures e.plan.At(n).name == n && DistinctNames(e.plan.At(n).steps) {
      assert AuthoredFlow(e.plan.At(n));
    }
    NestingFalls(e.plan, rank, depths);
    forall n | n in e.plan.flows ensures n in depths && SelectingOutput(e.plan.At(n)) {
    }
  }

  lemma NestingFalls(plan: Plan, rank: map<string, nat>, depths: map<string, nat>)
    requires Certified(plan, rank, depths)
    ensures forall a, k, n {:trigger CallsAt(plan, a, k, n)} | CallsAt(plan, a, k, n) ::
              n in plan.flows && NestingOf(depths, n) + 1 <= NestingOf(depths, a)
    ensures forall a, n {:trigger HasRetry(plan, a, n)} | HasRetry(plan, a, n) ::
              n in plan.flows && NestingOf(depths, n) <= NestingOf(depths, a)
  {
    forall a, k, n | CallsAt(plan, a, k, n)
      ensures n in plan.flows && NestingOf(depths, n) + 1 <= NestingOf(depths, a)
    {
      CallFalls(plan, rank, depths, a, k, n);
    }
    forall a, n | HasRetry(plan, a, n) ensures n in plan.flows && NestingOf(depths, n) <= NestingOf(depths, a) {
      RetryFalls(plan, rank, depths, a, n);
    }
  }

  // On an accepted plan every result and ledger of every flow run fits the execution limit.
  lemma ResultsFitExecution(e: Engine, rank: map<string, nat>, depths: map<string, nat>, n: string, payload: Json,
                            w: World, depth: int)
    requires AuthoredPlan(e.plan) && Certified(e.plan, rank, depths) && ShallowData(e)
    requires n in e.plan.flows && Accepted(e, n, payload)
    ensures RunShallow(ExecuteFlow(e, e.plan.At(n), payload, w, depth).record, Bound(depths, n))
    ensures RunShallow(ExecuteFlow(e, e.plan.At(n), payload, w, depth).record, MAX_EXECUTION_JSON_DEPTH)
  {
    NestedFrom(e, rank, depths);
    RunsAreShallow(e, depths, depth);
    RunDeeper(ExecuteFlow(e, e.plan.At(n), payload, w, depth).record, Bound(depths, n), MAX_EXECUTION_JSON_DEPTH);
  }
}
