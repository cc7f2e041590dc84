/**
 Every snapshot counted exactly once: whatever the engine executes reports a usage that
 sums exactly the budget snapshots taken meanwhile.
 */
module Conservation {
  import opened Foundations
  import opened Json
  import opened Conditions
  import opened Plans
  import opened Accounting
  import opened Records
  import opened Engine
  import opened Repeats

  // ---- What was spent since ------------------------------------------------------------

  function Snapshots(w: World): multiset<Usage> {
    multiset(w.spent)
  }

  predicate Grown(before: World, after: World) {
    Snapshots(before) <= Snapshots(after)
  }

  // The snapshots taken between two points of a run.
  function Since(before: World, after: World): multiset<Usage> {
    Snapshots(after) - Snapshots(before)
  }

  lemma SinceSplits(a: World, b: World, c: World)
    requires Grown(a, b) && Grown(b, c)
    ensures Grown(a, c) && Since(a, c) == Since(a, b) + Since(b, c)
  {
  }

  lemma SinceNothing(before: World, after: World)
    requires after.spent == before.spent
    ensures Grown(before, after) && Since(before, after) == multiset{}
  {
  }

  // A piece of work: the usage it reports is the sum of what it spent.
  ghost predicate Accounts(usage: Usage, before: World, after: World) {
    Grown(before, after) && Sums(usage, Since(before, after))
  }

  lemma AccountsNothing(before: World, after: World)
    requires after.spent == before.spent
    ensures Accounts(NO_USAGE, before, after)
  {
    SumsNothing();
    SinceNothing(before, after);
  }

  lemma AccountsThen(a: Usage, b: Usage, w0: World, w1: World, w2: World)
    requires Accounts(a, w0, w1) && Accounts(b, w1, w2)
    ensures Accounts(a.Plus(b), w0, w2)
  {
    SinceSplits(w0, w1, w2);
    SumsPlus(a, b, Since(w0, w1), Since(w1, w2));
  }

  // Two accounts that grew in turns.
  ghost predicate Interleaved(a: Usage, b: Usage, before: World, after: World) {
    Grown(before, after) && exists left, right :: SumApart(a, b, left, right, Since(before, after))
  }

  ghost predicate SumApart(a: Usage, b: Usage, left: multiset<Usage>, right: multiset<Usage>,
                           snapshots: multiset<Usage>) {
    Sums(a, left) && Sums(b, right) && left + right == snapshots
  }

  lemma InterleavedLeft(a: Usage, b: Usage, u: Usage, w0: World, w1: World, w2: World)
    requires Interleaved(a, b, w0, w1) && Accounts(u, w1, w2)
    ensures Interleaved(a.Plus(u), b, w0, w2)
  {
    var left, right :| SumApart(a, b, left, right, Since(w0, w1));
    SinceSplits(w0, w1, w2);
    SumsPlus(a, u, left, Since(w1, w2));
    assert SumApart(a.Plus(u), b, left + Since(w1, w2), right, Since(w0, w2));
  }

  lemma InterleavedRight(a: Usage, b: Usage, u: Usage, w0: World, w1: World, w2: World)
    requires Interleaved(a, b, w0, w1) && Accounts(u, w1, w2)
    ensures Interleaved(a, b.Plus(u), w0, w2)
  {
    var left, right :| SumApart(a, b, left, right, Since(w0, w1));
    SinceSplits(w0, w1, w2);
    SumsPlus(b, u, right, Since(w1, w2));
    assert SumApart(a, b.Plus(u), left, right + Since(w1, w2), Since(w0, w2));
  }

  lemma InterleavedAccounts(a: Usage, b: Usage, before: World, after: World)
    requires Interleaved(a, b, before, after)
    ensures Accounts(a.Plus(b), before, after)
  {
    var left, right :| SumApart(a, b, left, right, Since(before, after));
    SumsPlus(a, b, left, right);
  }

  // Looking at the clock spends nothing.
  lemma AccountsStill(usage: Usage, before: World, w: World, w': World)
    requires Accounts(usage, before, w) && w'.spent == w.spent
    ensures Accounts(usage, before, w')
  {
  }

  // ---- The engine ------------------------------------------------------------------------

  // What repeats need so that their retry flows are known.
  predicate SteadyRepeat(plan: Plan, name: string, repeat: Repeat) {
    && AuthoredRepeat(repeat)
    && (repeat.retryFlow.Some? ==>
          var retry := repeat.Retry();
          retry in plan.flows && retry != name && plan.At(retry).name == retry)
  }

  // An item repeat must also decide: a condition that fails ends the whole collection and
  // drops the usage of the items that ran.
  predicate SteadyFlow(plan: Plan, flow: Flow) {
    flow.repeat.Some? ==>
      && SteadyRepeat(plan, flow.name, flow.Repeating())
      && (flow.callable ==> ShortRepeat(flow.Repeating()))
  }

  ghost predicate Steady(plan: Plan) {
    forall n {:trigger SteadyFlow(plan, plan.At(n))} | n in plan.flows :: SteadyFlow(plan, plan.At(n))
  }

  // A run of a flow that accounts for what it spent.
  ghost predicate Accounted(record: FlowRecord, before: World, after: World) {
    record.attempts == [] && Measures(record.usage, before, after)
  }

  ghost predicate Measures(usage: Option<Usage>, before: World, after: World) {
    match usage
    case None => false
    case Some(u) => Accounts(u, before, after)
  }

  lemma AbortAccounted(e: Engine, p: Progress, exn: Exn, active: Option<Active>, issues: seq<Issue>, w0: World)
    requires Accounts(p.usage, w0, p.world)
    ensures var run := Abort(e, p, exn, active, issues); Accounted(run.record, w0, run.world)
  {
    AccountsStill(p.usage, w0, p.world, RecordFailure(e, exn, p.world).1);
  }

  lemma ProjectAccounted(e: Engine, flow: Flow, payload: Json, p: Progress, status: Status, issues: seq<Issue>,
                         w0: World)
    requires Accounts(p.usage, w0, p.world)
    ensures var run := Project(e, flow, payload, p, status, issues); Accounted(run.record, w0, run.world)
  {
    AccountsStill(p.usage, w0, p.world, Project(e, flow, payload, p, status, issues).world);
  }

  lemma {:induction false} FlowAccounted(e: Engine, flow: Flow, payload: Json, w: World, depth: int)
    requires Steady(e.plan)
    ensures var run := ExecuteFlow(e, flow, payload, w, depth); Accounted(run.record, w, run.world)
    decreases LIMIT - depth, 2, |flow.steps| + 1
  {
    AccountsNothing(w, w);
    StepsAccounted(e, flow, payload, 0, Progress(SkippedSteps(flow.steps), NO_USAGE, w), w, depth);
  }

  lemma {:induction false} StepsAccounted(e: Engine, flow: Flow, payload: Json, k: nat, p: Progress, w0: World,
                                          depth: int)
    requires Steady(e.plan) && Accounts(p.usage, w0, p.world)
    ensures var run := RunSteps(e, flow, payload, k, p, depth); Accounted(run.record, w0, run.world)
    decreases LIMIT - depth, 2, |flow.steps| - k
  {
    if k >= |flow.steps| {
      ProjectAccounted(e, flow, payload, p, Completed, [], w0);
    } else {
      StepAccounted(e, flow.steps[k], payload, p, w0, depth);
      var run := RunStep(e, flow.steps[k], payload, p, depth);
      if run.Bypassed? || (run.Ran? && run.record.status != NeedsReview && run.record.status != Failed) {
        StepsAccounted(e, flow, payload, k + 1, run.progress, w0, depth);
      } else {
        StopAccounted(e, flow, payload, k, p, w0, depth, run);
      }
    }
  }

  // A step that ends its flow.
  lemma StopAccounted(e: Engine, flow: Flow, payload: Json, k: nat, p: Progress, w0: World, depth: int, run: StepRun)
    requires k < |flow.steps| && run == RunStep(e, flow.Step(k), payload, p, depth) && Stepped(run, w0)
    requires !run.Bypassed? && (run.Ran? ==> run.record.status == NeedsReview || run.record.status == Failed)
    ensures var ended := RunSteps(e, flow, payload, k, p, depth); Accounted(ended.record, w0, ended.world)
  {
    if run.Interrupted? {
      AbortAccounted(e, run.progress, run.exn, run.active, [], w0);
    } else if run.record.status == NeedsReview {
      ProjectAccounted(e, flow, payload, run.progress, NeedsReview, run.issues, w0);
    }
  }

  ghost predicate Stepped(run: StepRun, w0: World) {
    Accounts(run.progress.usage, w0, run.progress.world)
  }

  lemma {:induction false} StepAccounted(e: Engine, step: Step, payload: Json, p: Progress, w0: World, depth: int)
    requires Steady(e.plan) && Accounts(p.usage, w0, p.world)
    ensures Stepped(RunStep(e, step, payload, p, depth), w0)
    decreases LIMIT - depth, 1, 1
  {
    var p1 := p.(world := p.world.Next());
    AccountsStill(p.usage, w0, p.world, p1.world);
    if !e.expired(p.world.tick) && Guard(e, step, Context(e, payload, p)) == Ok(true) {
      EnterAccounted(e, step, payload, p1, w0, depth);
    }
  }

  lemma {:induction false} EnterAccounted(e: Engine, step: Step, payload: Json, p: Progress, w0: World, depth: int)
    requires Steady(e.plan) && Accounts(p.usage, w0, p.world)
    ensures Stepped(EnterStep(e, step, payload, p, depth), w0)
    decreases LIMIT - depth, 1, 0
  {
    var p1 := p.(world := p.world.(consumed := p.world.consumed + 1));
    AccountsStill(p.usage, w0, p.world, p1.world);
    var inputs := Bindings.ResolveAll(step.Arguments(), Context(e, payload, p));
    if p.world.consumed < e.maxSteps && inputs.Ok? {
      EnterRuns(e, step, payload, p, p1, inputs.value, depth);
      if step.Collection? {
        CollectionAccounted(e, step, inputs.value, p1.world, depth);
        CollectedAccounted(e, step, inputs.value, p1, w0, depth);
      } else {
        OperationAccounted(e, step, inputs.value, p1, w0);
      }
    }
  }

  // Every executor call adds its snapshot once, however the call ends.
  lemma OperationSpends(e: Engine, step: Step, inputs: Object, p: Progress)
    ensures var run := RunOperation(e, step, inputs, p);
            var usage := e.execute(p.world.tick, step, inputs).usage;
            run.progress.world.spent == p.world.spent + [usage] && run.progress.usage == p.usage.Plus(usage)
  {
  }

  lemma OperationAccounted(e: Engine, step: Step, inputs: Object, p: Progress, w0: World)
    requires Accounts(p.usage, w0, p.world)
    ensures Stepped(RunOperation(e, step, inputs, p), w0)
  {
    var usage := e.execute(p.world.tick, step, inputs).usage;
    var w := RunOperation(e, step, inputs, p).progress.world;
    OperationSpends(e, step, inputs, p);
    SumsOne(usage);
    assert Snapshots(w) == Snapshots(p.world) + multiset{usage};
    assert Since(p.world, w) == multiset{usage};
    AccountsThen(p.usage, usage, w0, p.world, w);
  }

  // ---- Collections -----------------------------------------------------------------------------

  ghost predicate CollectionAccounts(run: (Result<StepRecord, Exn>, World), before: World) {
    match run.0
    case Err(_) => run.1.spent == before.spent
    case Ok(record) => Measures(record.usage, before, run.1)
  }

  lemma CollectedAccounted(e: Engine, step: Step, inputs: Object, p: Progress, w0: World, depth: int)
    requires Accounts(p.usage, w0, p.world)
    requires CollectionAccounts(ExecuteCollection(e, step, inputs, p.world, depth), p.world)
    ensures Stepped(RunCollection(e, step, inputs, p, depth), w0)
  {
    var (result, w) := ExecuteCollection(e, step, inputs, p.world, depth);
    match result
    case Err(_) => AccountsStill(p.usage, w0, p.world, w);
    case Ok(record) => AccountsThen(p.usage, record.usage.value, w0, p.world, w);
  }

  ghost predicate SteadyEntries(plan: Plan, entries: seq<Entry>) {
    forall k | 0 <= k < |entries| :: SteadyItem(plan, entries[k].item)
  }

  ghost predicate SteadyItem(plan: Plan, item: Item) {
    item.flow in plan.flows && plan.At(item.flow).callable
  }

  lemma {:induction false} CollectionAccounted(e: Engine, step: Step, inputs: Object, w: World, depth: int)
    requires Steady(e.plan)
    ensures CollectionAccounts(ExecuteCollection(e, step, inputs, w, depth), w)
    decreases LIMIT - depth, 0, 0
  {
    if depth < LIMIT && ItemsOnly(step, inputs) {
      CheckSpendsNothing(e, step, RawItems(inputs), w);
      var (checked, w1) := CheckItems(e, step, RawItems(inputs), [], {}, w);
      if checked.Ok? {
        BatchRuns(e, step, inputs, w, depth, checked.value, w1);
        ItemsAccounted(e, 0, EmptyBatch(e.plan, checked.value), w, w1, depth + 1);
        BatchMeasures(RunItems(e, 0, EmptyBatch(e.plan, checked.value), w1, depth + 1), w);
      }
    }
  }

  // The check makes no call, and the batch it lets through has no usage yet.
  lemma CheckSpendsNothing(e: Engine, step: Step, raw: seq<Json>, w: World)
    ensures var run := CheckItems(e, step, raw, [], {}, w);
            && run.1.spent == w.spent
            && (run.0.Ok? ==> Accounts(NO_USAGE, w, run.1)
                              && SteadyEntries(e.plan, EmptyBatch(e.plan, run.0.value).entries))
  {
    ItemsChecked(e, step, raw, [], {}, w);
    var (checked, w1) := CheckItems(e, step, raw, [], {}, w);
    if checked.Ok? {
      AccountsNothing(w, w1);
      EmptySteady(e, step, checked.value);
    }
  }

  lemma BatchMeasures(run: (Result<Batch, Exn>, World), before: World)
    requires Batched(run, before)
    ensures CollectionAccounts(Collected(run), before)
  {
  }

  lemma EmptySteady(e: Engine, step: Step, items: seq<Item>)
    requires Batchable(e, step, items)
    ensures SteadyEntries(e.plan, EmptyBatch(e.plan, items).entries)
  {
    forall k | 0 <= k < |items| ensures SteadyItem(e.plan, items[k]) {
      assert ItemFits(e, step, items[k]);
    }
  }

  function RunTotal(run: Option<FlowRecord>): Usage {
    if run.Some? && run.value.TotalUsage().Some? then run.value.TotalUsage().value else NO_USAGE
  }

  lemma EnteredAccounts(batch: Batch, k: nat, done: ItemDone, w0: World, w: World, w': World)
    requires k < |batch.entries| && Accounts(batch.usage, w0, w) && ItemAccounts(ItemRun(Ok(done), w'), w)
    ensures Accounts(Entered(batch, k, done).usage, w0, w')
  {
    UsageMonoid(batch.usage, RunTotal(Some(done.record)), RunTotal(done.retry));
    UsageMonoid(batch.usage.Plus(RunTotal(Some(done.record))), NO_USAGE, NO_USAGE);
    UsageMonoid(batch.usage, NO_USAGE, NO_USAGE);
    AccountsThen(batch.usage, RunTotal(Some(done.record)).Plus(RunTotal(done.retry)), w0, w, w');
  }

  ghost predicate Batched(run: (Result<Batch, Exn>, World), w0: World) {
    match run.0
    case Err(_) => false
    case Ok(batch) => Accounts(batch.usage, w0, run.1)
  }

  lemma {:induction false} ItemsAccounted(e: Engine, k: nat, batch: Batch, w0: World, w: World, depth: int)
    requires Steady(e.plan) && SteadyEntries(e.plan, batch.entries) && Accounts(batch.usage, w0, w)
    ensures Batched(RunItems(e, k, batch, w, depth), w0)
    decreases LIMIT - depth, 6, |batch.entries| - k
  {
    if k < |batch.entries| {
      var item := batch.entries[k].item;
      assert SteadyItem(e.plan, item);
      ItemAccounted(e, e.plan.At(item.flow), item.payload, w, depth);
      var run := RunItem(e, e.plan.At(item.flow), item.payload, w, depth);
      var done := run.outcome.value;
      ItemEnters(e, k, batch, done, w0, w, run.world, depth);
      if !done.Stops() {
        ItemsAccounted(e, k + 1, Entered(batch, k, done), w0, run.world, depth);
      }
    }
  }

  // The batch after one more item.
  lemma ItemEnters(e: Engine, k: nat, batch: Batch, done: ItemDone, w0: World, w: World, w': World, depth: int)
    requires SteadyEntries(e.plan, batch.entries) && k < |batch.entries| && Accounts(batch.usage, w0, w)
    requires ItemAccounts(ItemRun(Ok(done), w'), w)
    ensures SteadyEntries(e.plan, Entered(batch, k, done).entries) && Accounts(Entered(batch, k, done).usage, w0, w')
    ensures Entering(e, k, batch, w, depth, done, w')
  {
    EnteredAccounts(batch, k, done, w0, w, w');
  }

  // What the batch comes to when this item's run does.
  ghost predicate Entering(e: Engine, k: nat, batch: Batch, w: World, depth: int, done: ItemDone, w': World) {
    k < |batch.entries|
    && (RunItem(e, e.plan.At(batch.entries[k].item.flow), batch.entries[k].item.payload, w, depth)
        == ItemRun(Ok(done), w')
        ==> RunItems(e, k, batch, w, depth)
            == if done.Stops() then (Ok(Entered(batch, k, done)), w')
               else RunItems(e, k + 1, Entered(batch, k, done), w', depth))
  }

  ghost predicate ItemAccounts(run: ItemRun, before: World) {
    match run.outcome
    case Err(_) => false
    case Ok(done) => Accounts(RunTotal(Some(done.record)).Plus(RunTotal(done.retry)), before, run.world)
  }

  lemma OnceAccounts(record: FlowRecord, usage: Usage, w: World, w': World)
    requires record.attempts == [] && record.usage == Some(usage) && Accounts(usage, w, w')
    ensures ItemAccounts(ItemRun(Ok(ItemDone(record, None, None)), w'), w)
  {
    UsageMonoid(usage, NO_USAGE, NO_USAGE);
    assert RunTotal(Some(record)) == usage && RunTotal(None) == NO_USAGE;
  }

  lemma {:induction false} ItemAccounted(e: Engine, flow: Flow, payload: Object, w: World, depth: int)
    requires Steady(e.plan) && SteadyFlow(e.plan, flow) && flow.callable
    ensures ItemAccounts(RunItem(e, flow, payload, w, depth), w)
    decreases LIMIT - depth, 5, 0
  {
    match flow.repeat
    case None =>
      FlowAccounted(e, flow, Obj(payload), w, depth);
      var run := ExecuteFlow(e, flow, Obj(payload), w, depth);
      OnceAccounts(run.record, run.record.usage.value, w, run.world);
    case Some(repeat) =>
      LoopBegins(repeat, map[], w);
      LoopAccounted(e, flow, repeat, Some(payload), Obj(payload), Obj(payload), [], map[], w, w, depth);
      var loop := Attempts(e, flow, repeat, Some(payload), Obj(payload), Obj(payload), [], map[], w, depth);
      LoopTotals(repeat, flow.name, loop, w);
  }

  // ---- Repeats -------------------------------------------------------------------------------------

  // The retry flow's record, if there is one yet, is unmeasured before its first run.
  predicate Retrying(repeat: Repeat, records: FlowRecords) {
    repeat.retryFlow.Some? && repeat.Retry() in records ==>
      records[repeat.Retry()].attempts == [] ==> records[repeat.Retry()].usage.None?
  }

  // At most one more retry run, and nothing else was spent.
  ghost predicate Retried(repeat: Repeat, before: FlowRecords, after: FlowRecords, w: World, w': World) {
    && Retrying(repeat, after)
    && var runs, runs' := RetryRuns(repeat, before), RetryRuns(repeat, after);
    || (runs' == runs && w'.spent == w.spent)
    || (runs' != [] && runs' == runs + [runs'[|runs'| - 1]] && Measures(runs'[|runs'| - 1].usage, w, w'))
  }

  // The decision on a repeat that can always decide is never an exception.
  ghost predicate DecidedWell(repeat: Repeat, before: FlowRecords, w: World, decided: Decided) {
    && (ShortRepeat(repeat) ==> decided.outcome.Ok?)
    && Retried(repeat, before, decided.records, w, decided.world)
  }

  lemma RunAdded(repeat: Repeat, before: FlowRecords, name: string, run: FlowRecord, w: World, w': World)
    requires repeat.retryFlow == Some(name) && Accounted(run, w, w')
    ensures Retried(repeat, before, before[name := RetryRecord(run, RunsOf(before, name))], w, w')
  {
  }

  lemma PrepareKeeps(e: Engine, flow: Flow, repeat: Repeat, item: Option<Object>, scope: Json, issues: seq<Issue>,
                     records: FlowRecords, w: World)
    ensures var decided := Prepare(e, flow, repeat, item, scope, issues, records, w);
            decided.records == records && decided.outcome.Ok? && decided.world.spent == w.spent
  {
  }

  lemma AfterRetryEnds(e: Engine, flow: Flow, repeat: Repeat, retry: Flow, item: Option<Object>, scope: Json,
                       issues: seq<Issue>, records: FlowRecords, run: FlowRun)
    requires AuthoredRepeat(repeat)
    ensures var decided := AfterRetry(e, flow, repeat, retry, item, scope, issues, records, run);
            && (ShortRepeat(repeat) ==> decided.outcome.Ok?) && decided.world.spent == run.world.spent
            && decided.records == records[retry.name := RetryRecord(run.record, RunsOf(records, retry.name))]
  {
    var records' := records[retry.name := RetryRecord(run.record, RunsOf(records, retry.name))];
    if repeat.continueWhen.Some? && ShortRepeat(repeat) {
      EvaluationIsTotal(repeat.continueWhen.value, WorkflowContext(scope, e.metadata, records'), e.matcher);
    }
    PrepareKeeps(e, flow, repeat, item, scope, issues, records', run.world);
  }

  lemma AfterRetryAccounted(e: Engine, flow: Flow, repeat: Repeat, retry: Flow, item: Option<Object>, scope: Json,
                            issues: seq<Issue>, records: FlowRecords, run: FlowRun, w: World)
    requires AuthoredRepeat(repeat) && repeat.retryFlow == Some(retry.name) && Accounted(run.record, w, run.world)
    ensures DecidedWell(repeat, records, w, AfterRetry(e, flow, repeat, retry, item, scope, issues, records, run))
  {
    AfterRetryEnds(e, flow, repeat, retry, item, scope, issues, records, run);
    var decided := AfterRetry(e, flow, repeat, retry, item, scope, issues, records, run);
    AccountsStill(run.record.usage.value, w, run.world, decided.world);
    RunAdded(repeat, records, retry.name, run.record, w, decided.world);
  }

  lemma {:induction false} RetryAccounted(e: Engine, flow: Flow, repeat: Repeat, retry: Flow, item: Option<Object>,
                                          scope: Json, issues: seq<Issue>, records: FlowRecords, w: World, depth: int)
    requires Steady(e.plan) && AuthoredRepeat(repeat) && repeat.retryFlow == Some(retry.name)
    ensures DecidedWell(repeat, records, w,
                        RunRetry(e, flow, repeat, retry, item, scope, issues, records, w, depth))
    decreases LIMIT - depth, 3, 0
  {
    var input := FlowInput(e, retry.name, repeat.retryFlowInput, WorkflowContext(scope, e.metadata, records));
    if input.Err? {
      var (failure, w') := RecordFailure(e, input.error, w);
      AccountsNothing(w, w');
      RunAdded(repeat, records, retry.name, FailedBeforeRun(retry, failure), w, w');
    } else {
      FlowAccounted(e, retry, Obj(input.value), w, depth);
      AfterRetryAccounted(e, flow, repeat, retry, item, scope, issues, records,
                          ExecuteFlow(e, retry, Obj(input.value), w, depth), w);
    }
  }

  lemma {:induction false} DecideAccounted(e: Engine, flow: Flow, repeat: Repeat, item: Option<Object>, scope: Json,
                                           run: FlowRun, attempt: int, records: FlowRecords, depth: int)
    requires Steady(e.plan) && SteadyRepeat(e.plan, flow.name, repeat) && Retrying(repeat, records)
    ensures var decided := Decide(e, flow, repeat, item, scope, run, attempt, records, depth);
            DecidedWell(repeat, records, run.world, decided)
            && (IsAgain(decided.outcome) ==> attempt < repeat.maxAttempts)
    decreases LIMIT - depth, 3, 1
  {
    if ShortRepeat(repeat) {
      EvaluationIsTotal(repeat.until, WorkflowContext(scope, e.metadata, records), e.matcher);
    }
    DecideCases(e, flow, repeat, item, scope, run, attempt, records, depth);
    if repeat.retryFlow.Some? {
      RetryAccounted(e, flow, repeat, e.plan.At(repeat.Retry()), item, scope, run.issues, records, run.world, depth);
    } else {
      PrepareKeeps(e, flow, repeat, item, scope, run.issues, records, run.world);
    }
  }

  predicate KeepsRecord(before: FlowRecords, after: FlowRecords, name: string) {
    name in before && name in after && after[name] == before[name]
  }

  // The decision writes the retry flow's record only.
  lemma RetryKeepsOthers(e: Engine, flow: Flow, repeat: Repeat, retry: Flow, item: Option<Object>, scope: Json,
                         issues: seq<Issue>, records: FlowRecords, w: World, depth: int, name: string)
    requires name != retry.name && name in records
    ensures KeepsRecord(records, RunRetry(e, flow, repeat, retry, item, scope, issues, records, w, depth).records, name)
  {
    var input := FlowInput(e, retry.name, repeat.retryFlowInput, WorkflowContext(scope, e.metadata, records));
    if input.Ok? {
      var run := ExecuteFlow(e, retry, Obj(input.value), w, depth);
      PrepareKeeps(e, flow, repeat, item, scope, issues,
                   records[retry.name := RetryRecord(run.record, RunsOf(records, retry.name))], run.world);
    }
  }

  lemma DecideKeepsOwn(e: Engine, flow: Flow, repeat: Repeat, item: Option<Object>, scope: Json, run: FlowRun,
                       attempt: int, records: FlowRecords, depth: int)
    requires SteadyRepeat(e.plan, flow.name, repeat) && flow.name in records
    ensures KeepsRecord(records, Decide(e, flow, repeat, item, scope, run, attempt, records, depth).records, flow.name)
  {
    DecideCases(e, flow, repeat, item, scope, run, attempt, records, depth);
    if repeat.retryFlow.Some? {
      RetryKeepsOthers(e, flow, repeat, e.plan.At(repeat.Retry()), item, scope, run.issues, records, run.world, depth,
                       flow.name);
    } else {
      PrepareKeeps(e, flow, repeat, item, scope, run.issues, records, run.world);
    }
  }

  // What the measured runs add up to (TotalUsage of a record with these attempts).
  function Spent(runs: seq<FlowRecord>): Usage {
    if runs == [] then NO_USAGE
    else
      var last := runs[|runs| - 1];
      if last.usage.Some? then Spent(runs[..|runs| - 1]).Plus(last.usage.value) else Spent(runs[..|runs| - 1])
  }

  lemma {:induction false} SpentIsTotal(runs: seq<FlowRecord>)
    ensures Spent(runs) == Total(Measured(runs))
  {
    if runs != [] {
      var init, last := runs[..|runs| - 1], runs[|runs| - 1];
      SpentIsTotal(init);
      if last.usage.Some? {
        var measured := Measured(init) + [last.usage.value];
        assert Measured(runs) == measured && measured[..|measured| - 1] == Measured(init);
      } else {
        assert Measured(runs) == Measured(init) + [] == Measured(init);
      }
    }
  }

  function Reported(run: FlowRecord): Usage {
    if run.usage.Some? then run.usage.value else NO_USAGE
  }

  lemma SpentGrows(runs: seq<FlowRecord>, run: FlowRecord)
    requires run.usage.Some?
    ensures Spent(runs + [run]) == Spent(runs).Plus(Reported(run))
  {
    var all := runs + [run];
    assert all[..|all| - 1] == runs;
  }

  lemma OtherRecord(repeat: Repeat, name: string, records: FlowRecords, record: FlowRecord)
    requires repeat.retryFlow != Some(name)
    ensures RetryRuns(repeat, records[name := record]) == RetryRuns(repeat, records)
    ensures Retrying(repeat, records) ==> Retrying(repeat, records[name := record])
  {
  }

  // The attempts and the retry runs so far account for what was spent.
  ghost predicate SpentSoFar(repeat: Repeat, attempts: seq<FlowRecord>, records: FlowRecords, before: World, w: World) {
    Retrying(repeat, records) && Interleaved(Spent(attempts), Spent(RetryRuns(repeat, records)), before, w)
  }

  lemma LoopBegins(repeat: Repeat, records: FlowRecords, w: World)
    requires Retrying(repeat, records) && RetryRuns(repeat, records) == []
    ensures SpentSoFar(repeat, [], records, w, w)
  {
    SumsNothing();
    SinceNothing(w, w);
    assert SumApart(NO_USAGE, NO_USAGE, multiset{}, multiset{}, Since(w, w));
  }

  lemma RetryAdded(repeat: Repeat, attempts: seq<FlowRecord>, before: FlowRecords, after: FlowRecords,
                   w0: World, w: World, w': World)
    requires SpentSoFar(repeat, attempts, before, w0, w) && Retried(repeat, before, after, w, w')
    ensures SpentSoFar(repeat, attempts, after, w0, w')
  {
    var runs, runs' := RetryRuns(repeat, before), RetryRuns(repeat, after);
    if runs' == runs && w'.spent == w.spent {
      assert Since(w0, w') == Since(w0, w);
    } else {
      SpentGrows(runs, runs'[|runs'| - 1]);
      InterleavedRight(Spent(attempts), Spent(runs), runs'[|runs'| - 1].usage.value, w0, w, w');
    }
  }

  // However the repeat ends, the attempts and the retry runs it leaves account for it.
  ghost predicate LoopAccounts(repeat: Repeat, name: string, loop: Loop, before: World) {
    && loop.last.attempts != [] && name in loop.records && loop.records[name] == loop.last
    && SpentSoFar(repeat, loop.last.attempts, loop.records, before, loop.world)
  }

  // One turn: an attempt, the decision after it, and the record that then stands.
  lemma TurnAccounted(repeat: Repeat, name: string, attempts: seq<FlowRecord>, records: FlowRecords, run: FlowRecord,
                      after: FlowRecords, record: FlowRecord, w0: World, w: World, w1: World, w2: World)
    requires repeat.retryFlow != Some(name) && SpentSoFar(repeat, attempts, records, w0, w) && Accounted(run, w, w1)
    requires Retried(repeat, records[name := run.(attempts := attempts + [run])], after, w1, w2)
    ensures SpentSoFar(repeat, attempts + [run], after[name := record], w0, w2)
  {
    var records' := records[name := run.(attempts := attempts + [run])];
    OtherRecord(repeat, name, records, run.(attempts := attempts + [run]));
    SpentGrows(attempts, run);
    InterleavedLeft(Spent(attempts), Spent(RetryRuns(repeat, records)), run.usage.value, w0, w, w1);
    RetryAdded(repeat, attempts + [run], records', after, w0, w1, w2);
    OtherRecord(repeat, name, after, record);
  }

  // The record that stands after a decision.
  function Written(decided: Decided, run: FlowRecord, attempts: seq<FlowRecord>): FlowRecord {
    match decided.outcome
    case Ok(Halt(halted)) => Standing(run, attempts, halted.status, Some(halted.stop))
    case _ => run.(attempts := attempts)
  }

  // After a turn the attempts and retry runs account for what was spent, whatever the
  // decision was.
  ghost predicate TurnDone(repeat: Repeat, name: string, run: FlowRecord, attempts: seq<FlowRecord>, decided: Decided,
                           before: World) {
    && name in decided.records && decided.records[name] == run.(attempts := attempts) && attempts != []
    && SpentSoFar(repeat, attempts, decided.records[name := Written(decided, run, attempts)], before, decided.world)
    && (ShortRepeat(repeat) ==> decided.outcome.Ok?)
    && (IsAgain(decided.outcome) ==> |attempts| < repeat.maxAttempts)
  }

  // However the repeat ends, its ledger accounts; if it can always decide, without exception.
  ghost predicate LoopWell(repeat: Repeat, name: string, loop: Loop, before: World) {
    LoopAccounts(repeat, name, loop, before) && (ShortRepeat(repeat) ==> loop.outcome.Ok?)
  }

  lemma {:induction false} ProceedAccounted(e: Engine, flow: Flow, repeat: Repeat, item: Option<Object>, scope: Json,
                                            run: FlowRecord, attempts: seq<FlowRecord>, decided: Decided, w0: World,
                                            depth: int)
    requires Steady(e.plan) && SteadyRepeat(e.plan, flow.name, repeat)
    requires TurnDone(repeat, flow.name, run, attempts, decided, w0)
    ensures LoopWell(repeat, flow.name, Proceed(e, flow, repeat, item, scope, run, attempts, decided, depth), w0)
    decreases LIMIT - depth, 4, 1 + repeat.maxAttempts - |attempts|, 1
  {
    assert decided.records[flow.name := run.(attempts := attempts)] == decided.records;
    match decided.outcome
    case Err(_) =>
    case Ok(Halt(_)) =>
    case Ok(Again(next)) =>
      LoopAccounted(e, flow, repeat, item, scope, Obj(next), attempts,
                    decided.records[flow.name := run.(attempts := attempts)], w0, decided.world, depth);
  }

  lemma {:induction false} TurnSpends(e: Engine, flow: Flow, repeat: Repeat, item: Option<Object>, scope: Json,
                                      input: Json, attempts: seq<FlowRecord>, records: FlowRecords, w0: World, w: World,
                                      depth: int)
    requires Steady(e.plan) && SteadyRepeat(e.plan, flow.name, repeat)
    requires |attempts| < repeat.maxAttempts && SpentSoFar(repeat, attempts, records, w0, w)
    ensures var run := ExecuteFlow(e, flow, input, w, depth);
            var attempts' := attempts + [run.record];
            var records' := records[flow.name := run.record.(attempts := attempts')];
            TurnDone(repeat, flow.name, run.record, attempts',
                     Decide(e, flow, repeat, item, scope, run, |attempts'|, records', depth), w0)
    decreases LIMIT - depth, 4, 0
  {
    FlowAccounted(e, flow, input, w, depth);
    var run := ExecuteFlow(e, flow, input, w, depth);
    var attempts' := attempts + [run.record];
    var records' := records[flow.name := run.record.(attempts := attempts')];
    OtherRecord(repeat, flow.name, records, run.record.(attempts := attempts'));
    DecideAccounted(e, flow, repeat, item, scope, run, |attempts'|, records', depth);
    DecideKeepsOwn(e, flow, repeat, item, scope, run, |attempts'|, records', depth);
    var decided := Decide(e, flow, repeat, item, scope, run, |attempts'|, records', depth);
    TurnAccounted(repeat, flow.name, attempts, records, run.record, decided.records,
                  Written(decided, run.record, attempts'), w0, w, run.world, decided.world);
  }

  lemma {:induction false} LoopAccounted(e: Engine, flow: Flow, repeat: Repeat, item: Option<Object>, scope: Json,
                                         input: Json, attempts: seq<FlowRecord>, records: FlowRecords, w0: World,
                                         w: World, depth: int)
    requires Steady(e.plan) && SteadyRepeat(e.plan, flow.name, repeat)
    requires |attempts| < repeat.maxAttempts && SpentSoFar(repeat, attempts, records, w0, w)
    ensures LoopWell(repeat, flow.name, Attempts(e, flow, repeat, item, scope, input, attempts, records, w, depth), w0)
    decreases LIMIT - depth, 4, 1 + repeat.maxAttempts - |attempts|, 0
  {
    TurnSpends(e, flow, repeat, item, scope, input, attempts, records, w0, w, depth);
    var run := ExecuteFlow(e, flow, input, w, depth);
    var attempts' := attempts + [run.record];
    var records' := records[flow.name := run.record.(attempts := attempts')];
    ProceedAccounted(e, flow, repeat, item, scope, run.record, attempts',
                     Decide(e, flow, repeat, item, scope, run, |attempts'|, records', depth), w0, depth);
  }

  function RetryRecordOf(repeat: Repeat, records: FlowRecords): Option<FlowRecord> {
    if repeat.retryFlow.Some? && repeat.Retry() in records then Some(records[repeat.Retry()]) else None
  }

  lemma LoopTotals(repeat: Repeat, name: string, loop: Loop, before: World)
    requires LoopAccounts(repeat, name, loop, before)
    ensures var retry := RetryRecordOf(repeat, loop.records);
            && RunTotal(Some(loop.last)) == Spent(loop.last.attempts)
            && RunTotal(retry) == Spent(RetryRuns(repeat, loop.records))
            && Accounts(RunTotal(Some(loop.last)).Plus(RunTotal(retry)), before, loop.world)
  {
    InterleavedAccounts(Spent(loop.last.attempts), Spent(RetryRuns(repeat, loop.records)), before, loop.world);
    SpentIsTotal(loop.last.attempts);
    SpentIsTotal(RetryRuns(repeat, loop.records));
  }
}
