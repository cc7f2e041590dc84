/**
 The meaning of a run: the workflow engine as functions of the plan, the accepted
 payload and three oracles (clock, step executor, input validator).  Every consultation
 of an oracle has its own tick, so the functions cover every behaviour of the
 environment.  The runner's methods are proved equal to these functions.
 */
module Engine {
  import opened Foundations
  import opened Json
  import opened Bindings
  import opened Overrides
  import opened Conditions
  import opened Plans
  import opened Accounting
  import opened Records

  const LIMIT: nat := MAX_COLLECTION_DEPTH

  // A raised exception: a ServiceError, or anything else.
  datatype Exn = Service(code: ErrorCode, retryable: bool) | Unexpected

  datatype StepOutcome = StepOutcome(
    result: Json, needsReview: bool, selection: Option<Selection>, issues: seq<Issue>)

  // An executor call ends by the run deadline, by an exception or with an outcome;
  // the budget snapshot is taken in every case.
  datatype Reply = TimedOut | Raised(exn: Exn) | Returned(outcome: StepOutcome)

  datatype Execution = Execution(reply: Reply, usage: Usage)

  datatype Engine = Engine(
    plan: Plan,
    maxSteps: nat,
    metadata: Object,
    expired: nat -> bool,
    execute: (nat, Step, Object) -> Execution,
    validate: (string, Object) -> Option<Exn>,
    matcher: Matcher)

  // The clock and executor position, the step counter, and the history of budget
  // snapshots (read by no decision of the engine).
  datatype World = World(tick: nat, consumed: nat, spent: seq<Usage>) {
    function Next(): World {
      this.(tick := tick + 1)
    }
  }

  function Error(code: ErrorCode): Exn {
    Service(code, false)
  }

  predicate IsTimeout(exn: Exn) {
    exn.Service? && !exn.retryable && (exn.code == RequestTimeout || exn.code == RunTimeout)
  }

  // The recorded failure; a timeout reports which bound it hit by another look at the clock.
  function RecordFailure(e: Engine, exn: Exn, w: World): (Failure, World) {
    if IsTimeout(exn) then
      (Failure(if e.expired(w.tick) then RunTimeout else RequestTimeout, false), w.Next())
    else if exn.Service? then (Failure(exn.code, exn.retryable), w)
    else (Failure(DependencyFailure, false), w)
  }

  // ---- Skipped records ------------------------------------------------------------

  function SkippedStep(step: Step): StepRecord {
    StepRecord(Skipped, None, None, None, None, None, step.Collection?)
  }

  function SkippedSteps(steps: seq<Step>): StepRecords {
    if steps == [] then map[]
    else
      var last := steps[|steps| - 1];
      SkippedSteps(steps[..|steps| - 1])[last.name := SkippedStep(last)]
  }

  function SkippedFlow(flow: Flow): FlowRecord {
    FlowRecord(Skipped, SkippedSteps(flow.steps), None, None, None, [], None)
  }

  // ---- Executor outcomes ------------------------------------------------------------

  predicate DistinctIssues(issues: seq<Issue>) {
    forall j, k | 0 <= j < k < |issues| :: issues[j] != issues[k]
  }

  // Malformed review facts of an adapter are rejected before anything is recorded.
  predicate ValidOutcome(outcome: StepOutcome, step: Step) {
    && DistinctIssues(outcome.issues)
    && (outcome.issues != [] ==> outcome.needsReview)
    && (outcome.selection.Some? ==>
          var category := outcome.selection.value.category;
          && step.Operation? && (step.kind.Decision? || step.kind == Handler)
          && |category.id| <= 128
          && (exists k | 0 <= k < |category.id| :: !Blank(category.id[k]))
          && (category.description.Some? ==> category.description.value != "")
          && outcome.needsReview == (outcome.selection.value.origin == FromFallback))
  }

  // ---- One flow -----------------------------------------------------------------------

  datatype FlowRun = FlowRun(record: FlowRecord, issues: seq<Issue>, world: World)

  // Step records so far, their usage and the world.
  datatype Progress = Progress(steps: StepRecords, usage: Usage, world: World)

  // The step an exception interrupts after it was entered.
  datatype Active = Active(name: string, usage: Usage, collection: bool)

  datatype StepRun =
    | Interrupted(exn: Exn, active: Option<Active>, progress: Progress)
    | Bypassed(progress: Progress)
    | Ran(record: StepRecord, issues: seq<Issue>, progress: Progress)

  function Guard(e: Engine, step: Step, context: Json): Result<bool, ErrorCode> {
    if step.guard.None? then Ok(true) else Evaluate(step.guard.value, context, e.matcher)
  }

  function Context(e: Engine, payload: Json, p: Progress): Json {
    FlowContext(payload, e.metadata, p.steps)
  }

  function Abort(e: Engine, p: Progress, exn: Exn, active: Option<Active>, issues: seq<Issue>): FlowRun {
    var (failure, world) := RecordFailure(e, exn, p.world);
    var steps :=
      if active.None? then p.steps
      else p.steps[active.value.name :=
             StepRecord(Failed, None, Some(failure), Some(active.value.usage), None, None, active.value.collection)];
    FlowRun(FlowRecord(Failed, steps, None, Some(p.usage), Some(failure), [], None), issues, world)
  }

  // The flow's result: its projected output, or its payload without one.
  function Project(e: Engine, flow: Flow, payload: Json, p: Progress, status: Status, issues: seq<Issue>): FlowRun {
    var result := if flow.output.None? then Ok(payload) else ResolveBinding(flow.output.value, Context(e, payload, p));
    match result
    case Err(code) => Abort(e, p, Error(code), None, issues)
    case Ok(value) =>
      FlowRun(FlowRecord(status, p.steps, Some(value), Some(p.usage), None, [], None), issues, p.world)
  }

  function ExecuteFlow(e: Engine, flow: Flow, payload: Json, w: World, depth: int): FlowRun
    decreases LIMIT - depth, 2, |flow.steps| + 1
  {
    RunSteps(e, flow, payload, 0, Progress(SkippedSteps(flow.steps), NO_USAGE, w), depth)
  }

  function RunSteps(e: Engine, flow: Flow, payload: Json, k: nat, p: Progress, depth: int): FlowRun
    decreases LIMIT - depth, 2, |flow.steps| - k
  {
    if k >= |flow.steps| then Project(e, flow, payload, p, Completed, [])
    else
      var run := RunStep(e, flow.steps[k], payload, p, depth);
      match run
      case Interrupted(exn, active, p') => Abort(e, p', exn, active, [])
      case Bypassed(p') => RunSteps(e, flow, payload, k + 1, p', depth)
      case Ran(record, issues, p') =>
        if record.status == Failed then
          FlowRun(FlowRecord(Failed, p'.steps, None, Some(p'.usage), record.error, [], None), [], p'.world)
        else if record.status == NeedsReview then Project(e, flow, payload, p', NeedsReview, issues)
        else RunSteps(e, flow, payload, k + 1, p', depth)
  }

  // The loop ends at this step.
  predicate EndsFlow(run: StepRun) {
    match run
    case Interrupted(_, _, _) => true
    case Bypassed(_) => false
    case Ran(record, _, _) => record.status == Failed || record.status == NeedsReview
  }

  lemma StepsPass(e: Engine, flow: Flow, payload: Json, k: nat, p: Progress, depth: int, run: StepRun)
    requires k < |flow.steps| && run == RunStep(e, flow.Step(k), payload, p, depth) && !EndsFlow(run)
    ensures RunSteps(e, flow, payload, k, p, depth) == RunSteps(e, flow, payload, k + 1, run.progress, depth)
  {
  }

  // One iteration of the step loop.
  function RunStep(e: Engine, step: Step, payload: Json, p: Progress, depth: int): StepRun
    decreases LIMIT - depth, 1, 1
  {
    var p1 := p.(world := p.world.Next());
    if e.expired(p.world.tick) then Interrupted(Error(RunTimeout), None, p1)
    else
      var guard := Guard(e, step, Context(e, payload, p));
      match guard
      case Err(code) => Interrupted(Error(code), None, p1)
      case Ok(false) => Bypassed(p1)
      case Ok(true) => EnterStep(e, step, payload, p1, depth)
  }

  // A step that runs: it is counted before its inputs are resolved.
  function EnterStep(e: Engine, step: Step, payload: Json, p: Progress, depth: int): StepRun
    decreases LIMIT - depth, 1, 0
  {
    if p.world.consumed >= e.maxSteps then Interrupted(Error(StepLimitReached), None, p)
    else
      var p1 := p.(world := p.world.(consumed := p.world.consumed + 1));
      var arguments := ResolveAll(step.Arguments(), Context(e, payload, p));
      match arguments
      case Err(code) => Interrupted(Error(code), Some(Active(step.name, NO_USAGE, step.Collection?)), p1)
      case Ok(inputs) =>
        if step.Collection? then RunCollection(e, step, inputs, p1, depth) else RunOperation(e, step, inputs, p1)
  }

  // A step that is entered with its inputs runs.
  lemma EnterRuns(e: Engine, step: Step, payload: Json, p: Progress, p1: Progress, inputs: Object, depth: int)
    requires p.world.consumed < e.maxSteps
    requires p1 == p.(world := p.world.(consumed := p.world.consumed + 1))
    requires ResolveAll(step.Arguments(), Context(e, payload, p)) == Ok(inputs)
    ensures EnterStep(e, step, payload, p, depth)
            == if step.Collection? then RunCollection(e, step, inputs, p1, depth) else RunOperation(e, step, inputs, p1)
  {
  }

  function RunOperation(e: Engine, step: Step, inputs: Object, p: Progress): StepRun {
    var execution := e.execute(p.world.tick, step, inputs);
    var w := p.world.Next().(spent := p.world.spent + [execution.usage]);
    var p1 := p.(usage := p.usage.Plus(execution.usage), world := w);
    var active := Some(Active(step.name, execution.usage, false));
    match execution.reply
    case TimedOut => Interrupted(Error(RunTimeout), active, p1)
    case Raised(exn) =>
      if IsTimeout(exn) then
        Interrupted(Error(if e.expired(w.tick) then RunTimeout else RequestTimeout), active, p1.(world := w.Next()))
      else Interrupted(exn, active, p1)
    case Returned(outcome) =>
      var p2 := p1.(world := w.Next());
      if e.expired(w.tick) then Interrupted(Error(RunTimeout), active, p2)
      else if !ValidOutcome(outcome, step) || !Fits(outcome.result, 0, MAX_JSON_DEPTH) then
        Interrupted(Error(InvalidOutput), active, p2)
      else
        var record := StepRecord(if outcome.needsReview then NeedsReview else Completed, Some(outcome.result), None,
                                 Some(execution.usage), outcome.selection, None, false);
        Ran(record, if outcome.needsReview then outcome.issues else [], p2.(steps := p2.steps[step.name := record]))
  }

  // ---- Collections ------------------------------------------------------------------------

  datatype Item = Item(id: string, flow: string, payload: Object)

  // An item with its record and its retry flow's record.
  datatype Entry = Entry(item: Item, record: FlowRecord, retry: Option<FlowRecord>)

  datatype Batch = Batch(entries: seq<Entry>, usage: Usage, status: Status, failure: Option<Failure>)

  function RunCollection(e: Engine, step: Step, inputs: Object, p: Progress, depth: int): StepRun
    decreases LIMIT - depth, 0, 1
  {
    var run := ExecuteCollection(e, step, inputs, p.world, depth);
    match run.0
    case Err(exn) => Interrupted(exn, Some(Active(step.name, NO_USAGE, true)), p.(world := run.1))
    case Ok(record) =>
      var usage := if record.usage.Some? then record.usage.value else NO_USAGE;
      Ran(record, [], Progress(p.steps[step.name := record], p.usage.Plus(usage), run.1))
  }

  // The parts of one authored item, or None when it is malformed.
  function ReadItem(step: Step, item: Json, seen: set<string>): Option<Item> {
    if !item.Obj? || item.fields.Keys != {"id", "flow", "input"} then None
    else
      var id, flow, payload := item.fields["id"], item.fields["flow"], item.fields["input"];
      if id.Str? && IsItemId(id.s) && id.s !in seen && flow.Str? && flow.s in step.Targets() && payload.Obj?
      then Some(Item(id.s, flow.s, payload.fields))
      else None
  }

  function CallableFlow(plan: Plan, name: string): Option<Flow> {
    if name in plan.flows && plan.At(name).callable then Some(plan.At(name)) else None
  }

  // The whole batch is checked before any item runs.
  function CheckItems(e: Engine, step: Step, raw: seq<Json>, items: seq<Item>, seen: set<string>, w: World)
    : (Result<seq<Item>, Exn>, World)
    decreases |raw| - |items|
  {
    if |items| >= |raw| then (Ok(items), w)
    else if e.expired(w.tick) then (Err(Error(RunTimeout)), w.Next())
    else
      var read := ReadItem(step, raw[|items|], seen);
      match read
      case None => (Err(Error(InvalidInput)), w.Next())
      case Some(item) =>
        if CallableFlow(e.plan, item.flow).None? then (Err(Error(InvalidConfiguration)), w.Next())
        else
          var rejected := e.validate(item.flow, item.payload);
          match rejected
          case Some(exn) => (Err(exn), w.Next())
          case None => CheckItems(e, step, raw, items + [item], seen + {item.id}, w.Next())
  }

  // What the check lets through: items of the step, for callable flows, with accepted payloads.
  predicate Batchable(e: Engine, step: Step, items: seq<Item>) {
    forall k | 0 <= k < |items| :: ItemFits(e, step, items[k])
  }

  predicate ItemFits(e: Engine, step: Step, item: Item) {
    && item.flow in step.Targets() && CallableFlow(e.plan, item.flow).Some?
    && e.validate(item.flow, item.payload).None?
  }

  // Why the check stops.
  ghost predicate CheckError(e: Engine, step: Step, exn: Exn) {
    || exn == Error(RunTimeout) || exn == Error(InvalidInput)
    || (exn == Error(InvalidConfiguration) && exists n :: n in step.Targets() && CallableFlow(e.plan, n).None?)
    || exists name, payload :: e.validate(name, payload) == Some(exn)
  }

  ghost predicate Checked(e: Engine, step: Step, raw: seq<Json>, w: World, run: (Result<seq<Item>, Exn>, World)) {
    && run.1.consumed == w.consumed && run.1.spent == w.spent
    && match run.0
       case Err(exn) => CheckError(e, step, exn)
       case Ok(items) => |items| == |raw| && Batchable(e, step, items)
  }

  lemma {:induction false} ItemsChecked(e: Engine, step: Step, raw: seq<Json>, items: seq<Item>, seen: set<string>,
                                        w: World)
    requires |items| <= |raw| && Batchable(e, step, items)
    ensures Checked(e, step, raw, w, CheckItems(e, step, raw, items, seen, w))
    decreases |raw| - |items|
  {
    if |items| < |raw| && !e.expired(w.tick) {
      var read := ReadItem(step, raw[|items|], seen);
      if read.Some? && CallableFlow(e.plan, read.value.flow).Some?
          && e.validate(read.value.flow, read.value.payload).None? {
        ItemsChecked(e, step, raw, items + [read.value], seen + {read.value.id}, w.Next());
      }
    }
  }

  function EmptyBatch(plan: Plan, items: seq<Item>): Batch {
    Batch(seq(|items|, k requires 0 <= k < |items| => Entry(items[k], SkippedFlow(plan.At(items[k].flow)), None)),
          NO_USAGE, Completed, None)
  }

  function Ledger(entries: seq<Entry>): Json {
    Obj(map["items" := Arr(seq(|entries|, k requires 0 <= k < |entries| => EntryValue(entries[k])))])
  }

  function EntryValue(entry: Entry): Json {
    ItemEntry(entry.item.id, entry.item.flow, entry.record, entry.retry)
  }

  function CollectionRecord(batch: Batch): StepRecord {
    var ledger, failed := Ledger(batch.entries), batch.status == Failed;
    StepRecord(batch.status, if failed then None else Some(ledger), batch.failure, Some(batch.usage), None,
               if failed then Some(ledger) else None, true)
  }

  // The input of a collection is one list of at most so many items.
  predicate ItemsOnly(step: Step, inputs: Object) {
    inputs.Keys == {"items"} && inputs["items"].Arr? && |inputs["items"].items| <= step.Capacity()
  }

  function RawItems(inputs: Object): seq<Json> {
    if "items" in inputs && inputs["items"].Arr? then inputs["items"].items else []
  }

  function ExecuteCollection(e: Engine, step: Step, inputs: Object, w: World, depth: int)
    : (Result<StepRecord, Exn>, World)
    decreases LIMIT - depth, 0, 0
  {
    if depth >= LIMIT then (Err(Error(InvalidConfiguration)), w)
    else if !ItemsOnly(step, inputs) then (Err(Error(InvalidInput)), w)
    else
      var checked := CheckItems(e, step, RawItems(inputs), [], {}, w);
      match checked.0
      case Err(exn) => (Err(exn), checked.1)
      case Ok(items) => Collected(RunItems(e, 0, EmptyBatch(e.plan, items), checked.1, depth + 1))
  }

  // The record of a collection whose items ran.
  function Collected(run: (Result<Batch, Exn>, World)): (Result<StepRecord, Exn>, World) {
    match run.0
    case Err(exn) => (Err(exn), run.1)
    case Ok(batch) => (Ok(CollectionRecord(batch)), run.1)
  }

  // A checked batch runs its items.
  lemma BatchRuns(e: Engine, step: Step, inputs: Object, w: World, depth: int, items: seq<Item>, w1: World)
    requires depth < LIMIT && ItemsOnly(step, inputs)
    requires CheckItems(e, step, RawItems(inputs), [], {}, w) == (Ok(items), w1)
    ensures ExecuteCollection(e, step, inputs, w, depth)
            == Collected(RunItems(e, 0, EmptyBatch(e.plan, items), w1, depth + 1))
  {
  }

  // Adds the measured usage of one finished run.
  function AddRun(usage: Usage, run: Option<FlowRecord>): Usage {
    if run.Some? && run.value.TotalUsage().Some? then usage.Plus(run.value.TotalUsage().value) else usage
  }

  // Items run in order until one fails; a review does not stop the batch.
  function RunItems(e: Engine, k: nat, batch: Batch, w: World, depth: int): (Result<Batch, Exn>, World)
    decreases LIMIT - depth, 6, |batch.entries| - k
  {
    if k >= |batch.entries| then (Ok(batch), w)
    else
      var item := batch.entries[k].item;
      var run := RunItem(e, e.plan.At(item.flow), item.payload, w, depth);
      match run.outcome
      case Err(exn) => (Err(exn), run.world)
      case Ok(done) =>
        var batch' := Entered(batch, k, done);
        if done.Stops() then (Ok(batch'), run.world) else RunItems(e, k + 1, batch', run.world, depth)
  }

  // A finished item enters the batch.
  function Entered(batch: Batch, k: nat, done: ItemDone): Batch {
    if k >= |batch.entries| then batch
    else
      Batch(batch.entries[k := Entry(batch.entries[k].item, done.record, done.retry)],
            AddRun(AddRun(batch.usage, Some(done.record)), done.retry),
            if done.Stops() then Failed else if done.record.status == NeedsReview then NeedsReview else batch.status,
            if !done.Stops() then batch.failure
            else if done.failure.Some? then done.failure else done.record.error)
  }

  // One item's record, its retry flow's record, and a retry or input failure that
  // stops the collection although the last attempt stands.
  datatype ItemDone = ItemDone(record: FlowRecord, retry: Option<FlowRecord>, failure: Option<Failure>) {
    predicate Stops() {
      record.status == Failed || failure.Some?
    }
  }

  datatype ItemRun = ItemRun(outcome: Result<ItemDone, Exn>, world: World)

  function RunItem(e: Engine, flow: Flow, payload: Object, w: World, depth: int): ItemRun
    decreases LIMIT - depth, 5, 0
  {
    match flow.repeat
    case None =>
      var run := ExecuteFlow(e, flow, Obj(payload), w, depth);
      ItemRun(Ok(ItemDone(run.record, None, None)), run.world)
    case Some(repeat) =>
      var loop := Attempts(e, flow, repeat, Some(payload), Obj(payload), Obj(payload), [], map[], w, depth);
      match loop.outcome
      case Err(exn) => ItemRun(Err(exn), loop.world)
      case Ok(halted) =>
        var retry := if repeat.retryFlow.Some? && repeat.retryFlow.value in loop.records
                     then Some(loop.records[repeat.retryFlow.value]) else None;
        ItemRun(Ok(ItemDone(loop.last, retry, halted.failure)), loop.world)
  }

  // ---- Repeats -------------------------------------------------------------------------------

  // Why the repeat stops.
  datatype Halted = Halted(stop: Stop, issues: seq<Issue>, status: Option<Status>, failure: Option<Failure>)

  // The end of the repeat, or the input of the next attempt.
  datatype Decision = Halt(halted: Halted) | Again(input: Object)

  // records: the repeat's scope afterwards, with the retry flow's runs.
  datatype Decided = Decided(outcome: Result<Decision, Exn>, records: FlowRecords, world: World)

  // Resolve boundary bindings and validate them as a flow's input.
  function FlowInput(e: Engine, name: string, bindings: seq<Named>, context: Json): Result<Object, Exn> {
    var resolved := ResolveAll(bindings, context);
    match resolved
    case Err(code) => Err(Error(code))
    case Ok(inputs) =>
      var rejected := e.validate(name, inputs);
      match rejected
      case Some(exn) => Err(exn)
      case None => Ok(inputs)
  }

  function RunsOf(records: FlowRecords, name: string): seq<FlowRecord> {
    if name in records then records[name].attempts else []
  }

  // The next attempt's input: the overridden boundary bindings of a routed flow, or
  // the item's own input with overridden keys.
  function NextInput(e: Engine, flow: Flow, repeat: Repeat, item: Option<Object>, context: Json): Result<Object, Exn> {
    match item
    case None => FlowInput(e, flow.name, Override(flow.input, repeat.retryInput), context)
    case Some(payload) =>
      var resolved := ResolveAll(repeat.retryInput, context);
      match resolved
      case Err(code) => Err(Error(code))
      case Ok(overrides) =>
        var inputs := payload + overrides;
        var rejected := e.validate(flow.name, inputs);
        match rejected
        case Some(exn) => Err(exn)
        case None => Ok(inputs)
  }

  function Prepare(e: Engine, flow: Flow, repeat: Repeat, item: Option<Object>, scope: Json, issues: seq<Issue>,
                   records: FlowRecords, w: World): Decided {
    var next := if e.expired(w.tick) then Err(Error(RunTimeout))
                else NextInput(e, flow, repeat, item, WorkflowContext(scope, e.metadata, records));
    match next
    case Ok(input) => Decided(Ok(Again(input)), records, w.Next())
    case Err(exn) =>
      var (failure, w') := RecordFailure(e, exn, w.Next());
      Decided(Ok(Halt(Halted(ByFailure, issues, None, Some(failure)))), records, w')
  }

  function RetryRecord(run: FlowRecord, runs: seq<FlowRecord>): FlowRecord {
    run.(attempts := runs + [run])
  }

  function FailedBeforeRun(flow: Flow, failure: Failure): FlowRecord {
    FlowRecord(Failed, SkippedSteps(flow.steps), None, Some(NO_USAGE), Some(failure), [], None)
  }

  // The decision after a run of the retry flow.
  function AfterRetry(e: Engine, flow: Flow, repeat: Repeat, retry: Flow, item: Option<Object>, scope: Json,
                      issues: seq<Issue>, records: FlowRecords, run: FlowRun): Decided {
    var records' := records[retry.name := RetryRecord(run.record, RunsOf(records, retry.name))];
    if run.record.status == Failed then
      Decided(Ok(Halt(Halted(ByFailure, issues, None, run.record.error))), records', run.world)
    else if run.record.status == NeedsReview then
      Decided(Ok(Halt(Halted(ByReview, run.issues, Some(NeedsReview), None))), records', run.world)
    else
      var proceed := if repeat.continueWhen.None? then Ok(true)
                     else Evaluate(repeat.continueWhen.value, WorkflowContext(scope, e.metadata, records'), e.matcher);
      match proceed
      case Err(code) => Decided(Err(Error(code)), records', run.world)
      case Ok(false) => Decided(Ok(Halt(Halted(ByContinueWhen, issues, None, None))), records', run.world)
      case Ok(true) => Prepare(e, flow, repeat, item, scope, issues, records', run.world)
  }

  // Run the retry flow and decide whether the repeat goes on.
  function RunRetry(e: Engine, flow: Flow, repeat: Repeat, retry: Flow, item: Option<Object>, scope: Json,
                    issues: seq<Issue>, records: FlowRecords, w: World, depth: int): Decided
    decreases LIMIT - depth, 3, 0
  {
    var input := FlowInput(e, retry.name, repeat.retryFlowInput, WorkflowContext(scope, e.metadata, records));
    match input
    case Err(exn) =>
      var (failure, w') := RecordFailure(e, exn, w);
      Decided(Ok(Halt(Halted(ByFailure, issues, None, Some(failure)))),
              records[retry.name := RetryRecord(FailedBeforeRun(retry, failure), RunsOf(records, retry.name))], w')
    case Ok(inputs) =>
      AfterRetry(e, flow, repeat, retry, item, scope, issues, records, ExecuteFlow(e, retry, Obj(inputs), w, depth))
  }

  // After an attempt that does not end the repeat.
  function GoOn(e: Engine, flow: Flow, repeat: Repeat, item: Option<Object>, scope: Json, run: FlowRun,
                records: FlowRecords, depth: int): Decided
    decreases LIMIT - depth, 3, 1
  {
    match repeat.retryFlow
    case None => Prepare(e, flow, repeat, item, scope, run.issues, records, run.world)
    case Some(name) =>
      if name !in e.plan.flows then Decided(Err(Unexpected), records, run.world)
      else RunRetry(e, flow, repeat, e.plan.At(name), item, scope, run.issues, records, run.world, depth)
  }

  // The decision after attempt number `attempt`.
  function Decide(e: Engine, flow: Flow, repeat: Repeat, item: Option<Object>, scope: Json, run: FlowRun, attempt: int,
                  records: FlowRecords, depth: int): Decided
    decreases LIMIT - depth, 3, 2
  {
    if run.record.status == Failed then Decided(Ok(Halt(Halted(ByFailure, run.issues, None, None))), records, run.world)
    else if run.record.status == NeedsReview then
      Decided(Ok(Halt(Halted(ByReview, run.issues, None, None))), records, run.world)
    else
      var until := Evaluate(repeat.until, WorkflowContext(scope, e.metadata, records), e.matcher);
      match until
      case Err(code) => Decided(Err(Error(code)), records, run.world)
      case Ok(true) => Decided(Ok(Halt(Halted(ByUntil, run.issues, None, None))), records, run.world)
      case Ok(false) =>
        if attempt >= repeat.maxAttempts then
          Decided(Ok(Halt(Halted(ByExhaustion, run.issues, None, None))), records, run.world)
        else GoOn(e, flow, repeat, item, scope, run, records, depth)
  }

  // last: the repeated flow's record as it finally stands.
  datatype Loop = Loop(outcome: Result<Halted, Exn>, last: FlowRecord, records: FlowRecords, world: World)

  function Standing(run: FlowRecord, attempts: seq<FlowRecord>, status: Option<Status>,
                    stop: Option<Stop>): FlowRecord {
    run.(status := if status.Some? then status.value else run.status, attempts := attempts, stoppedBy := stop)
  }

  // Attempt after attempt of a repeated flow, routed (item None) or per item.
  function Attempts(e: Engine, flow: Flow, repeat: Repeat, item: Option<Object>, scope: Json, input: Json,
                    attempts: seq<FlowRecord>, records: FlowRecords, w: World, depth: int): Loop
    decreases LIMIT - depth, 4, repeat.maxAttempts - |attempts|, 0
  {
    if |attempts| >= repeat.maxAttempts then
      Loop(Err(Error(InvalidConfiguration)), SkippedFlow(flow), records, w)
    else
      var run := ExecuteFlow(e, flow, input, w, depth);
      var attempts' := attempts + [run.record];
      var current := run.record.(attempts := attempts');
      var decided := Decide(e, flow, repeat, item, scope, run, |attempts'|, records[flow.name := current], depth);
      Proceed(e, flow, repeat, item, scope, run.record, attempts', decided, depth)
  }

  // How the loop goes on after the decision on its last run.
  function Proceed(e: Engine, flow: Flow, repeat: Repeat, item: Option<Object>, scope: Json, run: FlowRecord,
                attempts: seq<FlowRecord>, decided: Decided, depth: int): Loop
    decreases LIMIT - depth, 4, repeat.maxAttempts - |attempts|, 1
  {
    var current := run.(attempts := attempts);
    match decided.outcome
    case Err(exn) => Loop(Err(exn), current, decided.records, decided.world)
    case Ok(Halt(halted)) =>
      var last := Standing(run, attempts, halted.status, Some(halted.stop));
      Loop(Ok(halted), last, decided.records[flow.name := last], decided.world)
    case Ok(Again(next)) =>
      Attempts(e, flow, repeat, item, scope, Obj(next), attempts, decided.records[flow.name := current],
               decided.world, depth)
  }

  // ---- Routing ----------------------------------------------------------------------------------

  datatype RouteKind = KindDirect | KindCases | KindRoute | KindReview

  datatype TransitionRecord = TransitionRecord(
    source: string, reason: Status, target: Target, kind: RouteKind,
    index: Option<nat>, selectedCase: Option<string>, selectedIssue: Option<Issue>)

  function SelectEntry(e: Engine, entries: seq<RouteEntry>, k: nat, context: Json): Result<(Target, nat), Exn>
    requires k <= |entries|
    decreases |entries| - k
  {
    if k == |entries| then Err(Error(InvalidConfiguration))
    else if entries[k].condition.None? then Ok((entries[k].target, k))
    else
      match Evaluate(entries[k].condition.value, context, e.matcher)
      case Err(code) => Err(Error(code))
      case Ok(true) => Ok((entries[k].target, k))
      case Ok(false) => SelectEntry(e, entries, k + 1, context)
  }

  function ReviewTarget(e: Engine, flow: Flow, issues: seq<Issue>, context: Json): Result<TransitionRecord, Exn> {
    var direct := TransitionRecord(flow.name, NeedsReview, ToOutcome(EndNeedsReview), KindReview, None, None, None);
    var selected :=
      match flow.onUnresolved
      case None => Ok(direct)
      case Some(ReviewDirect(target)) => Ok(direct.(target := target))
      case Some(ByIssue(default, routes)) =>
        var (target, issue) := SelectByIssue(default, routes, issues);
        Ok(direct.(target := target, selectedIssue := issue))
      case Some(ReviewConditional(entries)) =>
        match SelectEntry(e, entries, 0, context)
        case Err(exn) => Err(exn)
        case Ok((target, index)) => Ok(direct.(target := target, index := Some(index)));
    if selected.Ok? && selected.value.target == ToOutcome(EndCompleted) then Err(Error(InvalidConfiguration))
    else selected
  }

  function ForwardTarget(e: Engine, flow: Flow, context: Json): Result<TransitionRecord, Exn> {
    if flow.transition.None? then Err(Error(InvalidConfiguration))
    else
      match flow.transition.value
      case Direct(target) => Ok(TransitionRecord(flow.name, Completed, target, KindDirect, None, None, None))
      case Cases(binding, cases, default, _) =>
        (match ResolveBinding(binding, context)
         case Err(code) => Err(Error(code))
         case Ok(value) =>
           if value != Null && !value.Str? then Err(Error(InvalidInput))
           else
             var found := if value.Str? then FindCase(cases, value.s) else None;
             Ok(TransitionRecord(flow.name, Completed, if found.Some? then found.value else default, KindCases, None,
                                 if found.Some? then Some(value.s) else None, None)))
      case Conditional(entries) =>
        match SelectEntry(e, entries, 0, context)
        case Err(exn) => Err(exn)
        case Ok((target, index)) =>
          Ok(TransitionRecord(flow.name, Completed, target, KindRoute, Some(index), None, None))
  }

  function SelectTarget(e: Engine, flow: Flow, status: Status, issues: seq<Issue>, context: Json)
    : Result<TransitionRecord, Exn>
  {
    if status == NeedsReview then ReviewTarget(e, flow, issues, context) else ForwardTarget(e, flow, context)
  }

  // ---- One routed flow ------------------------------------------------------------------------------

  // What one routed flow leads to: a failed run, or the selected boundary.
  datatype Boundary = Stopped(failure: Option<Failure>) | Next(transition: TransitionRecord)

  // records and active: the invocation afterwards.
  datatype RoutedRun = RoutedRun(outcome: Result<Boundary, Exn>, records: FlowRecords, active: Option<string>,
                                 world: World)

  function Leave(e: Engine, flow: Flow, payload: Json, record: FlowRecord, failure: Option<Failure>,
                 issues: seq<Issue>, records: FlowRecords, w: World): RoutedRun {
    if record.status == Failed || failure.Some? then
      RoutedRun(Ok(Stopped(if failure.Some? then failure else record.error)), records, None, w)
    else
      match SelectTarget(e, flow, record.status, issues, WorkflowContext(payload, e.metadata, records))
      case Err(exn) => RoutedRun(Err(exn), records, None, w)
      case Ok(transition) => RoutedRun(Ok(Next(transition)), records, None, w)
  }

  function RunRouted(e: Engine, flow: Flow, payload: Json, records: FlowRecords, active: Option<string>,
                     w: World): RoutedRun {
    if e.expired(w.tick) then RoutedRun(Err(Error(RunTimeout)), records, active, w.Next())
    else
      var bound := FlowInput(e, flow.name, flow.input, WorkflowContext(payload, e.metadata, records));
      match bound
      case Err(exn) => RoutedRun(Err(exn), records, Some(flow.name), w.Next())
      case Ok(input) =>
        match flow.repeat
        case None =>
          var run := ExecuteFlow(e, flow, Obj(input), w.Next(), 0);
          Leave(e, flow, payload, run.record, None, run.issues, records[flow.name := run.record], run.world)
        case Some(repeat) =>
          var loop := Attempts(e, flow, repeat, None, payload, Obj(input), [], records, w.Next(), 0);
          match loop.outcome
          case Err(exn) => RoutedRun(Err(exn), loop.records, Some(flow.name), loop.world)
          case Ok(halted) =>
            Leave(e, flow, payload, loop.last, halted.failure, halted.issues, loop.records, loop.world)
  }

  // ---- The run -----------------------------------------------------------------------------------------

  datatype StartRecord = StartRecord(flow: string, index: Option<nat>)

  function SelectStart(e: Engine, payload: Json): Result<StartRecord, Exn> {
    match e.plan.start
    case StartFlow(flow) => Ok(StartRecord(flow, None))
    case StartRoute(entries) =>
      match SelectEntry(e, entries, 0, StartContext(payload, e.metadata))
      case Err(exn) => Err(exn)
      case Ok((ToOutcome(_), _)) => Err(Error(InvalidConfiguration))
      case Ok((ToFlow(flow), index)) => Ok(StartRecord(flow, Some(index)))
  }

  function InitialRecords(plan: Plan): FlowRecords {
    map n | n in plan.flows && (!plan.At(n).callable || n in RetryFlows(plan)) :: SkippedFlow(plan.At(n))
  }

  // Ok: the run's status and error when the loop ends without an exception.
  datatype Drive = Drive(outcome: Result<(Status, Option<Failure>), Exn>, records: FlowRecords,
                         active: Option<string>, transitions: seq<TransitionRecord>, world: World)

  function DispositionStatus(outcome: Disposition): Status {
    if outcome == EndCompleted then Completed else NeedsReview
  }

  function DriveFrom(e: Engine, payload: Json, current: string, visited: set<string>, records: FlowRecords,
                     transitions: seq<TransitionRecord>, w: World): Drive
    decreases if |visited| < |e.plan.order| then |e.plan.order| - |visited| else 0
  {
    if e.expired(w.tick) then Drive(Err(Error(RunTimeout)), records, None, transitions, w.Next())
    else if current in visited || |visited| >= |e.plan.order| || current !in e.plan.flows
            || e.plan.At(current).callable then
      Drive(Err(Error(InvalidConfiguration)), records, None, transitions, w.Next())
    else
      var routed := RunRouted(e, e.plan.At(current), payload, records, None, w.Next());
      match routed.outcome
      case Err(exn) => Drive(Err(exn), routed.records, routed.active, transitions, routed.world)
      case Ok(Stopped(failure)) => Drive(Ok((Failed, failure)), routed.records, None, transitions, routed.world)
      case Ok(Next(transition)) =>
        match transition.target
        case ToOutcome(outcome) =>
          Drive(Ok((DispositionStatus(outcome), None)), routed.records, None, transitions + [transition], routed.world)
        case ToFlow(next) =>
          DriveFrom(e, payload, next, visited + {current}, routed.records, transitions + [transition], routed.world)
  }

  // The drive enters this flow.
  predicate Enters(e: Engine, current: string, visited: set<string>, w: World) {
    && !e.expired(w.tick) && current !in visited && |visited| < |e.plan.order|
    && current in e.plan.flows && !e.plan.At(current).callable
  }

  // The flow a routed flow leads to.
  function Following(routed: RoutedRun): Option<string> {
    match routed.outcome
    case Ok(Next(transition)) => if transition.target.ToFlow? then Some(transition.target.flow) else None
    case _ => None
  }

  lemma DriveGoesOn(e: Engine, payload: Json, current: string, visited: set<string>, records: FlowRecords,
                    ts: seq<TransitionRecord>, w: World, routed: RoutedRun, t: TransitionRecord, next: string)
    requires Enters(e, current, visited, w)
    requires routed == RunRouted(e, e.plan.At(current), payload, records, None, w.Next())
    requires routed.outcome == Ok(Next(t)) && t.target == ToFlow(next)
    ensures DriveFrom(e, payload, current, visited, records, ts, w)
            == DriveFrom(e, payload, next, visited + {current}, routed.records, ts + [t], routed.world)
  {
  }

  datatype RunResult = RunResult(
    status: Status,
    payload: Json,
    records: FlowRecords,
    usage: Usage,
    error: Option<Failure>,
    transitions: seq<TransitionRecord>,
    start: Option<StartRecord>,
    world: World)

  // The measured usage of all workflow-level records, in plan order.
  function RecordedUsage(order: seq<string>, records: FlowRecords): seq<Usage> {
    if order == [] then []
    else
      var last := order[|order| - 1];
      RecordedUsage(order[..|order| - 1], records)
      + if last in records && records[last].TotalUsage().Some? then [records[last].TotalUsage().value] else []
  }

  // An exception that reached the run: the active flow is recorded as failed.
  function Crash(e: Engine, payload: Json, exn: Exn, records: FlowRecords, active: Option<string>,
                 transitions: seq<TransitionRecord>, start: Option<StartRecord>, w: World): RunResult {
    var (failure, w') := RecordFailure(e, exn, w);
    var records' :=
      if active.None? || active.value !in records || active.value !in e.plan.flows then records
      else
        var previous := records[active.value].attempts;
        records[active.value :=
          FlowRecord(Failed, SkippedSteps(e.plan.At(active.value).steps), None, Some(NO_USAGE), Some(failure),
                     previous, if previous == [] then None else Some(ByFailure))];
    RunResult(Failed, payload, records', Total(RecordedUsage(e.plan.order, records')), Some(failure), transitions,
              start, w')
  }

  // The end of a run without an exception: workflow output, then a last look at the clock.
  function Finish(e: Engine, payload: Json, status: Status, error: Option<Failure>, records: FlowRecords,
                  transitions: seq<TransitionRecord>, start: StartRecord, w: World): RunResult {
    var output := if status != Failed && e.plan.output.Some?
                  then ResolveBinding(e.plan.output.value, WorkflowContext(payload, e.metadata, records))
                  else Ok(payload);
    match output
    case Err(code) => Crash(e, payload, Error(code), records, None, transitions, Some(start), w)
    case Ok(value) =>
      if e.expired(w.tick) then Crash(e, payload, Error(RunTimeout), records, None, transitions, Some(start), w.Next())
      else
        RunResult(status, value, records, Total(RecordedUsage(e.plan.order, records)), error, transitions,
                  Some(start), w.Next())
  }

  function Run(e: Engine, payload: Json, w: World): RunResult {
    var records := InitialRecords(e.plan);
    match SelectStart(e, payload)
    case Err(exn) => Crash(e, payload, exn, records, None, [], None, w)
    case Ok(start) =>
      var d := DriveFrom(e, payload, start.flow, {}, records, [], w);
      match d.outcome
      case Err(exn) => Crash(e, payload, exn, d.records, d.active, d.transitions, Some(start), d.world)
      case Ok((status, error)) => Finish(e, payload, status, error, d.records, d.transitions, start, d.world)
  }
}
