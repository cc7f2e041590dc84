/**
 Runs of towers: one operation per flow, collections of one item, and items that are retried
 once, in an environment that completes every call.
 */
module TowerRuns {
  import opened Foundations
  import opened Json
  import opened Bindings
  import opened Conditions
  import opened Plans
  import opened Accounting
  import opened Records
  import opened Engine
  import opened RecordDepth
  import opened TowerPlans

  // ---- An environment of deep results ------------------------------------------------------------

  const DEEPEST := Nest(MAX_JSON_DEPTH)
  // One tool call.
  const USED := Usage(0, 1, ZERO_TOKENS, map[], 0)
  const BUDGET: nat := 100

  // Every executor call completes with a result of the greatest depth; flows take no input.
  function TowerEngine(until: Condition, top: int): Engine {
    Engine(TowerPlan(until, top), BUDGET, map[], _ => false,
           (_, _, _) => Execution(Returned(StepOutcome(DEEPEST, false, None, [])), USED),
           (_, inputs) => if inputs == map[] then None else Some(Error(ErrorCode.InvalidInput)), (_, _) => false)
  }

  // What the climb uses of it.
  ghost predicate Scaling(e: Engine, until: Condition, top: int) {
    && e.plan == TowerPlan(until, top) && e.maxSteps == BUDGET
    && (forall tick {:trigger e.expired(tick)} :: !e.expired(tick))
    && (forall tick, step, inputs {:trigger e.execute(tick, step, inputs)} ::
          e.execute(tick, step, inputs) == Execution(Returned(StepOutcome(DEEPEST, false, None, [])), USED))
    && forall name {:trigger e.validate(name, map[])} :: e.validate(name, map[]) == None
  }

  lemma TowerScales(until: Condition, top: int)
    ensures Scaling(TowerEngine(until, top), until, top)
  {
  }

  const DEEP_STEP := StepRecord(Completed, Some(DEEPEST), None, Some(USED), None, None, false)

  // The progress after an operation that completes.
  function Operated(p: Progress): Progress {
    Progress(p.steps["s" := DEEP_STEP], p.usage.Plus(USED),
             World(p.world.tick + 3, p.world.consumed + 1, p.world.spent + [USED]))
  }

  lemma OperationRuns(e: Engine, until: Condition, top: int, payload: Json, p: Progress, depth: int)
    requires p.world.consumed < BUDGET
    requires Scaling(e, until, top)
    ensures RunStep(e, Operation("s", None, Handler, []), payload, p, depth)
            == Ran(DEEP_STEP, [], Operated(p))
  {
    var step := Operation("s", None, Handler, []);
    var p1 := p.(world := p.world.Next());
    var p2 := p1.(world := p1.world.(consumed := p1.world.consumed + 1));
    NestDepth(MAX_JSON_DEPTH, MAX_JSON_DEPTH);
    assert RunStep(e, step, payload, p, depth) == EnterStep(e, step, payload, p1, depth);
    assert ResolveAll(step.Arguments(), Context(e, payload, p1)) == Ok(map[]);
    assert EnterStep(e, step, payload, p1, depth) == RunOperation(e, step, map[], p2);
  }

  predicate Plainly(run: FlowRun) {
    run.record.status == Completed && run.issues == []
  }

  function Started(flow: Flow, w: World): Progress {
    Progress(SkippedSteps(flow.steps), NO_USAGE, w)
  }

  // A flow of one operation delivers its payload.
  lemma OperationFlowRuns(e: Engine, until: Condition, top: int, j: int, payload: Json, w: World, depth: int)
    requires 1 <= j <= top && TowerStep(j).Operation? && w.consumed < BUDGET
    requires Scaling(e, until, top)
    ensures var run := ExecuteFlow(e, TowerFlow(until, top, j), payload, w, depth);
            && Plainly(run) && run.record.attempts == [] && StepAt(run.record.steps, "s") == DEEP_STEP
            && run.record.result == Some(payload)
            && run.world.consumed == w.consumed + 1 && run.world.spent == w.spent + [USED]
  {
    var flow := TowerFlow(until, top, j);
    var p := Started(flow, w);
    OperationRuns(e, until, top, payload, p, depth);
    assert ExecuteFlow(e, flow, payload, w, depth) == RunSteps(e, flow, payload, 0, p, depth);
    assert RunSteps(e, flow, payload, 0, p, depth) == RunSteps(e, flow, payload, 1, Operated(p), depth);
    assert RunSteps(e, flow, payload, 1, Operated(p), depth) == Project(e, flow, payload, Operated(p), Completed, []);
  }

  // ---- Flows of one step -----------------------------------------------------------------------

  // A completed run without output.
  function Ends(payload: Json, p: Progress): FlowRun {
    FlowRun(FlowRecord(Completed, p.steps, Some(payload), Some(p.usage), None, [], None), [], p.world)
  }

  // A flow of one step that completes and no output.
  lemma OneStepRuns(e: Engine, flow: Flow, step: Step, payload: Json, p: Progress, depth: int, ran: StepRun)
    requires flow.steps == [step] && flow.output.None? && p == Started(flow, p.world)
    requires ran == RunStep(e, step, payload, p, depth) && ran.Ran? && ran.record.status == Completed
    ensures ExecuteFlow(e, flow, payload, p.world, depth)
            == Ends(payload, ran.progress)
  {
    assert ExecuteFlow(e, flow, payload, p.world, depth) == RunSteps(e, flow, payload, 0, p, depth);
    assert RunSteps(e, flow, payload, 0, p, depth) == RunSteps(e, flow, payload, 1, ran.progress, depth);
    assert RunSteps(e, flow, payload, 1, ran.progress, depth) == Project(e, flow, payload, ran.progress, Completed, []);
  }

  // A collection over one literal list.
  predicate Listing(step: Step, raw: seq<Json>) {
    && step.Collection? && step.name == "s" && step.guard.None?
       && step.Arguments() == [Named("items", Literal(Arr(raw)))]
    && |raw| <= step.Capacity() && Fits(Arr(raw), 0, MAX_JSON_DEPTH)
  }

  lemma ListingBound(step: Step, raw: seq<Json>, context: Json)
    requires Listing(step, raw)
    ensures ResolveAll(step.Arguments(), context) == Ok(map["items" := Arr(raw)])
  {
    assert step.Arguments() == [Named("items", Literal(Arr(raw)))];
    assert ResolveBinding(Literal(Arr(raw)), context) == Ok(Arr(raw));
    assert ResolveFrom(step.Arguments(), 1, map["items" := Arr(raw)], context) == Ok(map["items" := Arr(raw)]);
  }

  // The world after a step was counted.
  function Counted(w: World): World {
    World(w.tick + 1, w.consumed + 1, w.spent)
  }

  lemma CollectionEntered(e: Engine, step: Step, raw: seq<Json>, payload: Json, p: Progress, depth: int)
    requires Listing(step, raw) && p.world.consumed < e.maxSteps && !e.expired(p.world.tick)
    ensures RunStep(e, step, payload, p, depth)
            == RunCollection(e, step, map["items" := Arr(raw)], p.(world := Counted(p.world)), depth)
  {
    var p1 := p.(world := p.world.Next());
    ListingBound(step, raw, Context(e, payload, p1));
    assert RunStep(e, step, payload, p, depth) == EnterStep(e, step, payload, p1, depth);
  }

  // ---- A collection of one item -----------------------------------------------------------------

  // The whole batch is one item that passes the check.
  predicate Passes(e: Engine, step: Step, raw: seq<Json>, item: Item, w: World) {
    CheckItems(e, step, raw, [], {}, w) == (Ok([item]), w.Next())
  }

  // What the item's run comes to.
  predicate ItemEnds(e: Engine, item: Item, w: World, depth: int, outcome: Result<ItemDone, Exn>, w': World) {
    RunItem(e, e.plan.At(item.flow), item.payload, w, depth) == ItemRun(outcome, w')
  }

  // The batch of one completed item.
  function OneBatch(item: Item, done: ItemDone): Batch {
    Batch([Entry(item, done.record, done.retry)], AddRun(AddRun(NO_USAGE, Some(done.record)), done.retry), Completed,
          None)
  }

  // The progress after its collection.
  function Collecting(p: Progress, batch: Batch, w: World): Progress {
    Progress(p.steps["s" := CollectionRecord(batch)], p.usage.Plus(batch.usage), w)
  }

  // A flow of one such collection.
  lemma OneItemFlowRuns(e: Engine, flow: Flow, step: Step, raw: seq<Json>, item: Item, payload: Json, p: Progress,
                        depth: int, done: ItemDone, w': World)
    requires flow.steps == [step] && flow.output.None? && p == Started(flow, p.world)
    requires Listing(step, raw) && depth < LIMIT && p.world.consumed < e.maxSteps && !e.expired(p.world.tick)
    requires Passes(e, step, raw, item, Counted(p.world))
    requires ItemEnds(e, item, Counted(p.world).Next(), depth + 1, Ok(done), w')
    requires done.record.status == Completed && done.failure.None?
    ensures ExecuteFlow(e, flow, payload, p.world, depth)
            == Ends(payload, Collecting(p, OneBatch(item, done), w'))
  {
    var p' := p.(world := Counted(p.world));
    CollectionEntered(e, step, raw, payload, p, depth);
    var empty, batch := EmptyBatch(e.plan, [item]), OneBatch(item, done);
    assert Entered(empty, 0, done).entries == batch.entries;
    assert RunItems(e, 0, empty, p'.world.Next(), depth + 1) == RunItems(e, 1, batch, w', depth + 1);
    BatchRuns(e, step, map["items" := Arr(raw)], p'.world, depth, [item], p'.world.Next());
    OneStepRuns(e, flow, step, payload, p, depth, RunCollection(e, step, map["items" := Arr(raw)], p', depth));
  }

  function ItemList(j: int): seq<Json> {
    [ItemValue(0, TowerName(j))]
  }

  function TowerItem(j: int): Item {
    Item("a", TowerName(j), map[])
  }

  lemma OneItemPasses(e: Engine, until: Condition, top: int, k: int, w: World)
    requires k > 0 && 2 * k + 1 <= top && Odd(top)
    requires Scaling(e, until, top)
    ensures Passes(e, TowerStep(2 * k + 1), ItemList(2 * k), TowerItem(2 * k), w)
  {
    var step, raw := TowerStep(2 * k + 1), ItemList(2 * k);
    var item := TowerItem(2 * k);
    assert ItemName(0) == "a";
    ItemNames(0, 0);
    TowerAt(until, top, 2 * k);
    assert raw[0] == ItemValue(0, TowerName(2 * k));
    assert ReadItem(step, raw[0], {}) == Some(item);
    assert CallableFlow(e.plan, item.flow) == Some(TowerFlow(until, top, 2 * k));
    assert e.validate(item.flow, item.payload) == None;
    assert CheckItems(e, step, raw, [] + [item], {} + {item.id}, w.Next()) == (Ok([] + [item]), w.Next());
    assert [] + [item] == [item];
  }

  lemma TowerLists(k: int)
    requires k > 0
    ensures TowerStep(2 * k + 1).Collection? && Listing(TowerStep(2 * k + 1), ItemList(2 * k))
  {
    ItemsFit(2 * k);
  }

  // ---- One retried item ----------------------------------------------------------------------------

  // A repeat that always goes on to a second attempt through its retry flow, on any engine
  // that lets it.
  ghost predicate Retries(e: Engine, flow: Flow, repeat: Repeat, retry: Flow) {
    && flow.repeat == Some(repeat) && repeat == Repeat(2, NEVER, Some(retry.name), [], None, [])
    && retry.name != flow.name && retry.name in e.plan.flows && e.plan.At(retry.name) == retry
    && (forall tick {:trigger e.expired(tick)} :: !e.expired(tick))
    && forall name {:trigger e.validate(name, map[])} :: e.validate(name, map[]) == None
  }

  lemma NothingBound(e: Engine, flow: Flow, repeat: Repeat, context: Json)
    requires repeat.retryInput == [] && e.validate(flow.name, map[]) == None
    ensures ResolveAll([], context) == Ok(map[])
    ensures NextInput(e, flow, repeat, Some(map[]), context) == Ok(map[])
  {
    var nothing: Object := map[];
    assert nothing + nothing == nothing;
    assert ResolveAll([], context) == Ok(map[]);
  }

  // One turn that goes on.
  lemma TurnsAgain(e: Engine, flow: Flow, repeat: Repeat, item: Option<Object>, scope: Json, input: Json,
                   attempts: seq<FlowRecord>, records: FlowRecords, w: World, depth: int, run: FlowRun,
                   attempts': seq<FlowRecord>, current: FlowRecord, decided: Decided, next: Object)
    requires |attempts| < repeat.maxAttempts && run == ExecuteFlow(e, flow, input, w, depth)
    requires attempts' == attempts + [run.record] && current == run.record.(attempts := attempts')
    requires decided == Decide(e, flow, repeat, item, scope, run, |attempts'|, records[flow.name := current], depth)
    requires decided.outcome == Ok(Again(next))
    ensures Attempts(e, flow, repeat, item, scope, input, attempts, records, w, depth)
            == Attempts(e, flow, repeat, item, scope, Obj(next), attempts', decided.records[flow.name := current],
                        decided.world, depth)
  {
  }

  // The turn that ends the repeat.
  lemma TurnsLast(e: Engine, flow: Flow, repeat: Repeat, item: Option<Object>, scope: Json, input: Json,
                  attempts: seq<FlowRecord>, records: FlowRecords, w: World, depth: int, run: FlowRun,
                  attempts': seq<FlowRecord>, last: FlowRecord, decided: Decided, halted: Halted)
    requires |attempts| < repeat.maxAttempts && run == ExecuteFlow(e, flow, input, w, depth)
    requires attempts' == attempts + [run.record]
    requires decided == Decide(e, flow, repeat, item, scope, run, |attempts'|,
                               records[flow.name := run.record.(attempts := attempts')], depth)
    requires decided.outcome == Ok(Halt(halted))
    requires last == Standing(run.record, attempts', halted.status, Some(halted.stop))
    ensures Attempts(e, flow, repeat, item, scope, input, attempts, records, w, depth)
            == Loop(Ok(halted), last, decided.records[flow.name := last], decided.world)
  {
  }

  // The three runs of a retried item make its record and its retry record.
  lemma RetriedItem(e: Engine, flow: Flow, repeat: Repeat, retry: Flow, w: World, depth: int,
                    first: FlowRun, again: FlowRun, second: FlowRun, last: FlowRecord)
    requires Retries(e, flow, repeat, retry) && Plainly(first) && Plainly(second)
    requires first == ExecuteFlow(e, flow, Obj(map[]), w, depth)
    requires again == ExecuteFlow(e, retry, Obj(map[]), first.world, depth) && again.record.status == Completed
    requires second == ExecuteFlow(e, flow, Obj(map[]), again.world.Next(), depth)
    requires last == Standing(second.record, [first.record, second.record], None, Some(ByExhaustion))
    ensures RunItem(e, flow, map[], w, depth)
            == ItemRun(Ok(ItemDone(last, Some(RetryRecord(again.record, [])), None)), second.world)
  {
    var scope, item := Obj(map[]), Some(map[]);
    var records0: FlowRecords := map[];
    var current := first.record.(attempts := [first.record]);
    var records1 := records0[flow.name := current];
    var records2 := records1[retry.name := RetryRecord(again.record, [])];
    NothingBound(e, retry, repeat, WorkflowContext(Obj(map[]), e.metadata, records1));
    NothingBound(e, flow, repeat, WorkflowContext(Obj(map[]), e.metadata, records2));
    assert RunRetry(e, flow, repeat, retry, Some(map[]), Obj(map[]), [], records1, first.world, depth)
        == AfterRetry(e, flow, repeat, retry, Some(map[]), Obj(map[]), [], records1, again);
    assert Prepare(e, flow, repeat, Some(map[]), Obj(map[]), [], records2, again.world)
        == Decided(Ok(Again(map[])), records2, again.world.Next());
    assert Evaluate(NEVER, WorkflowContext(Obj(map[]), e.metadata, records1), e.matcher) == Ok(false);
    assert Decide(e, flow, repeat, Some(map[]), Obj(map[]), first, 1, records1, depth)
        == RunRetry(e, flow, repeat, retry, Some(map[]), Obj(map[]), [], records1, first.world, depth);
    TurnsAgain(e, flow, repeat, item, scope, scope, [], records0, w, depth, first, [first.record], current,
               Decided(Ok(Again(map[])), records2, again.world.Next()), map[]);
    var records3 := records2[flow.name := current];
    var attempts := [first.record, second.record];
    var records4 := records3[flow.name := second.record.(attempts := attempts)];
    var halted := Halted(ByExhaustion, [], None, None);
    assert Evaluate(NEVER, WorkflowContext(Obj(map[]), e.metadata, records4), e.matcher) == Ok(false);
    TurnsLast(e, flow, repeat, item, scope, scope, [first.record], records3, again.world.Next(), depth, second,
              attempts, last, Decided(Ok(Halt(halted)), records4, second.world), halted);
  }

  // ---- The run ------------------------------------------------------------------------------------

  const OPENING := World(0, 0, [])

  // A flow without input, output, repeat and review route that completes the run.
  predicate Sole(flow: Flow) {
    && flow.input == [] && flow.repeat.None? && !flow.callable
    && flow.transition == Some(Direct(ToOutcome(EndCompleted)))
  }

  // Such a start flow's run is the whole run.
  lemma SoleRuns(e: Engine, name: string, flow: Flow, w: World, run: FlowRun)
    requires e.plan.start == StartFlow(name) && name in e.plan.flows && e.plan.At(name) == flow && flow.name == name
    requires Sole(flow) && e.plan.order != [] && e.plan.output.None?
    requires forall tick {:trigger e.expired(tick)} :: !e.expired(tick)
    requires e.validate(name, map[]) == None
    requires run == ExecuteFlow(e, flow, Obj(map[]), w.Next().Next(), 0)
    ensures run.record.status == Completed ==>
              var r := Run(e, Obj(map[]), w);
              && r.status == Completed && r.error.None? && r.world.spent == run.world.spent
              && r.records == InitialRecords(e.plan)[name := run.record]
    ensures run.record.status == Failed ==>
              var r := Run(e, Obj(map[]), w);
              && r.status == Failed && r.error == run.record.error && r.world.spent == run.world.spent
              && r.records == InitialRecords(e.plan)[name := run.record]
              && r.usage == Total(RecordedUsage(e.plan.order, r.records))
  {
    var payload, records := Obj(map[]), InitialRecords(e.plan);
    var bound := FlowInput(e, name, [], WorkflowContext(payload, e.metadata, records));
    assert ResolveAll([], WorkflowContext(payload, e.metadata, records)) == Ok(map[]);
    var routed := RunRouted(e, flow, payload, records, None, w.Next());
    assert routed == Leave(e, flow, payload, run.record, None, run.issues, records[name := run.record], run.world);
    var d := DriveFrom(e, payload, name, {}, records, [], w);
    if run.record.status == Completed {
      var transition := TransitionRecord(name, Completed, ToOutcome(EndCompleted), KindDirect, None, None, None);
      assert routed.outcome == Ok(Next(transition));
      assert d == Drive(Ok((Completed, None)), routed.records, None, [] + [transition], routed.world);
    } else if run.record.status == Failed {
      assert d == Drive(Ok((Failed, run.record.error)), routed.records, None, [], routed.world);
    }
  }
}
