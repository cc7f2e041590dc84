/**
 The worst-case step count is attained.  Any accepted plan can be filled up: same flows,
 calls, attempts and item limits, but no guards, full item lists for the dearest target and
 repeats that never end early.  With an executor that always completes, one invocation of
 a flow of the filled plan consumes exactly the bound the compiler computed for the plan.
 */
module Tightness {
  import opened Foundations
  import opened Json
  import opened Bindings
  import opened Overrides
  import opened Conditions
  import opened Plans
  import opened Accounting
  import opened Records
  import opened Engine
  import opened Acceptance
  import opened Budget

  // ---- Filling a plan -----------------------------------------------------------------------

  // The first target whose worst case is the largest from position j on.
  ghost function DearestFrom(plan: Plan, rank: map<string, nat>, name: string, k: nat, j: nat): string
    decreases |plan.At(name).Step(k).Targets()| - j
  {
    var flows := plan.At(name).Step(k).Targets();
    if j >= |flows| then ""
    else if j + 1 == |flows| || Worst(plan, rank, flows[j]) > ChildWorst(plan, rank, name, k, j + 1) then flows[j]
    else DearestFrom(plan, rank, name, k, j + 1)
  }

  ghost function Dearest(plan: Plan, rank: map<string, nat>, name: string, k: nat): string {
    DearestFrom(plan, rank, name, k, 0)
  }

  lemma {:induction false} DearestWorst(plan: Plan, rank: map<string, nat>, name: string, k: nat, j: nat)
    requires Graded(plan, rank) && name in plan.flows && j < |plan.At(name).Step(k).Targets()|
    ensures var flow := DearestFrom(plan, rank, name, k, j);
            CallsAt(plan, name, k, flow) && Worst(plan, rank, flow) == ChildWorst(plan, rank, name, k, j)
    decreases |plan.At(name).Step(k).Targets()| - j
  {
    var flows := plan.At(name).Step(k).Targets();
    assert CallsAt(plan, name, k, flows[j]);
    if j + 1 < |flows| {
      DearestWorst(plan, rank, name, k, j + 1);
    }
  }

  function ItemValues(count: nat, flow: string): seq<Json> {
    seq(count, k requires 0 <= k < count => ItemValue(k, flow))
  }

  ghost function FullStep(plan: Plan, rank: map<string, nat>, name: string, k: nat): Step {
    match plan.At(name).Step(k)
    case Operation(id, _, kind, _) => Operation(id, None, kind, [])
    case Collection(id, _, _, flows, maxItems) =>
      Collection(id, None, Literal(Arr(if flows == [] then [] else ItemValues(maxItems, Dearest(plan, rank, name, k)))),
                 flows, maxItems)
  }

  ghost function FullSteps(plan: Plan, rank: map<string, nat>, name: string): seq<Step> {
    seq(|plan.At(name).steps|, k requires 0 <= k < |plan.At(name).steps| => FullStep(plan, rank, name, k))
  }

  function FullRepeat(repeat: Option<Repeat>): Option<Repeat> {
    match repeat
    case None => None
    case Some(r) => Some(Repeat(r.maxAttempts, NEVER, r.retryFlow, [], None, []))
  }

  ghost function FullFlow(plan: Plan, rank: map<string, nat>, name: string): Flow {
    var flow := plan.At(name);
    flow.(input := [], steps := FullSteps(plan, rank, name), output := None, repeat := FullRepeat(flow.repeat))
  }

  ghost function FullPlan(plan: Plan, rank: map<string, nat>): Plan {
    plan.(flows := map n | n in plan.flows :: FullFlow(plan, rank, n), output := None)
  }

  // ---- An environment that never stops a run -------------------------------------------------

  const PLAIN := StepOutcome(Obj(map[]), false, None, [])

  ghost predicate Generous(e: Engine) {
    && (forall tick {:trigger e.expired(tick)} :: !e.expired(tick))
    && (forall tick, step, inputs {:trigger e.execute(tick, step, inputs)} ::
          e.execute(tick, step, inputs) == Execution(Returned(PLAIN), NO_USAGE))
    && forall name, inputs {:trigger e.validate(name, inputs)} :: e.validate(name, inputs).None?
  }

  function GenerousEngine(plan: Plan, maxSteps: nat): Engine {
    Engine(plan, maxSteps, map[], _ => false, (_, _, _) => Execution(Returned(PLAIN), NO_USAGE), (_, _) => None,
           (_, _) => false)
  }

  // A filled plan in a generous environment; what is used of the plan's acceptance.
  ghost predicate Full(e: Engine, plan: Plan, rank: map<string, nat>, depths: map<string, nat>) {
    && Generous(e) && Graded(plan, rank)
    && (forall n {:trigger Filled(e, plan, rank, depths, n)} | n in plan.flows :: Filled(e, plan, rank, depths, n))
    && (forall a, k, n {:trigger CallsAt(plan, a, k, n)} | CallsAt(plan, a, k, n) ::
          plan.At(n).callable && NestsBelow(depths, n, a, 1))
    && forall a, n {:trigger HasRetry(plan, a, n)} | HasRetry(plan, a, n) :: NestsBelow(depths, n, a, 0)
  }

  predicate NestsBelow(depths: map<string, nat>, n: string, a: string, levels: int) {
    n in depths && a in depths && depths[n] + levels <= depths[a]
  }

  predicate AllCall(steps: seq<Step>) {
    forall step | step in steps :: step.Collection? ==> step.flows != []
  }

  ghost predicate Filled(e: Engine, plan: Plan, rank: map<string, nat>, depths: map<string, nat>, n: string) {
    && n in plan.flows && n in depths && n in e.plan.flows && e.plan.At(n) == FullFlow(plan, rank, n)
    && AllCall(plan.At(n).steps) && (plan.At(n).repeat.None? || plan.At(n).Repeating().maxAttempts > 0)
  }

  // The invocation fits the budget and the nesting limit.
  ghost predicate Room(e: Engine, depths: map<string, nat>, name: string, w: World, amount: int, depth: int) {
    name in e.plan.flows && name in depths && depth + depths[name] <= LIMIT && w.consumed + amount <= e.maxSteps
  }

  // ---- One mutual induction --------------------------------------------------------------------

  lemma {:induction false} FlowSpends(e: Engine, plan: Plan, rank: map<string, nat>, depths: map<string, nat>,
                                      name: string, payload: Json, w: World, depth: int)
    requires Full(e, plan, rank, depths) && Filled(e, plan, rank, depths, name)
    requires Room(e, depths, name, w, FlowWorst(plan, rank, name), depth)
    ensures var run := ExecuteFlow(e, e.plan.At(name), payload, w, depth);
            run.record.status == Completed && run.world.consumed == w.consumed + FlowWorst(plan, rank, name)
    decreases LIMIT - depth, 2, |plan.At(name).steps| + 1
  {
    StepsSpend(e, plan, rank, depths, name, payload, 0, Progress(SkippedSteps(e.plan.At(name).steps), NO_USAGE, w),
               depth);
  }

  lemma {:induction false} StepsSpend(e: Engine, plan: Plan, rank: map<string, nat>, depths: map<string, nat>,
                                      name: string, payload: Json, k: nat, p: Progress, depth: int)
    requires Full(e, plan, rank, depths) && Filled(e, plan, rank, depths, name)
    requires Room(e, depths, name, p.world, Own(plan, rank, name, k), depth)
    ensures var run := RunSteps(e, e.plan.At(name), payload, k, p, depth);
            run.record.status == Completed && run.world.consumed == p.world.consumed + Own(plan, rank, name, k)
    decreases LIMIT - depth, 2, |plan.At(name).steps| - k
  {
    if k < |plan.At(name).steps| {
      StepSpends(e, plan, rank, depths, name, payload, k, p, depth);
      var run := RunStep(e, e.plan.At(name).Step(k), payload, p, depth);
      StepsSpend(e, plan, rank, depths, name, payload, k + 1, run.progress, depth);
    }
  }

  ghost predicate StepSpent(run: StepRun, w: World, amount: int) {
    match run
    case Ran(record, _, p) => record.status == Completed && p.world.consumed == w.consumed + amount
    case _ => false
  }

  lemma {:induction false} StepSpends(e: Engine, plan: Plan, rank: map<string, nat>, depths: map<string, nat>,
                                      name: string, payload: Json, k: nat, p: Progress, depth: int)
    requires Full(e, plan, rank, depths) && Filled(e, plan, rank, depths, name)
    requires k < |plan.At(name).steps|
    requires Room(e, depths, name, p.world, StepWorst(plan, rank, name, k), depth)
    ensures StepSpent(RunStep(e, e.plan.At(name).Step(k), payload, p, depth), p.world,
                      StepWorst(plan, rank, name, k))
    decreases LIMIT - depth, 1, 0
  {
    var step := e.plan.At(name).Step(k);
    assert step == FullStep(plan, rank, name, k);
    var p2 := Stepped(p);
    var context := Context(e, payload, p);
    if step.Operation? {
      assert ResolveAll(step.Arguments(), context) == Ok(map[]);
      StepEnters(e, step, payload, p, map[], depth);
      OperationSpends(e, step, map[], p2);
    } else {
      var full, raw := FullStep(plan, rank, name, k), FullItems(plan, rank, name, k);
      forall i | 0 <= i < |raw| ensures Fits(raw[i], 1, MAX_JSON_DEPTH) {
        ValueFits(i, Dearest(plan, rank, name, k));
      }
      assert full.Arguments() == [Named("items", Literal(Arr(raw)))];
      assert ResolveBinding(Literal(Arr(raw)), context) == Ok(Arr(raw));
      assert ResolveFrom(full.Arguments(), 1, map["items" := Arr(raw)], context) == Ok(ItemsInput(raw));
      StepEnters(e, step, payload, p, ItemsInput(FullItems(plan, rank, name, k)), depth);
      CollectionSpends(e, plan, rank, depths, name, k, p2, depth);
    }
  }

  // The progress in which an entered step runs.
  function Stepped(p: Progress): Progress {
    p.(world := World(p.world.tick + 1, p.world.consumed + 1, p.world.spent))
  }

  lemma StepEnters(e: Engine, step: Step, payload: Json, p: Progress, inputs: Object, depth: int)
    requires Generous(e) && step.guard.None? && p.world.consumed < e.maxSteps
    requires ResolveAll(step.Arguments(), Context(e, payload, p)) == Ok(inputs)
    ensures RunStep(e, step, payload, p, depth)
            == if step.Collection? then RunCollection(e, step, inputs, Stepped(p), depth)
               else RunOperation(e, step, inputs, Stepped(p))
  {
    var p1 := p.(world := p.world.Next());
    assert RunStep(e, step, payload, p, depth) == EnterStep(e, step, payload, p1, depth);
    EnterRuns(e, step, payload, p1, Stepped(p), inputs, depth);
  }

  lemma OperationSpends(e: Engine, step: Step, inputs: Object, p: Progress)
    requires Generous(e) && step.Operation?
    ensures StepSpent(RunOperation(e, step, inputs, p), p.world, 0)
  {
    assert ValidOutcome(PLAIN, step) && Fits(PLAIN.result, 0, MAX_JSON_DEPTH);
  }

  function ItemsInput(raw: seq<Json>): Object {
    map["items" := Arr(raw)]
  }

  // The items a filled collection binds.
  ghost function FullItems(plan: Plan, rank: map<string, nat>, name: string, k: nat): seq<Json> {
    ItemValues(plan.At(name).Step(k).Capacity(), Dearest(plan, rank, name, k))
  }

  // ---- Collections -----------------------------------------------------------------------------

  lemma {:induction false} CollectionSpends(e: Engine, plan: Plan, rank: map<string, nat>, depths: map<string, nat>,
                                            name: string, k: nat, p: Progress, depth: int)
    requires Full(e, plan, rank, depths) && Filled(e, plan, rank, depths, name)
    requires k < |plan.At(name).steps|
    requires plan.At(name).Step(k).Targets() != []
    requires Room(e, depths, name, p.world, StepWorst(plan, rank, name, k) - 1, depth)
    ensures depth < LIMIT
    ensures StepSpent(RunCollection(e, FullStep(plan, rank, name, k), ItemsInput(FullItems(plan, rank, name, k)), p,
                                    depth), p.world, StepWorst(plan, rank, name, k) - 1)
    decreases LIMIT - depth, 0, 0
  {
    var step, flow := FullStep(plan, rank, name, k), Dearest(plan, rank, name, k);
    var amount := Worst(plan, rank, flow);
    DearestWorst(plan, rank, name, k, 0);
    assert StepWorst(plan, rank, name, k) == 1 + Times(step.Capacity(), amount);
    assert Filled(e, plan, rank, depths, flow);
    forall payload, w: World {:trigger RunItem(e, e.plan.At(flow), payload, w, depth + 1)} | w.consumed
        + amount <= e.maxSteps
      ensures ItemSpent(RunItem(e, e.plan.At(flow), payload, w, depth + 1), w, amount)
    {
      ItemSpends(e, plan, rank, depths, flow, payload, w, depth + 1);
    }
    BatchSpends(e, step, flow, p, depth, amount);
  }

  lemma BatchSpends(e: Engine, step: Step, flow: string, p: Progress, depth: int, amount: nat)
    requires Generous(e) && flow in step.Targets() && CallableFlow(e.plan, flow).Some?
    requires depth < LIMIT && EachSpends(e, flow, depth + 1, amount)
    requires p.world.consumed + Times(step.Capacity(), amount) <= e.maxSteps
    ensures StepSpent(RunCollection(e, step, ItemsInput(ItemValues(step.Capacity(), flow)), p, depth), p.world,
                      Times(step.Capacity(), amount))
  {
    var raw := ItemValues(step.Capacity(), flow);
    ItemsPass(e, step, flow, [], {}, p.world);
    var (checked, w1) := CheckItems(e, step, raw, [], {}, p.world);
    BatchRuns(e, step, ItemsInput(raw), p.world, depth, checked.value, w1);
    ItemsSpend(e, flow, 0, EmptyBatch(e.plan, checked.value), w1, depth + 1, amount);
  }

  // Items so far are the first values of the list.
  predicate Prefix(items: seq<Item>, seen: set<string>, flow: string) {
    && (forall i | 0 <= i < |items| :: items[i] == Item(ItemName(i), flow, map[]))
    && forall id | id in seen :: exists i :: 0 <= i < |items| && id == ItemName(i)
  }

  ghost predicate ItemsPassed(run: (Result<seq<Item>, Exn>, World), step: Step, flow: string, w: World) {
    run.1.consumed == w.consumed
    && match run.0
       case Err(_) => false
       case Ok(items) => |items| == step.Capacity() && exists seen :: Prefix(items, seen, flow)
  }

  lemma {:induction false} ItemsPass(e: Engine, step: Step, flow: string, items: seq<Item>, seen: set<string>, w: World)
    requires Generous(e) && flow in step.Targets() && CallableFlow(e.plan, flow).Some?
    requires |items| <= step.Capacity() && Prefix(items, seen, flow)
    ensures ItemsPassed(CheckItems(e, step, ItemValues(step.Capacity(), flow), items, seen, w), step, flow, w)
    decreases step.Capacity() - |items|
  {
    if |items| < step.Capacity() {
      var k := |items|;
      var raw := ItemValues(step.Capacity(), flow);
      var next := Item(ItemName(k), flow, map[]);
      NextReads(step, flow, items, seen);
      assert raw[k] == ItemValue(k, flow);
      var items', seen' := items + [next], seen + {next.id};
      forall id | id in seen' ensures exists i :: 0 <= i < |items'| && id == ItemName(i) {
        if id == next.id {
          assert 0 <= k < |items'|;
        }
      }
      ItemsPass(e, step, flow, items', seen', w.Next());
    }
  }

  lemma NextReads(step: Step, flow: string, items: seq<Item>, seen: set<string>)
    requires flow in step.Targets() && Prefix(items, seen, flow)
    ensures ReadItem(step, ItemValue(|items|, flow), seen) == Some(Item(ItemName(|items|), flow, map[]))
  {
    var value := ItemValue(|items|, flow);
    ItemNames(0, |items|);
    if ItemName(|items|) in seen {
      var i :| 0 <= i < |items| && ItemName(|items|) == ItemName(i);
      ItemNames(i, |items|);
    }
    assert value.fields.Keys == {"id", "flow", "input"};
  }

  ghost predicate ItemSpent(run: ItemRun, w: World, amount: int) {
    run.world.consumed == w.consumed + amount
    && match run.outcome
       case Err(_) => false
       case Ok(done) => done.failure.None? && done.record.status == Completed
  }

  // Wherever there is room, an item of the flow spends the amount.
  ghost predicate EachSpends(e: Engine, flow: string, depth: int, amount: int) {
    && flow in e.plan.flows
    && forall payload, w: World {:trigger RunItem(e, e.plan.At(flow), payload, w, depth)} | w.consumed
       + amount <= e.maxSteps ::
      ItemSpent(RunItem(e, e.plan.At(flow), payload, w, depth), w, amount)
  }

  predicate AllOf(entries: seq<Entry>, flow: string) {
    forall i | 0 <= i < |entries| :: entries[i].item.flow == flow
  }

  ghost predicate BatchSpent(run: (Result<Batch, Exn>, World), w: World, amount: int) {
    run.1.consumed == w.consumed + amount
    && match run.0
       case Err(_) => false
       case Ok(batch) => batch.status == Completed
  }

  lemma {:induction false} ItemsSpend(e: Engine, flow: string, k: nat, batch: Batch, w: World, depth: int, amount: nat)
    requires EachSpends(e, flow, depth, amount) && batch.status == Completed && AllOf(batch.entries, flow)
    requires w.consumed + Times(Left(batch, k), amount) <= e.maxSteps
    ensures BatchSpent(RunItems(e, k, batch, w, depth), w, Times(Left(batch, k), amount))
    decreases |batch.entries| - k
  {
    if k < |batch.entries| {
      var item := batch.entries[k].item;
      var run := RunItem(e, e.plan.At(item.flow), item.payload, w, depth);
      assert ItemSpent(run, w, amount);
      ItemsSpend(e, flow, k + 1, Entered(batch, k, run.outcome.value), run.world, depth, amount);
    }
  }

  lemma {:induction false} ItemSpends(e: Engine, plan: Plan, rank: map<string, nat>, depths: map<string, nat>,
                                      name: string, payload: Object, w: World, depth: int)
    requires Full(e, plan, rank, depths) && Filled(e, plan, rank, depths, name)
    requires Room(e, depths, name, w, Worst(plan, rank, name), depth)
    ensures ItemSpent(RunItem(e, e.plan.At(name), payload, w, depth), w, Worst(plan, rank, name))
    decreases LIMIT - depth, 5, 0
  {
    assert Filled(e, plan, rank, depths, name);
    if plan.At(name).repeat.None? {
      FlowSpends(e, plan, rank, depths, name, Obj(payload), w, depth);
    } else {
      RemainingClosed(plan, rank, name, 0);
      LoopSpends(e, plan, rank, depths, name, Some(payload), Obj(payload), Obj(payload), [], map[], w, depth);
    }
  }

  // ---- Repeats ------------------------------------------------------------------------------------

  ghost predicate LoopSpent(loop: Loop, w: World, amount: int) {
    && loop.last.status == Completed && loop.world.consumed == w.consumed + amount
    && match loop.outcome
       case Err(_) => false
       case Ok(halted) => halted.failure.None?
  }

  lemma {:induction false} LoopSpends(e: Engine, plan: Plan, rank: map<string, nat>, depths: map<string, nat>,
                                      name: string, item: Option<Object>, scope: Json, input: Json,
                                      attempts: seq<FlowRecord>, records: FlowRecords, w: World, depth: int)
    requires Full(e, plan, rank, depths) && Filled(e, plan, rank, depths, name)
    requires plan.At(name).repeat.Some?
    requires |attempts| < plan.At(name).Repeating().maxAttempts
    requires Room(e, depths, name, w, Remaining(plan, rank, name, |attempts|), depth)
    ensures var flow := e.plan.At(name);
            LoopSpent(Attempts(e, flow, flow.Repeating(), item, scope, input, attempts, records, w, depth), w,
                      Remaining(plan, rank, name, |attempts|))
    decreases LIMIT - depth, 4, plan.At(name).Repeating().maxAttempts - |attempts|, 0
  {
    var flow := e.plan.At(name);
    var repeat := flow.Repeating();
    FlowSpends(e, plan, rank, depths, name, input, w, depth);
    var run := ExecuteFlow(e, flow, input, w, depth);
    var attempts' := attempts + [run.record];
    var records' := records[flow.name := run.record.(attempts := attempts')];
    DecideSpends(e, plan, rank, depths, name, item, scope, run, |attempts'|, records', depth);
    ProceedSpends(e, plan, rank, depths, name, item, scope, run.record, attempts',
                  Decide(e, flow, repeat, item, scope, run, |attempts'|, records', depth), run.world, depth);
  }

  // What one decision leaves to spend.
  ghost function Afterwards(plan: Plan, rank: map<string, nat>, name: string, attempt: int): nat {
    if attempt < plan.At(name).Repeating().maxAttempts then RetryWorst(plan, rank, name) else 0
  }

  lemma {:induction false} ProceedSpends(e: Engine, plan: Plan, rank: map<string, nat>, depths: map<string, nat>,
                                         name: string, item: Option<Object>, scope: Json, run: FlowRecord,
                                         attempts: seq<FlowRecord>, decided: Decided, w: World, depth: int)
    requires Full(e, plan, rank, depths) && Filled(e, plan, rank, depths, name)
    requires plan.At(name).repeat.Some? && run.status == Completed
    requires DecisionSpent(decided, w, Afterwards(plan, rank, name, |attempts|),
                           |attempts| < plan.At(name).Repeating().maxAttempts)
    requires Room(e, depths, name, decided.world, Remaining(plan, rank, name, |attempts|), depth)
    ensures var flow := e.plan.At(name);
            LoopSpent(Proceed(e, flow, flow.Repeating(), item, scope, run, attempts, decided, depth), decided.world,
                      Remaining(plan, rank, name, |attempts|))
    decreases LIMIT - depth, 4, plan.At(name).Repeating().maxAttempts - |attempts|, 1
  {
    match decided.outcome
    case Err(_) =>
    case Ok(Halt(_)) =>
    case Ok(Again(next)) =>
      LoopSpends(e, plan, rank, depths, name, item, scope, Obj(next), attempts,
                 decided.records[e.plan.At(name).name := run.(attempts := attempts)], decided.world, depth);
  }

  ghost predicate DecisionSpent(decided: Decided, w: World, amount: int, again: bool) {
    decided.world.consumed == w.consumed + amount
    && match decided.outcome
       case Err(_) => false
       case Ok(Again(_)) => again
       case Ok(Halt(halted)) => !again && halted.failure.None? && halted.status.None?
  }

  lemma {:induction false} DecideSpends(e: Engine, plan: Plan, rank: map<string, nat>, depths: map<string, nat>,
                                        name: string, item: Option<Object>, scope: Json, run: FlowRun, attempt: int,
                                        records: FlowRecords, depth: int)
    requires Full(e, plan, rank, depths) && Filled(e, plan, rank, depths, name)
    requires plan.At(name).repeat.Some? && run.record.status == Completed
    requires Room(e, depths, name, run.world, Afterwards(plan, rank, name, attempt), depth)
    ensures var flow, again := e.plan.At(name), attempt < plan.At(name).Repeating().maxAttempts;
            DecisionSpent(Decide(e, flow, flow.Repeating(), item, scope, run, attempt, records, depth), run.world,
                          Afterwards(plan, rank, name, attempt), again)
    decreases LIMIT - depth, 3, 1
  {
    var flow := e.plan.At(name);
    var repeat := flow.Repeating();
    assert Evaluate(NEVER, WorkflowContext(scope, e.metadata, records), e.matcher) == Ok(false);
    if attempt < repeat.maxAttempts {
      match repeat.retryFlow
      case None =>
        PrepareSpends(e, flow, repeat, item, scope, run.issues, records, run.world);
      case Some(retry) =>
        assert HasRetry(plan, name, retry);
        assert Filled(e, plan, rank, depths, retry);
        RetrySpends(e, plan, rank, depths, name, retry, item, scope, run.issues, records, run.world, depth);
    }
  }

  lemma PrepareSpends(e: Engine, flow: Flow, repeat: Repeat, item: Option<Object>, scope: Json, issues: seq<Issue>,
                      records: FlowRecords, w: World)
    requires Generous(e) && flow.input == [] && repeat.retryInput == []
    ensures DecisionSpent(Prepare(e, flow, repeat, item, scope, issues, records, w), w, 0, true)
  {
    assert Override(flow.input, repeat.retryInput) == [];
  }

  lemma RetryRoom(e: Engine, plan: Plan, rank: map<string, nat>, depths: map<string, nat>, name: string, retry: string)
    requires Full(e, plan, rank, depths) && HasRetry(plan, name, retry)
    ensures retry in plan.flows && retry in e.plan.flows && e.plan.At(retry).name == retry
    ensures RetryWorst(plan, rank, name) == FlowWorst(plan, rank, retry) && NestsBelow(depths, retry, name, 0)
  {
    assert Filled(e, plan, rank, depths, retry);
  }

  lemma {:induction false} RetrySpends(e: Engine, plan: Plan, rank: map<string, nat>, depths: map<string, nat>,
                                       name: string, retry: string, item: Option<Object>, scope: Json,
                                       issues: seq<Issue>, records: FlowRecords, w: World, depth: int)
    requires Full(e, plan, rank, depths) && HasRetry(plan, name, retry)
    requires Filled(e, plan, rank, depths, name) && Filled(e, plan, rank, depths, retry)
    requires Room(e, depths, name, w, RetryWorst(plan, rank, name), depth)
    ensures var flow := e.plan.At(name);
            DecisionSpent(RunRetry(e, flow, flow.Repeating(), e.plan.At(retry), item, scope, issues, records, w,
                                   depth), w,
                          RetryWorst(plan, rank, name), true)
    decreases LIMIT - depth, 3, 0
  {
    var flow := e.plan.At(name);
    var repeat := flow.Repeating();
    assert FlowInput(e, retry, repeat.retryFlowInput, WorkflowContext(scope, e.metadata, records)) == Ok(map[]);
    RetryRoom(e, plan, rank, depths, name, retry);
    FlowSpends(e, plan, rank, depths, retry, Obj(map[]), w, depth);
    var run := ExecuteFlow(e, e.plan.At(retry), Obj(map[]), w, depth);
    var records' := records[retry := RetryRecord(run.record, RunsOf(records, retry))];
    PrepareSpends(e, flow, repeat, item, scope, issues, records', run.world);
  }

  // ---- Plans of the same calls ----------------------------------------------------------------

  // The same step but for what it binds: its name, its kind, the flows it calls and its limit.
  predicate SameStep(one: Step, other: Step) {
    match (one, other)
    case (Operation(id, _, kind, _), Operation(id', _, kind', _)) => id == id' && kind == kind'
    case (Collection(id, _, _, flows, maxItems), Collection(id', _, _, flows', maxItems')) =>
      id == id' && flows == flows' && maxItems == maxItems'
    case _ => false
  }

  predicate SameRepeat(one: Option<Repeat>, other: Option<Repeat>) {
    match (one, other)
    case (None, None) => true
    case (Some(r), Some(r')) => r.maxAttempts == r'.maxAttempts && r.retryFlow == r'.retryFlow
    case _ => false
  }

  // The same flow but for the bindings and conditions of its steps, its repeat and its output.
  predicate SameFlow(one: Flow, other: Flow) {
    && other == one.(input := other.input, steps := other.steps, output := other.output, repeat := other.repeat)
    && |other.steps| == |one.steps| && SameRepeat(one.repeat, other.repeat)
    && forall k {:trigger one.steps[k]} {:trigger other.steps[k]} | 0 <= k < |one.steps| ::
         SameStep(one.steps[k], other.steps[k])
  }

  // Plans of the same flows under the same start.
  predicate Alike(plan: Plan, full: Plan) {
    && full.order == plan.order && full.start == plan.start && full.flows.Keys == plan.flows.Keys
    && forall n {:trigger full.At(n)} {:trigger plan.At(n)} | n in plan.flows ::
         SameFlow(plan.At(n), full.At(n))
  }

  lemma StepsAgree(plan: Plan, full: Plan, n: string, k: int)
    requires Alike(plan, full) && n in plan.flows
    ensures full.At(n).Step(k).Targets() == plan.At(n).Step(k).Targets()
    ensures full.At(n).Step(k).Capacity() == plan.At(n).Step(k).Capacity()
    ensures full.At(n).Step(k).Collection? == plan.At(n).Step(k).Collection?
  {
    assert SameFlow(plan.At(n), full.At(n));
    if 0 <= k < |plan.At(n).steps| {
      assert SameStep(plan.At(n).steps[k], full.At(n).steps[k]);
    }
  }

  lemma RetriesAgree(plan: Plan, full: Plan, n: string)
    requires Alike(plan, full) && n in plan.flows
    ensures SameRepeat(plan.At(n).repeat, full.At(n).repeat)
    ensures forall retry :: HasRetry(full, n, retry) <==> HasRetry(plan, n, retry)
  {
    assert SameFlow(plan.At(n), full.At(n));
  }

  lemma {:induction false} SameLinks(one: seq<Step>, other: seq<Step>)
    requires |one| == |other| && forall k | 0 <= k < |one| :: SameStep(one[k], other[k])
    ensures CollectionLinks(one) == CollectionLinks(other)
  {
    if one != [] {
      assert SameStep(one[0], other[0]);
      SameLinks(one[1..], other[1..]);
    }
  }

  lemma AlikeLinks(plan: Plan, full: Plan)
    requires Alike(plan, full)
    ensures PlanLinks(full) == PlanLinks(plan)
  {
    forall n | n in plan.flows ensures FlowLinks(full.At(n)) == FlowLinks(plan.At(n)) {
      SameLinks(plan.At(n).steps, full.At(n).steps);
    }
  }

  lemma AlikeTargets(plan: Plan, full: Plan)
    requires Alike(plan, full) && AllTargetsKnown(plan) && StartsKnown(plan)
    ensures AllTargetsKnown(full) && StartsKnown(full)
  {
    forall m ensures Callable(plan, m) == Callable(full, m) && Routed(plan, m) == Routed(full, m) {
      assert m in plan.flows ==> SameFlow(plan.At(m), full.At(m));
    }
    forall n | n in full.flows ensures TargetsKnown(full, full.At(n)) {
      assert TargetsKnown(plan, plan.At(n));
      assert FlowTargets(full.At(n)) == FlowTargets(plan.At(n));
      forall k | 0 <= k < |full.At(n).steps| && full.At(n).steps[k].Collection?
        ensures forall m | m in full.At(n).steps[k].flows :: Callable(full, m)
      {
        assert SameStep(plan.At(n).steps[k], full.At(n).steps[k]);
      }
    }
  }

  lemma AlikeRetries(plan: Plan, full: Plan)
    requires Alike(plan, full) && RetriesKnown(plan)
    ensures RetriesKnown(full)
  {
    forall n | n in full.flows ensures RetryKnown(full, n) {
      assert RetryKnown(plan, n);
      RetriesAgree(plan, full, n);
    }
    forall m, n, retry | HasRetry(full, m, retry) && HasRetry(full, n, retry) ensures m == n {
      RetriesAgree(plan, full, m);
      RetriesAgree(plan, full, n);
    }
  }

  // Both are of a kind whose bound is defined.
  ghost predicate Comparable(plan: Plan, full: Plan, rank: map<string, nat>) {
    Graded(plan, rank) && Graded(full, rank) && Alike(plan, full)
  }

  // The compiler computes the same bound for plans of the same calls, whatever they bind.
  lemma {:induction false} SameWorst(plan: Plan, full: Plan, rank: map<string, nat>, n: string)
    requires Comparable(plan, full, rank)
    ensures Worst(full, rank, n) == Worst(plan, rank, n)
    decreases Rank(rank, n), 2, 0
  {
    if n in plan.flows {
      SameOwn(plan, full, rank, n, 0);
      RetriesAgree(plan, full, n);
      var retry := plan.At(n).Repeating().retryFlow;
      if retry.Some? && HasRetry(plan, n, retry.value) {
        SameWorst(plan, full, rank, retry.value);
      }
      assert RetryWorst(full, rank, n) == RetryWorst(plan, rank, n);
    }
  }

  lemma {:induction false} SameOwn(plan: Plan, full: Plan, rank: map<string, nat>, n: string, k: nat)
    requires Comparable(plan, full, rank) && n in plan.flows
    ensures Own(full, rank, n, k) == Own(plan, rank, n, k)
    decreases Rank(rank, n), 1, |plan.At(n).steps| - k
  {
    assert SameFlow(plan.At(n), full.At(n));
    if k < |plan.At(n).steps| {
      SameOwn(plan, full, rank, n, k + 1);
      StepsAgree(plan, full, n, k);
      SameChild(plan, full, rank, n, k, 0);
      assert StepWorst(full, rank, n, k) == StepWorst(plan, rank, n, k);
    }
  }

  lemma {:induction false} SameChild(plan: Plan, full: Plan, rank: map<string, nat>, n: string, k: nat, j: nat)
    requires Comparable(plan, full, rank) && n in plan.flows
    ensures ChildWorst(full, rank, n, k, j) == ChildWorst(plan, rank, n, k, j)
    decreases Rank(rank, n), 0, |plan.At(n).Step(k).Targets()| - j
  {
    var flows := plan.At(n).Step(k).Targets();
    StepsAgree(plan, full, n, k);
    if j < |flows| {
      assert CallsAt(plan, n, k, flows[j]) && CallsAt(full, n, k, flows[j]);
      SameWorst(plan, full, rank, flows[j]);
      SameChild(plan, full, rank, n, k, j + 1);
    }
  }

  // ---- The filled plan is certified -------------------------------------------------------------

  lemma FullFlowAuthored(plan: Plan, rank: map<string, nat>, n: string)
    requires AuthoredFlow(plan.At(n))
    ensures AuthoredFlow(FullFlow(plan, rank, n))
  {
    var flow := FullFlow(plan, rank, n);
    forall k | 0 <= k < |flow.steps| ensures AuthoredStep(flow.steps[k]) {
      if plan.At(n).Step(k).Collection? {
        var raw := FullItems(plan, rank, n, k);
        forall i | 0 <= i < |raw| ensures Fits(raw[i], 1, MAX_JSON_DEPTH) {
          ValueFits(i, Dearest(plan, rank, n, k));
        }
        assert Authored(Literal(Arr(raw)));
      }
    }
    assert AuthoredCondition(NEVER);
  }

  lemma FullSameFlow(plan: Plan, rank: map<string, nat>, n: string)
    ensures SameFlow(plan.At(n), FullFlow(plan, rank, n))
  {
    forall k | 0 <= k < |plan.At(n).steps| ensures SameStep(plan.At(n).steps[k], FullStep(plan, rank, n, k)) {
      assert plan.At(n).Step(k) == plan.At(n).steps[k];
    }
  }

  // ---- The bound is attained --------------------------------------------------------------------

  lemma FlowIsFilled(e: Engine, plan: Plan, rank: map<string, nat>, depths: map<string, nat>, n: string)
    requires AuthoredPlan(plan) && Certified(plan, rank, depths) && e.plan == FullPlan(plan, rank) && n in plan.flows
    ensures Filled(e, plan, rank, depths, n)
  {
    forall step | step in plan.At(n).steps ensures AuthoredStep(step) {
    }
  }

  lemma FullHolds(e: Engine, plan: Plan, rank: map<string, nat>, depths: map<string, nat>)
    requires AuthoredPlan(plan) && Certified(plan, rank, depths) && Graded(plan, rank)
    requires Generous(e) && e.plan == FullPlan(plan, rank)
    ensures Full(e, plan, rank, depths)
  {
    forall n | n in plan.flows ensures Filled(e, plan, rank, depths, n) {
      FlowIsFilled(e, plan, rank, depths, n);
    }
    forall a, k, n | CallsAt(plan, a, k, n) ensures plan.At(n).callable && NestsBelow(depths, n, a, 1) {
      CallFalls(plan, rank, depths, a, k, n);
    }
    forall a, n | HasRetry(plan, a, n) ensures NestsBelow(depths, n, a, 0) {
      RetryFalls(plan, rank, depths, a, n);
    }
  }

  // An authored plan of the same flows under the same start, with the same certificates.
  ghost predicate SameShape(plan: Plan, full: Plan, rank: map<string, nat>, depths: map<string, nat>) {
    AuthoredPlan(full) && Certified(full, rank, depths) && Comparable(plan, full, rank)
  }

  lemma FullHasShape(plan: Plan, rank: map<string, nat>, depths: map<string, nat>)
    requires AuthoredPlan(plan) && Certified(plan, rank, depths) && Graded(plan, rank)
    ensures SameShape(plan, FullPlan(plan, rank), rank, depths)
  {
    assert Alike(plan, FullPlan(plan, rank)) by {
      forall n | n in plan.flows ensures SameFlow(plan.At(n), FullPlan(plan, rank).At(n)) {
        FullSameFlow(plan, rank, n);
      }
    }
    var full := FullPlan(plan, rank);
    forall n | n in full.flows ensures AuthoredFlow(full.At(n)) {
      FullFlowAuthored(plan, rank, n);
    }
    assert full.flows.Keys == plan.flows.Keys;
    AlikeLinks(plan, FullPlan(plan, rank));
    AlikeTargets(plan, FullPlan(plan, rank));
    AlikeRetries(plan, FullPlan(plan, rank));
    CertifiedIsGraded(FullPlan(plan, rank), rank, depths);
  }

  // For every certified plan there are a certified plan of the same flows, calls, attempts and
  // item limits with the same bound, and an environment in which one invocation of the flow
  // consumes exactly the bound.
  lemma WorstIsAttained(plan: Plan, rank: map<string, nat>, depths: map<string, nat>, n: string, payload: Object,
                        w: World)
    returns (full: Plan, e: Engine)
    requires AuthoredPlan(plan) && Certified(plan, rank, depths) && n in plan.flows
    ensures SameShape(plan, full, rank, depths) && Worst(full, rank, n) == Worst(plan, rank, n)
    ensures e.plan == full && e.maxSteps == w.consumed + Worst(full, rank, n)
    ensures ItemSpent(RunItem(e, full.At(n), payload, w, 0), w, Worst(full, rank, n))
  {
    CertifiedIsGraded(plan, rank, depths);
    full := FullPlan(plan, rank);
    FullHasShape(plan, rank, depths);
    SameWorst(plan, full, rank, n);
    e := GenerousEngine(full, w.consumed + Worst(plan, rank, n));
    FullHolds(e, plan, rank, depths);
    assert Filled(e, plan, rank, depths, n);
    ItemSpends(e, plan, rank, depths, n, payload, w, 0);
  }
}
