/**
 Where usage is not conserved.  A condition of an item repeat with a pointer the engine does
 not follow raises out of the item and the collection: the step is recorded as failed with no
 usage, although the items that ran have spent theirs.
 */
module LostUsage {
  import opened Foundations
  import opened Json
  import opened Pointers
  import opened Bindings
  import opened Conditions
  import opened Plans
  import opened Accounting
  import opened Records
  import opened Engine
  import opened Routing
  import opened Repeats
  import opened Conservation
  import opened RunLedgers
  import opened TowerPlans
  import opened TowerRuns
  import opened Towers

  // ---- When a decision fails ------------------------------------------------------------------

  predicate OverlongUntil(e: Engine, repeat: Repeat, scope: Json, records: FlowRecords) {
    OverlongCondition(repeat.until, WorkflowContext(scope, e.metadata, records), e.matcher)
  }

  // The retry flow completed, and the condition to go on has a pointer that is too long.
  predicate OverlongContinue(e: Engine, repeat: Repeat, retry: Flow, scope: Json, records: FlowRecords,
                             run: FlowRecord) {
    && run.status != Failed && run.status != NeedsReview
    && var records' := records[retry.name := RetryRecord(run, RunsOf(records, retry.name))];
       match repeat.continueWhen
       case None => false
       case Some(condition) => OverlongCondition(condition, WorkflowContext(scope, e.metadata, records'), e.matcher)
  }

  // The retry flow's next run comes to such a condition.
  predicate OverlongRetry(e: Engine, repeat: Repeat, retry: Flow, scope: Json, records: FlowRecords, w: World,
                          depth: int)
  {
    match FlowInput(e, retry.name, repeat.retryFlowInput, WorkflowContext(scope, e.metadata, records))
    case Err(_) => false
    case Ok(input) =>
      OverlongContinue(e, repeat, retry, scope, records, ExecuteFlow(e, retry, Obj(input), w, depth).record)
  }

  lemma RetryFailsIff(e: Engine, flow: Flow, repeat: Repeat, retry: Flow, item: Option<Object>, scope: Json,
                      issues: seq<Issue>, records: FlowRecords, w: World, depth: int)
    requires AuthoredRepeat(repeat)
    ensures RunRetry(e, flow, repeat, retry, item, scope, issues, records, w, depth).outcome.Err?
            <==> OverlongRetry(e, repeat, retry, scope, records, w, depth)
  {
    var input := FlowInput(e, retry.name, repeat.retryFlowInput, WorkflowContext(scope, e.metadata, records));
    if input.Ok? {
      var run := ExecuteFlow(e, retry, Obj(input.value), w, depth);
      AfterRetryFailsIff(e, flow, repeat, retry, item, scope, issues, records, run);
      assert RunRetry(e, flow, repeat, retry, item, scope, issues, records, w, depth)
          == AfterRetry(e, flow, repeat, retry, item, scope, issues, records, run);
    }
  }

  lemma AfterRetryFailsIff(e: Engine, flow: Flow, repeat: Repeat, retry: Flow, item: Option<Object>, scope: Json,
                           issues: seq<Issue>, records: FlowRecords, run: FlowRun)
    requires AuthoredRepeat(repeat)
    ensures AfterRetry(e, flow, repeat, retry, item, scope, issues, records, run).outcome.Err?
            <==> OverlongContinue(e, repeat, retry, scope, records, run.record)
  {
    var records' := records[retry.name := RetryRecord(run.record, RunsOf(records, retry.name))];
    if repeat.continueWhen.Some? {
      FailsIffOverlong(repeat.continueWhen.value, WorkflowContext(scope, e.metadata, records'), e.matcher);
    }
    PrepareKeeps(e, flow, repeat, item, scope, issues, records', run.world);
  }

  predicate OverlongAgain(e: Engine, repeat: Repeat, scope: Json, records: FlowRecords, w: World, depth: int) {
    match repeat.retryFlow
    case None => false
    case Some(retry) => OverlongRetry(e, repeat, e.plan.At(retry), scope, records, w, depth)
  }

  predicate KnownRetry(plan: Plan, repeat: Repeat) {
    match repeat.retryFlow
    case None => true
    case Some(retry) => retry in plan.flows
  }

  // A decision of a known repeat raises exactly when it comes to a condition with a pointer
  // that is too long: until after a completed attempt, or continue_when after a completed
  // run of the retry flow.
  lemma DecisionFailsIff(e: Engine, flow: Flow, repeat: Repeat, item: Option<Object>, scope: Json, run: FlowRun,
                         attempt: nat, records: FlowRecords, depth: int)
    requires AuthoredRepeat(repeat)
    requires KnownRetry(e.plan, repeat)
    ensures Decide(e, flow, repeat, item, scope, run, attempt, records, depth).outcome.Err?
            <==> || (run.record.status != Failed && run.record.status != NeedsReview
                     && OverlongUntil(e, repeat, scope, records))
                 || (GoesOn(e, repeat, scope, run.record, attempt, records)
                     && OverlongAgain(e, repeat, scope, records, run.world, depth))
  {
    FailsIffOverlong(repeat.until, WorkflowContext(scope, e.metadata, records), e.matcher);
    DecideCases(e, flow, repeat, item, scope, run, attempt, records, depth);
    if GoesOn(e, repeat, scope, run.record, attempt, records) {
      match repeat.retryFlow
      case None => PrepareKeeps(e, flow, repeat, item, scope, run.issues, records, run.world);
      case Some(retry) =>
        RetryFailsIff(e, flow, repeat, e.plan.At(retry), item, scope, run.issues, records, run.world, depth);
    }
  }

  // ---- What it costs -------------------------------------------------------------------------------

  // An item whose first attempt meets such an until raises with that attempt already paid.
  lemma OverlongUntilStopsItem(e: Engine, flow: Flow, repeat: Repeat, payload: Object, w: World, depth: int,
                               run: FlowRun)
    requires flow.repeat == Some(repeat) && AuthoredRepeat(repeat)
    requires run == ExecuteFlow(e, flow, Obj(payload), w, depth)
    requires run.record.status != Failed && run.record.status != NeedsReview
    requires OverlongUntil(e, repeat, Obj(payload), map[flow.name := run.record.(attempts := [run.record])])
    ensures RunItem(e, flow, payload, w, depth) == ItemRun(Err(Error(InvalidConfiguration)), run.world)
  {
    var none: FlowRecords := map[];
    var attempts := [run.record];
    assert [] + [run.record] == attempts;
    var current := run.record.(attempts := attempts);
    var records := none[flow.name := current];
    assert records == map[flow.name := run.record.(attempts := [run.record])];
    FailsIffOverlong(repeat.until, WorkflowContext(Obj(payload), e.metadata, records), e.matcher);
    var decided := Decide(e, flow, repeat, Some(payload), Obj(payload), run, 1, records, depth);
    assert decided == Decided(Err(Error(InvalidConfiguration)), records, run.world);
    assert Attempts(e, flow, repeat, Some(payload), Obj(payload), Obj(payload), [], none, w, depth)
        == Loop(Err(Error(InvalidConfiguration)), current, records, run.world);
  }

  // ---- A compiled plan that loses usage -------------------------------------------------------------

  // Whether the payload has a value 65 tokens down.
  const LONG := Leaf(Pointer(DeepPointer(MAX_JSON_DEPTH), None), Operator.Present(true))

  // A condition the engine follows in no context.
  ghost predicate Unfollowed(until: Condition) {
    && AuthoredCondition(until) && !ShortCondition(until)
    && forall context, matcher {:trigger OverlongCondition(until, context, matcher)} ::
      OverlongCondition(until, context, matcher)
  }

  // The compiler accepts it in the scope of an item repeat.
  lemma LongIsUnfollowed()
    ensures Unfollowed(LONG) && Admitted(LONG)
  {
    DeepPointerReads(MAX_JSON_DEPTH);
    LongUnfollowed(DeepPointer(MAX_JSON_DEPTH));
    PayloadAdmitted(DeepPointer(MAX_JSON_DEPTH), true);
  }

  lemma LongUnfollowed(pointer: string)
    requires WellFormed(pointer) && Long(pointer)
    ensures Unfollowed(Leaf(Pointer(pointer, None), Operator.Present(true)))
  {
  }

  // The world after an operation's first attempt, which is paid.
  predicate Paid(w: World, w': World) {
    w'.spent == w.spent + [USED]
  }

  lemma LostItem(until: Condition, e: Engine, w: World, depth: int) returns (w': World)
    requires Unfollowed(until) && Scaling(e, until, 3) && w.consumed < BUDGET
    ensures RunItem(e, TowerFlow(until, 3, 2), map[], w, depth) == ItemRun(Err(Error(InvalidConfiguration)), w')
    ensures Paid(w, w')
  {
    var flow := TowerFlow(until, 3, 2);
    OperationFlowRuns(e, until, 3, 2, Obj(map[]), w, depth);
    var run := ExecuteFlow(e, flow, Obj(map[]), w, depth);
    var records: FlowRecords := map[flow.name := run.record.(attempts := [run.record])];
    assert OverlongCondition(until, WorkflowContext(Obj(map[]), e.metadata, records), e.matcher);
    OverlongUntilStopsItem(e, flow, flow.Repeating(), map[], w, depth, run);
    w' := run.world;
  }

  predicate Raised(run: FlowRun, code: ErrorCode, usage: Usage, w: World) {
    && run.record.status == Failed && run.record.attempts == [] && run.record.usage == Some(usage)
    && run.record.error == Some(Failure(code, false)) && run.world == w
  }

  // The collection at the top of the plan, whose only item raises.
  lemma LostFlow(until: Condition, e: Engine, w: World) returns (w': World)
    requires Unfollowed(until) && Scaling(e, until, 3) && w.consumed == 0
    ensures Raised(ExecuteFlow(e, TowerFlow(until, 3, 3), Obj(map[]), w, 0), InvalidConfiguration, NO_USAGE, w')
    ensures Paid(w, w')
  {
    var flow, step, raw, item := TowerFlow(until, 3, 3), TowerStep(3), ItemList(2), TowerItem(2);
    var p := Started(flow, w);
    var p' := p.(world := Counted(w));
    TowerLists(1);
    OneItemPasses(e, until, 3, 1, Counted(w));
    TowerAt(until, 3, 2);
    w' := LostItem(until, e, Counted(w).Next(), 1);
    assert RunItems(e, 0, EmptyBatch(e.plan, [item]), p'.world.Next(), 0 + 1) == (Err(Error(InvalidConfiguration)), w');
    BatchRuns(e, step, map["items" := Arr(raw)], p'.world, 0, [item], p'.world.Next());
    CollectionEntered(e, step, raw, Obj(map[]), p, 0);
    assert ExecuteFlow(e, flow, Obj(map[]), p.world, 0) == RunSteps(e, flow, Obj(map[]), 0, p, 0);
    assert RunSteps(e, flow, Obj(map[]), 0, p, 0)
        == Abort(e, p'.(world := w'), Error(InvalidConfiguration), Some(Active("s", NO_USAGE, true)), []);
  }

  lemma {:induction false} NothingRecorded(order: seq<string>, records: FlowRecords)
    requires forall n | n in order :: n !in records
    ensures RecordedUsage(order, records) == []
  {
    if order != [] {
      NothingRecorded(order[..|order| - 1], records);
    }
  }

  // Only the start flow has a record of its own.
  lemma OnlyStartRecorded(until: Condition, j: nat)
    requires 1 <= j <= 2
    ensures TowerName(j) !in InitialRecords(TowerPlan(until, 3)) && TowerName(j) != TowerName(3)
  {
    var plan := TowerPlan(until, 3);
    TowerAt(until, 3, j);
    ItemNames(j, 3);
    forall n | n in plan.flows && !plan.At(n).callable ensures plan.At(n).repeat.None? {
      FloorName(n, 3);
    }
    assert RetryFlows(plan) == {};
  }

  lemma LostRecords(until: Condition, records: FlowRecords, record: FlowRecord)
    requires records == InitialRecords(TowerPlan(until, 3))[TowerName(3) := record]
    requires record.attempts == [] && record.usage == Some(NO_USAGE)
    ensures Total(RecordedUsage(TowerOrder(3), records)) == NO_USAGE
  {
    var order := TowerOrder(3);
    var others := order[..2];
    OnlyStartRecorded(until, 1);
    OnlyStartRecorded(until, 2);
    assert others == [TowerName(1), TowerName(2)];
    NothingRecorded(others, records);
    assert RecordedUsage(order, records) == [] + [NO_USAGE] == [NO_USAGE];
    TotalOne(NO_USAGE);
  }

  lemma UsedIsNotNothing()
    ensures !Sums(NO_USAGE, multiset{USED})
  {
    if Sums(NO_USAGE, multiset{USED}) {
      assert multiset([USED]) == multiset{USED};
      SumsExactly("", NO_USAGE, [USED]);
      TotalOne(USED);
    }
  }

  // A failed run as misconfigured that reports no usage, although a call was paid.
  ghost predicate Loses(e: Engine, r: RunResult) {
    && FailsWith(r.error, InvalidConfiguration) && r.usage == NO_USAGE && r.world.spent == [USED]
    && !Settles(e, r, OPENING)
  }

  // A compiled plan and a run of it that fails as misconfigured and reports no usage,
  // although an executor call was made and paid.
  lemma ItemUsageIsLost() returns (e: Engine, rank: map<string, nat>, depths: map<string, nat>)
    ensures Compiles(e.plan, rank, depths) && !ShortItemRepeats(e.plan)
    ensures Loses(e, Run(e, Obj(map[]), OPENING))
  {
    e, rank, depths := TowerEngine(LONG, 3), TowerRank(3), TowerDepths(3);
    TowerScales(LONG, 3);
    LongIsUnfollowed();
    TowerCompiles(LONG, 3);
    LostShape(LONG, e.plan);
    LostRun(LONG, e);
  }

  lemma LostShape(until: Condition, plan: Plan)
    requires Unfollowed(until) && plan == TowerPlan(until, 3)
    ensures !ShortItemRepeats(plan)
  {
    TowerAt(until, 3, 2);
    assert !ShortRepeat(plan.At(TowerName(2)).Repeating());
  }

  lemma LostRun(until: Condition, e: Engine)
    requires Unfollowed(until) && Scaling(e, until, 3)
    ensures Loses(e, Run(e, Obj(map[]), OPENING))
  {
    var name, flow, w := TowerName(3), TowerFlow(until, 3, 3), OPENING.Next().Next();
    TowerAt(until, 3, 3);
    var w' := LostFlow(until, e, w);
    var run := ExecuteFlow(e, flow, Obj(map[]), w, 0);
    SoleRuns(e, name, flow, OPENING, run);
    var r := Run(e, Obj(map[]), OPENING);
    LostRecords(until, r.records, run.record);
    UsedIsNotNothing();
    assert Since(OPENING, r.world) == multiset{USED};
  }
}
