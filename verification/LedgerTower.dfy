/**
 The depth bound of ledgers is attained by runs.  In a tower plan every item is retried once,
 and the retry flow's attempt holds the ledger of the next collection: each level adds
 exactly eight levels of JSON around a step result of the greatest depth.
 */
module LedgerTower {
  import opened Foundations
  import opened Json
  import opened Conditions
  import opened Plans
  import opened Accounting
  import opened Records
  import opened Engine
  import opened Readiness
  import opened RecordDepth
  import opened LedgerDepth
  import opened TowerPlans
  import opened TowerRuns
  import opened Towers

  // ---- Climbing the tower ---------------------------------------------------------------------------

  // The depth of what k collections below each other leave.
  function Levels(k: int): int {
    8 * k + MAX_JSON_DEPTH
  }

  // A run of flow 2k + 1: k collections below each other.
  ghost predicate Climbed(run: FlowRun, w: World, k: int) {
    && Plainly(run) && run.record.attempts == [] && DeepRun(run.record, Levels(k))
    && (k > 0 ==> StepAt(run.record.steps, "s").collection)
    && run.world.consumed == w.consumed + 3 * k + 1
  }

  ghost predicate ItemClimbed(run: ItemRun, w: World, k: int) {
    && run.world.consumed == w.consumed + 3 * k
    && match run.outcome
       case Err(_) => false
       case Ok(done) => done.record.status == Completed && done.failure.None? && RetryIsDeep(done, Levels(k - 1))
  }

  ghost predicate RetryIsDeep(done: ItemDone, m: int) {
    match done.retry
    case None => false
    case Some(retry) => DeepFirst(retry, m)
  }

  // Room for k more levels, in the budget and in the nesting limit.
  predicate Fitting(top: int, k: int, w: World, depth: int) {
    Odd(top) && 2 * k + 1 <= top && depth + k <= LIMIT && w.consumed + 3 * k + 1 <= BUDGET
  }

  // What the first item's retry flow found sits eight levels down in the ledger.
  lemma LedgerIsDeep(item: Item, done: ItemDone, m: int)
    requires RetryIsDeep(done, m)
    ensures DeepRecord(CollectionRecord(OneBatch(item, done)), m + 8)
  {
    var ledger := Ledger(OneBatch(item, done).entries);
    var value := ItemEntry(item.id, item.flow, done.record, done.retry);
    EntryIsDeep(item.id, item.flow, done.record, done.retry.value, m);
    Down("items", ["0"] + [], ledger.fields);
    DownFirst([], ledger.fields["items"].items);
    DeeperBelow(["items"] + (["0"] + []), ledger, value, m + 6);
  }

  ghost predicate DeepRecord(record: StepRecord, m: int) {
    match record.result
    case None => false
    case Some(value) => Deep(value, m)
  }

  lemma {:induction false} Climbs(e: Engine, top: int, k: int, payload: Json, w: World, depth: int)
    requires k >= 0 && Fitting(top, k, w, depth) && Scaling(e, NEVER, top)
    ensures Climbed(ExecuteFlow(e, TowerFlow(NEVER, top, 2 * k + 1), payload, w, depth), w, k)
    decreases k, 4
  {
    if k == 0 {
      OperationFlowRuns(e, NEVER, top, 1, payload, w, depth);
      NestIsDeep(MAX_JSON_DEPTH);
    } else {
      var item, w1 := TowerItem(2 * k), Counted(w).Next();
      TowerAt(NEVER, top, 2 * k);
      ItemClimbs(e, top, k, w1, depth + 1);
      var run := RunItem(e, TowerFlow(NEVER, top, 2 * k), map[], w1, depth + 1);
      TowerLists(k);
      OneItemPasses(e, NEVER, top, k, Counted(w));
      LedgerIsDeep(item, run.outcome.value, Levels(k - 1));
      var flow := TowerFlow(NEVER, top, 2 * k + 1);
      OneItemFlowRuns(e, flow, TowerStep(2 * k + 1), ItemList(2 * k), item, payload, Started(flow, w), depth,
                      run.outcome.value, run.world);
    }
  }

  // ---- One retried item ----------------------------------------------------------------------------

  lemma TowerRetries(e: Engine, top: int, k: int)
    requires k > 0 && 2 * k + 1 <= top && Scaling(e, NEVER, top)
    ensures Retries(e, TowerFlow(NEVER, top, 2 * k), Repeat(2, NEVER, Some(TowerName(2 * k - 1)), [], None, []),
                    TowerFlow(NEVER, top, 2 * k - 1))
  {
    TowerAt(NEVER, top, 2 * k - 1);
    ItemNames(2 * k, 2 * k - 1);
  }

  lemma {:induction false} ItemClimbs(e: Engine, top: int, k: int, w: World, depth: int)
    requires k > 0 && Odd(top) && 2 * k + 1 <= top && depth + k - 1 <= LIMIT && w.consumed + 3 * k <= BUDGET
    requires Scaling(e, NEVER, top)
    ensures ItemClimbed(RunItem(e, TowerFlow(NEVER, top, 2 * k), map[], w, depth), w, k)
    decreases k, 2
  {
    var flow, retry := TowerFlow(NEVER, top, 2 * k), TowerFlow(NEVER, top, 2 * k - 1);
    TowerRetries(e, top, k);
    OperationFlowRuns(e, NEVER, top, 2 * k, Obj(map[]), w, depth);
    var first := ExecuteFlow(e, flow, Obj(map[]), w, depth);
    Climbs(e, top, k - 1, Obj(map[]), first.world, depth);
    var again := ExecuteFlow(e, retry, Obj(map[]), first.world, depth);
    OperationFlowRuns(e, NEVER, top, 2 * k, Obj(map[]), again.world.Next(), depth);
    var second := ExecuteFlow(e, flow, Obj(map[]), again.world.Next(), depth);
    RetriedItem(e, flow, flow.Repeating(), retry, w, depth, first, again, second,
                Standing(second.record, [first.record, second.record], None, Some(ByExhaustion)));
  }

  // ---- The run ------------------------------------------------------------------------------------

  // Inputs are empty and outputs absent, so the bound of ResultsFitExecution applies.
  lemma TowerIsShallow(until: Condition, top: int)
    ensures ShallowData(TowerEngine(until, top))
  {
    var e := TowerEngine(until, top);
    ObjectWithin(map[], MAX_JSON_DEPTH - 1);
    forall n, payload | Accepted(e, n, payload) ensures Shallow(payload, MAX_JSON_DEPTH) {
      assert payload == Obj(map[]);
    }
  }

  // A completed run whose record of this flow holds, under step "s", a result of exactly
  // this depth: the ledger of a collection, unless no collection is asked for.
  predicate LeavesLedger(r: RunResult, name: string, levels: int) {
    && r.status == Completed && name in r.records && LedgerAt(FlowAt(r.records, name), levels)
  }

  predicate LedgerAt(record: FlowRecord, levels: int) {
    && "s" in record.steps && (levels > 0 ==> StepAt(record.steps, "s").collection)
    && ExactResult(StepAt(record.steps, "s"), Levels(levels))
  }

  // What the top of the tower is to its run.
  ghost predicate AtTop(e: Engine, levels: int, name: string) {
    && Scaling(e, NEVER, 2 * levels + 1) && name == TowerName(2 * levels + 1)
    && name in e.plan.flows && e.plan.At(name) == TowerFlow(NEVER, 2 * levels + 1, 2 * levels + 1)
    && e.plan.start == StartFlow(name) && e.plan.order != [] && e.plan.output.None? && Accepted(e, name, Obj(map[]))
  }

  lemma TowerStarts(levels: int)
    requires levels >= 0
    ensures AtTop(TowerEngine(NEVER, 2 * levels + 1), levels, TowerName(2 * levels + 1))
  {
    var top := 2 * levels + 1;
    TowerScales(NEVER, top);
    NameFloor(top, top);
    TowerAt(NEVER, top, top);
    NothingAccepted(TowerEngine(NEVER, top), TowerName(top));
  }

  lemma NothingAccepted(e: Engine, name: string)
    requires e.validate(name, map[]) == None
    ensures Accepted(e, name, Obj(map[]))
  {
  }

  predicate Nests(depths: map<string, nat>, name: string, levels: int) {
    name in depths && depths[name] == levels
  }

  // A compiled plan whose run stays within the bound.
  ghost predicate Bounded(e: Engine, rank: map<string, nat>, depths: map<string, nat>) {
    Compiles(e.plan, rank, depths) && ShortPlan(e.plan) && ShallowData(e)
  }

  // For every number of levels a compiled plan and an environment exist whose run leaves,
  // through item retry attempts, a collection record of exactly 8n + 64 levels.
  lemma BoundIsAttained(levels: int) returns (e: Engine, rank: map<string, nat>, depths: map<string, nat>, name: string)
    requires 0 <= levels <= MAX_COLLECTION_DEPTH
    ensures Bounded(e, rank, depths) && name in e.plan.flows && Nests(depths, name, levels)
    ensures LeavesLedger(Run(e, Obj(map[]), OPENING), name, levels)
  {
    var top := 2 * levels + 1;
    e, rank, depths, name := TowerEngine(NEVER, top), TowerRank(top), TowerDepths(top), TowerName(top);
    TowerBounded(levels);
    TowerNests(levels);
    TowerStarts(levels);
    CompiledIsCertified(e.plan, rank, depths);
    ResultsFitExecution(e, rank, depths, name, Obj(map[]), OPENING.Next().Next(), 0);
    NestingBounds(depths, name, levels);
    TopLeaves(e, levels, name);
  }

  lemma TowerBounded(levels: int)
    requires 0 <= levels <= MAX_COLLECTION_DEPTH
    ensures var top := 2 * levels + 1;
            Bounded(TowerEngine(NEVER, top), TowerRank(top), TowerDepths(top))
  {
    var top := 2 * levels + 1;
    TowerIsShallow(NEVER, top);
    NeverAdmitted();
    TowerSound(NEVER, top);
    assert TowerEngine(NEVER, top).plan == TowerPlan(NEVER, top);
  }

  lemma TowerNests(levels: int)
    requires levels >= 0
    ensures Nests(TowerDepths(2 * levels + 1), TowerName(2 * levels + 1), levels)
  {
    NameFloor(2 * levels + 1, 2 * levels + 1);
  }

  // The start flow's run within the run.
  function TopRun(e: Engine, name: string): FlowRun {
    ExecuteFlow(e, e.plan.At(name), Obj(map[]), OPENING.Next().Next(), 0)
  }

  lemma NestingBounds(depths: map<string, nat>, name: string, levels: int)
    requires Nests(depths, name, levels)
    ensures Bound(depths, name) == Levels(levels)
  {
  }

  lemma TopLeaves(e: Engine, levels: int, name: string)
    requires 0 <= levels <= MAX_COLLECTION_DEPTH && AtTop(e, levels, name)
    requires RunShallow(TopRun(e, name).record, Levels(levels))
    ensures LeavesLedger(Run(e, Obj(map[]), OPENING), name, levels)
  {
    var w, run := OPENING.Next().Next(), TopRun(e, name);
    Climbs(e, 2 * levels + 1, levels, Obj(map[]), w, 0);
    ExactlyDeep(run.record, Levels(levels));
    SoleRuns(e, name, e.plan.At(name), OPENING, run);
  }
}
