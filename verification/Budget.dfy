/**
 The worst-case step count of the compiler bounds what a run can consume; the check that
 computes it, and the plans it accepts.
 */
module Budget {
  import opened Foundations
  import opened Json
  import opened Bindings
  import opened Overrides
  import opened Conditions
  import opened Plans
  import opened Accounting
  import opened Records
  import opened Engine
  import opened Routing
  import opened WeightedLinks
  import opened Acceptance

  // ---- The worst case, by recursion along the calls --------------------------------

  // Collection targets and retry flows are known and of lower rank: what the
  // recursion of the bound needs of an accepted plan.
  ghost predicate Graded(plan: Plan, rank: map<string, nat>) {
    && (forall n | n in plan.flows :: n in rank && plan.At(n).name == n)
    && (forall a, k, n | CallsAt(plan, a, k, n) :: n in plan.flows && Rank(rank, n) < Rank(rank, a))
    && (forall a, n | HasRetry(plan, a, n) ::
          n in plan.flows && Rank(rank, n) < Rank(rank, a) && plan.At(n).repeat.None?)
  }

  lemma CertifiedIsGraded(plan: Plan, rank: map<string, nat>, depths: map<string, nat>)
    requires Certified(plan, rank, depths) && AuthoredPlan(plan)
    ensures Graded(plan, rank)
  {
    forall a, k, n | CallsAt(plan, a, k, n) ensures n in plan.flows && Rank(rank, n) < Rank(rank, a) {
      CallFalls(plan, rank, depths, a, k, n);
    }
    forall a, n | HasRetry(plan, a, n)
      ensures n in plan.flows && Rank(rank, n) < Rank(rank, a) && plan.At(n).repeat.None?
    {
      RetryFalls(plan, rank, depths, a, n);
    }
  }

  function Max(a: nat, b: nat): nat {
    if a > b then a else b
  }

  // Steps one invocation may visit: every attempt, retry run and collection item.
  ghost function Worst(plan: Plan, rank: map<string, nat>, name: string): nat
    decreases Rank(rank, name), 2, 0
  {
    if !Graded(plan, rank) || name !in plan.flows then 0
    else
      var own := FlowWorst(plan, rank, name);
      match plan.At(name).repeat
      case None => own
      case Some(repeat) =>
        if repeat.maxAttempts == 0 then 0
        else Times(repeat.maxAttempts, own) + Times(repeat.maxAttempts - 1, RetryWorst(plan, rank, name))
  }

  ghost function RetryWorst(plan: Plan, rank: map<string, nat>, name: string): nat
    decreases Rank(rank, name), 1, 0
  {
    var retry := plan.At(name).Repeating().retryFlow;
    if Graded(plan, rank) && retry.Some? && HasRetry(plan, name, retry.value) then Worst(plan, rank, retry.value)
    else 0
  }

  // One run of the flow.
  ghost function FlowWorst(plan: Plan, rank: map<string, nat>, name: string): nat
    decreases Rank(rank, name), 1, |plan.At(name).steps| + 1
  {
    Own(plan, rank, name, 0)
  }

  // One run of the flow's steps from step k on.
  ghost function Own(plan: Plan, rank: map<string, nat>, name: string, k: nat): nat
    decreases Rank(rank, name), 1, |plan.At(name).steps| - k
  {
    if k >= |plan.At(name).steps| then 0
    else StepWorst(plan, rank, name, k) + Own(plan, rank, name, k + 1)
  }

  ghost function StepWorst(plan: Plan, rank: map<string, nat>, name: string, k: nat): nat
    decreases Rank(rank, name), 0, 1
  {
    var step := plan.At(name).Step(k);
    1 + if step.Collection? then Times(step.maxItems, DearestChild(plan, rank, name, k)) else 0
  }

  // The most expensive target of a collection.
  ghost function DearestChild(plan: Plan, rank: map<string, nat>, name: string, k: nat): nat
    decreases Rank(rank, name), 0, 0, |plan.At(name).Step(k).Targets()| + 1
  {
    ChildWorst(plan, rank, name, k, 0)
  }

  ghost function ChildWorst(plan: Plan, rank: map<string, nat>, name: string, k: nat, j: nat): nat
    decreases Rank(rank, name), 0, 0, |plan.At(name).Step(k).Targets()| - j
  {
    var flows := plan.At(name).Step(k).Targets();
    if j >= |flows| || !Graded(plan, rank) || !CallsAt(plan, name, k, flows[j]) then 0
    else Max(Worst(plan, rank, flows[j]), ChildWorst(plan, rank, name, k, j + 1))
  }

  lemma {:induction false} ChildBound(plan: Plan, rank: map<string, nat>, name: string, k: nat, j: nat, n: string)
    requires Graded(plan, rank) && name in plan.flows && n in Targets(plan.At(name).Step(k), j)
    ensures CallsAt(plan, name, k, n) && Worst(plan, rank, n) <= ChildWorst(plan, rank, name, k, j)
    decreases |plan.At(name).Step(k).Targets()| - j
  {
    var flows := plan.At(name).Step(k).Targets();
    assert CallsAt(plan, name, k, flows[j]);
    if n != flows[j] {
      ChildBound(plan, rank, name, k, j + 1, n);
    }
  }

  // The targets of a collection from number j on.
  function Targets(step: Step, j: nat): seq<string> {
    if j <= |step.Targets()| then step.Targets()[j..] else []
  }

  // ---- What a bound promises -----------------------------------------------------------

  // At most `bound` steps were consumed; and when the budget covers the bound, the
  // limit was not the reason of a failure.
  ghost predicate Within(e: Engine, w: World, bound: int, w': World, limited: bool) {
    && w'.consumed <= w.consumed + bound
    && (Silent(e, StepLimitReached) && w.consumed + bound <= e.maxSteps ==> !limited)
  }

  // ---- One mutual induction over the engine ----------------------------------------------

  lemma {:induction false} FlowWithin(e: Engine, rank: map<string, nat>, name: string, payload: Json, w: World,
                                      depth: int)
    requires Graded(e.plan, rank) && name in e.plan.flows
    ensures var run := ExecuteFlow(e, e.plan.At(name), payload, w, depth);
            Within(e, w, FlowWorst(e.plan, rank, name), run.world, FailsWith(run.record.error, StepLimitReached))
    decreases LIMIT - depth, 2, |e.plan.At(name).steps| + 1
  {
    StepsWithin(e, rank, name, payload, 0, Progress(SkippedSteps(e.plan.At(name).steps), NO_USAGE, w), depth);
  }

  lemma {:induction false} StepsWithin(e: Engine, rank: map<string, nat>, name: string, payload: Json, k: nat,
                                       p: Progress, depth: int)
    requires Graded(e.plan, rank) && name in e.plan.flows
    ensures var run := RunSteps(e, e.plan.At(name), payload, k, p, depth);
            Within(e, p.world, Own(e.plan, rank, name, k), run.world, FailsWith(run.record.error, StepLimitReached))
    decreases LIMIT - depth, 2, |e.plan.At(name).steps| - k
  {
    var flow := e.plan.At(name);
    if k >= |flow.steps| {
      ProjectWithin(e, flow, payload, p, Completed, []);
    } else {
      StepWithin(e, rank, name, k, payload, p, depth);
      match RunStep(e, flow.steps[k], payload, p, depth)
      case Interrupted(exn, active, p') =>
        RecordedCode(e, exn, p'.world);
      case Bypassed(p') =>
        StepsWithin(e, rank, name, payload, k + 1, p', depth);
      case Ran(record, issues, p') =>
        if record.status == NeedsReview {
          ProjectWithin(e, flow, payload, p', NeedsReview, issues);
        } else if record.status != Failed {
          StepsWithin(e, rank, name, payload, k + 1, p', depth);
        }
    }
  }

  lemma ProjectWithin(e: Engine, flow: Flow, payload: Json, p: Progress, status: Status, issues: seq<Issue>)
    ensures var run := Project(e, flow, payload, p, status, issues);
            Within(e, p.world, 0, run.world, FailsWith(run.record.error, StepLimitReached))
  {
    if flow.output.Some? {
      BindingErrors(flow.output.value, Context(e, payload, p));
      var result := ResolveBinding(flow.output.value, Context(e, payload, p));
      if result.Err? {
        RecordedCode(e, Error(result.error), p.world);
      }
    }
  }

  predicate StepLimited(run: StepRun) {
    match run
    case Interrupted(exn, _, _) => Reports(exn, StepLimitReached)
    case Bypassed(_) => false
    case Ran(record, _, _) => FailsWith(record.error, StepLimitReached)
  }

  lemma {:induction false} StepWithin(e: Engine, rank: map<string, nat>, name: string, k: nat, payload: Json,
                                      p: Progress, depth: int)
    requires Graded(e.plan, rank) && name in e.plan.flows
    ensures var run := RunStep(e, e.plan.At(name).Step(k), payload, p, depth);
            Within(e, p.world, StepWorst(e.plan, rank, name, k), run.progress.world, StepLimited(run))
    decreases LIMIT - depth, 1, 1
  {
    var step := e.plan.At(name).Step(k);
    if step.guard.Some? {
      ConditionErrors(step.guard.value, Context(e, payload, p), e.matcher);
    }
    var p1 := p.(world := p.world.Next());
    if !e.expired(p.world.tick) && Guard(e, step, Context(e, payload, p)) == Ok(true) {
      EnterWithin(e, rank, name, k, payload, p1, depth);
    }
  }

  lemma {:induction false} EnterWithin(e: Engine, rank: map<string, nat>, name: string, k: nat, payload: Json,
                                       p: Progress, depth: int)
    requires Graded(e.plan, rank) && name in e.plan.flows
    ensures var run := EnterStep(e, e.plan.At(name).Step(k), payload, p, depth);
            Within(e, p.world, StepWorst(e.plan, rank, name, k), run.progress.world, StepLimited(run))
    decreases LIMIT - depth, 1, 0
  {
    var step := e.plan.At(name).Step(k);
    if p.world.consumed < e.maxSteps {
      var p1 := p.(world := p.world.(consumed := p.world.consumed + 1));
      ArgumentErrors(step.Arguments(), 0, map[], Context(e, payload, p));
      var inputs := ResolveAll(step.Arguments(), Context(e, payload, p));
      if inputs.Ok? {
        EnterRuns(e, step, payload, p, p1, inputs.value, depth);
        if step.Collection? {
          CollectionWithin(e, rank, name, k, inputs.value, p1.world, depth);
        } else {
          OperationWithin(e, step, inputs.value, p1);
        }
      }
    }
  }

  lemma OperationWithin(e: Engine, step: Step, inputs: Object, p: Progress)
    ensures var run := RunOperation(e, step, inputs, p);
            Within(e, p.world, 0, run.progress.world, StepLimited(run))
  {
    var reply := e.execute(p.world.tick, step, inputs).reply;
  }

  predicate CollectionLimited(result: Result<StepRecord, Exn>) {
    match result
    case Err(exn) => Reports(exn, StepLimitReached)
    case Ok(record) => FailsWith(record.error, StepLimitReached)
  }

  lemma {:induction false} CollectionWithin(e: Engine, rank: map<string, nat>, name: string, k: nat, inputs: Object,
                                            w: World, depth: int)
    requires Graded(e.plan, rank) && name in e.plan.flows
    ensures var step := e.plan.At(name).Step(k);
            var run := ExecuteCollection(e, step, inputs, w, depth);
            Within(e, w, Times(step.Capacity(), DearestChild(e.plan, rank, name, k)), run.1, CollectionLimited(run.0))
    decreases LIMIT - depth, 0, 0
  {
    var step := e.plan.At(name).Step(k);
    var child := DearestChild(e.plan, rank, name, k);
    if depth < LIMIT && ItemsOnly(step, inputs) {
      var raw := RawItems(inputs);
      ItemsChecked(e, step, raw, [], {}, w);
      var (checked, w1) := CheckItems(e, step, raw, [], {}, w);
      if checked.Ok? {
        var items := checked.value;
        BatchWithin(e, rank, name, k, items);
        ItemsWithin(e, rank, 0, EmptyBatch(e.plan, items), w1, depth + 1, child);
        TimesMonotone(|items|, step.Capacity(), child);
        BatchRuns(e, step, inputs, w, depth, items, w1);
      }
    }
  }

  // The items of a checked batch cost no more than the dearest target.
  lemma BatchWithin(e: Engine, rank: map<string, nat>, name: string, k: nat, items: seq<Item>)
    requires Graded(e.plan, rank) && name in e.plan.flows && Batchable(e, e.plan.At(name).Step(k), items)
    ensures AllWithin(e.plan, rank, EmptyBatch(e.plan, items).entries, DearestChild(e.plan, rank, name, k))
    ensures Left(EmptyBatch(e.plan, items), 0) == |items| && EmptyBatch(e.plan, items).failure.None?
  {
    forall i | 0 <= i < |items|
      ensures KnownWithin(e.plan, rank, items[i].flow, DearestChild(e.plan, rank, name, k))
    {
      assert ItemFits(e, e.plan.At(name).Step(k), items[i]);
      ChildBound(e.plan, rank, name, k, 0, items[i].flow);
    }
  }

  predicate BatchLimited(result: Result<Batch, Exn>) {
    match result
    case Err(exn) => Reports(exn, StepLimitReached)
    case Ok(batch) => FailsWith(batch.failure, StepLimitReached)
  }

  lemma {:induction false} ItemsWithin(e: Engine, rank: map<string, nat>, k: nat, batch: Batch, w: World, depth: int,
                                       child: nat)
    requires Graded(e.plan, rank) && batch.failure.None?
    requires AllWithin(e.plan, rank, batch.entries, child)
    ensures var run := RunItems(e, k, batch, w, depth);
            Within(e, w, Times(Left(batch, k), child), run.1, BatchLimited(run.0))
    decreases LIMIT - depth, 6, |batch.entries| - k
  {
    if k < |batch.entries| {
      var item := batch.entries[k].item;
      assert KnownWithin(e.plan, rank, item.flow, child);
      ItemWithin(e, rank, item.flow, item.payload, w, depth);
      var run := RunItem(e, e.plan.At(item.flow), item.payload, w, depth);
      if run.outcome.Ok? && !run.outcome.value.Stops() {
        ItemsWithin(e, rank, k + 1, Entered(batch, k, run.outcome.value), run.world, depth, child);
      }
    }
  }

  ghost predicate KnownWithin(plan: Plan, rank: map<string, nat>, n: string, child: nat) {
    n in plan.flows && Worst(plan, rank, n) <= child
  }

  ghost predicate AllWithin(plan: Plan, rank: map<string, nat>, entries: seq<Entry>, child: nat) {
    forall i | 0 <= i < |entries| :: KnownWithin(plan, rank, entries[i].item.flow, child)
  }

  // The items that have not run.
  function Left(batch: Batch, k: nat): nat {
    if k <= |batch.entries| then |batch.entries| - k else 0
  }

  predicate ItemLimited(outcome: Result<ItemDone, Exn>) {
    match outcome
    case Err(exn) => Reports(exn, StepLimitReached)
    case Ok(done) => FailsWith(done.failure, StepLimitReached) || FailsWith(done.record.error, StepLimitReached)
  }

  lemma {:induction false} ItemWithin(e: Engine, rank: map<string, nat>, name: string, payload: Object, w: World,
                                      depth: int)
    requires Graded(e.plan, rank) && name in e.plan.flows
    ensures var run := RunItem(e, e.plan.At(name), payload, w, depth);
            Within(e, w, Worst(e.plan, rank, name), run.world, ItemLimited(run.outcome))
    decreases LIMIT - depth, 5, 0
  {
    match e.plan.At(name).repeat
    case None => FlowWithin(e, rank, name, Obj(payload), w, depth);
    case Some(repeat) =>
      LoopWithin(e, rank, name, Some(payload), Obj(payload), Obj(payload), [], map[], w, depth);
      if repeat.maxAttempts > 0 {
        RemainingClosed(e.plan, rank, name, 0);
      }
  }

  predicate LoopLimited(loop: Loop) {
    match loop.outcome
    case Err(exn) => Reports(exn, StepLimitReached)
    case Ok(halted) => FailsWith(halted.failure, StepLimitReached) || FailsWith(loop.last.error, StepLimitReached)
  }

  // The attempts that remain, each but the last with the retry run after it.
  ghost function Remaining(plan: Plan, rank: map<string, nat>, name: string, done: int): nat
    decreases plan.At(name).Repeating().maxAttempts - done
  {
    var max := plan.At(name).Repeating().maxAttempts;
    if done >= max then 0
    else
      FlowWorst(plan, rank, name)
      + (if done + 1 < max then RetryWorst(plan, rank, name) else 0)
      + Remaining(plan, rank, name, done + 1)
  }

  lemma {:induction false} RemainingClosed(plan: Plan, rank: map<string, nat>, name: string, done: nat)
    requires done < plan.At(name).Repeating().maxAttempts
    ensures var max := plan.At(name).Repeating().maxAttempts;
            Remaining(plan, rank, name, done) ==
            Times(max - done, FlowWorst(plan, rank, name)) + Times(max - done - 1, RetryWorst(plan, rank, name))
    decreases plan.At(name).Repeating().maxAttempts - done
  {
    var max := plan.At(name).Repeating().maxAttempts;
    if done + 1 < max {
      RemainingClosed(plan, rank, name, done + 1);
    } else {
      assert Remaining(plan, rank, name, done + 1) == 0;
    }
  }

  // Multiplication by repeated addition, the form the inductions use.
  function Times(n: nat, c: nat): nat {
    if n == 0 then 0 else c + Times(n - 1, c)
  }

  lemma {:induction false} TimesIsProduct(n: nat, c: nat)
    ensures Times(n, c) == n * c
  {
    if n > 0 {
      TimesIsProduct(n - 1, c);
      assert n * c == (n - 1) * c + c;
    }
  }

  lemma {:induction false} TimesMonotone(m: nat, n: nat, c: nat)
    requires m <= n
    ensures Times(m, c) <= Times(n, c)
  {
    if m > 0 {
      TimesMonotone(m - 1, n - 1, c);
    }
  }

  lemma {:induction false} LoopWithin(e: Engine, rank: map<string, nat>, name: string, item: Option<Object>,
                                      scope: Json, input: Json, attempts: seq<FlowRecord>, records: FlowRecords,
                                      w: World, depth: int)
    requires Graded(e.plan, rank) && name in e.plan.flows
    ensures var flow := e.plan.At(name);
            var loop := Attempts(e, flow, flow.Repeating(), item, scope, input, attempts, records, w, depth);
            Within(e, w, Remaining(e.plan, rank, name, |attempts|), loop.world, LoopLimited(loop))
    decreases LIMIT - depth, 4, e.plan.At(name).Repeating().maxAttempts - |attempts|, 0
  {
    var flow := e.plan.At(name);
    var repeat := flow.Repeating();
    if |attempts| < repeat.maxAttempts {
      FlowWithin(e, rank, name, input, w, depth);
      var run := ExecuteFlow(e, flow, input, w, depth);
      var attempts' := attempts + [run.record];
      var records' := records[flow.name := run.record.(attempts := attempts')];
      DecideWithin(e, rank, name, item, scope, run, |attempts'|, records', depth);
      TurnWithin(e, rank, name, item, scope, run, attempts',
                 Decide(e, flow, repeat, item, scope, run, |attempts'|, records', depth), depth);
    }
  }

  // What follows a decision within the bound of the retry run, when the run kept to the limit.
  lemma {:induction false} TurnWithin(e: Engine, rank: map<string, nat>, name: string, item: Option<Object>,
                                      scope: Json, run: FlowRun, attempts: seq<FlowRecord>, decided: Decided,
                                      depth: int)
    requires Graded(e.plan, rank) && name in e.plan.flows
    ensures var flow := e.plan.At(name);
            var loop := Proceed(e, flow, flow.Repeating(), item, scope, run.record, attempts, decided, depth);
            Within(e, decided.world, Remaining(e.plan, rank, name, |attempts|), loop.world,
                   LoopLimited(loop) && !FailsWith(run.record.error, StepLimitReached)
                   && !DecisionLimited(decided.outcome))
    decreases LIMIT - depth, 4, e.plan.At(name).Repeating().maxAttempts - |attempts|, 1
  {
    var flow := e.plan.At(name);
    match decided.outcome
    case Err(_) =>
    case Ok(Halt(_)) =>
    case Ok(Again(next)) =>
      LoopWithin(e, rank, name, item, scope, Obj(next), attempts,
                 decided.records[flow.name := run.record.(attempts := attempts)], decided.world, depth);
  }

  predicate DecisionLimited(outcome: Result<Decision, Exn>) {
    match outcome
    case Err(exn) => Reports(exn, StepLimitReached)
    case Ok(Halt(halted)) => FailsWith(halted.failure, StepLimitReached)
    case Ok(Again(_)) => false
  }

  lemma {:induction false} DecideWithin(e: Engine, rank: map<string, nat>, name: string, item: Option<Object>,
                                        scope: Json, run: FlowRun, attempt: int, records: FlowRecords, depth: int)
    requires Graded(e.plan, rank) && name in e.plan.flows
    ensures var flow := e.plan.At(name);
            var decided := Decide(e, flow, flow.Repeating(), item, scope, run, attempt, records, depth);
            Within(e, run.world, if attempt < flow.Repeating().maxAttempts then RetryWorst(e.plan, rank, name) else 0,
                   decided.world, DecisionLimited(decided.outcome))
    decreases LIMIT - depth, 3, 2
  {
    var flow := e.plan.At(name);
    var repeat := flow.Repeating();
    ConditionErrors(repeat.until, WorkflowContext(scope, e.metadata, records), e.matcher);
    if run.record.status != Failed && run.record.status != NeedsReview
       && Evaluate(repeat.until, WorkflowContext(scope, e.metadata, records), e.matcher) == Ok(false)
       && attempt < repeat.maxAttempts {
      match repeat.retryFlow
      case None => PrepareWithin(e, flow, repeat, item, scope, run.issues, records, run.world);
      case Some(retry) =>
        assert HasRetry(e.plan, name, retry);
        RetryWithin(e, rank, name, retry, item, scope, run.issues, records, run.world, depth);
    }
  }

  lemma {:induction false} RetryWithin(e: Engine, rank: map<string, nat>, name: string, retry: string,
                                       item: Option<Object>, scope: Json, issues: seq<Issue>, records: FlowRecords,
                                       w: World, depth: int)
    requires Graded(e.plan, rank) && HasRetry(e.plan, name, retry)
    ensures var flow := e.plan.At(name);
            var decided := RunRetry(e, flow, flow.Repeating(), e.plan.At(retry), item, scope, issues, records, w,
                                    depth);
            Within(e, w, RetryWorst(e.plan, rank, name), decided.world, DecisionLimited(decided.outcome))
    decreases LIMIT - depth, 3, 0
  {
    var flow := e.plan.At(name);
    var repeat := flow.Repeating();
    InputErrors(e, retry, repeat.retryFlowInput, WorkflowContext(scope, e.metadata, records));
    match FlowInput(e, retry, repeat.retryFlowInput, WorkflowContext(scope, e.metadata, records))
    case Err(exn) => RecordedCode(e, exn, w);
    case Ok(inputs) =>
      FlowWithin(e, rank, retry, Obj(inputs), w, depth);
      AfterRetryWithin(e, flow, repeat, e.plan.At(retry), item, scope, issues, records,
                       ExecuteFlow(e, e.plan.At(retry), Obj(inputs), w, depth));
  }

  lemma AfterRetryWithin(e: Engine, flow: Flow, repeat: Repeat, retry: Flow, item: Option<Object>, scope: Json,
                         issues: seq<Issue>, records: FlowRecords, run: FlowRun)
    ensures var decided := AfterRetry(e, flow, repeat, retry, item, scope, issues, records, run);
            && decided.world.consumed == run.world.consumed
            && ((Silent(e, StepLimitReached) && run.world.consumed <= e.maxSteps
                 && !FailsWith(run.record.error, StepLimitReached)) ==> !DecisionLimited(decided.outcome))
  {
    var records' := records[retry.name := RetryRecord(run.record, RunsOf(records, retry.name))];
    var decided := AfterRetry(e, flow, repeat, retry, item, scope, issues, records, run);
    if run.record.status != Failed && run.record.status != NeedsReview {
      if repeat.continueWhen.Some? {
        ConditionErrors(repeat.continueWhen.value, WorkflowContext(scope, e.metadata, records'), e.matcher);
      }
      PrepareWithin(e, flow, repeat, item, scope, issues, records', run.world);
      assert || decided == Prepare(e, flow, repeat, item, scope, issues, records', run.world)
             || (decided.world == run.world && !DecisionLimited(decided.outcome));
    } else {
      assert decided.outcome.Ok? && decided.outcome.value.Halt? && decided.world == run.world;
    }
  }

  lemma PrepareWithin(e: Engine, flow: Flow, repeat: Repeat, item: Option<Object>, scope: Json, issues: seq<Issue>,
                      records: FlowRecords, w: World)
    ensures var decided := Prepare(e, flow, repeat, item, scope, issues, records, w);
            Within(e, w, 0, decided.world, DecisionLimited(decided.outcome))
  {
    var context := WorkflowContext(scope, e.metadata, records);
    InputErrors(e, flow.name, Override(flow.input, repeat.retryInput), context);
    ArgumentErrors(repeat.retryInput, 0, map[], context);
    var next := if e.expired(w.tick) then Err(Error(RunTimeout)) else NextInput(e, flow, repeat, item, context);
    if next.Err? {
      RecordedCode(e, next.error, w.Next());
    }
  }

  // ---- The most expensive routed path ------------------------------------------------

  ghost predicate GradedRoutes(plan: Plan, rank: map<string, nat>) {
    && Graded(plan, rank)
    && forall a, n {:trigger RoutesTo(plan, a, n)} | RoutesTo(plan, a, n) ::
         n in plan.flows && Rank(rank, n) < Rank(rank, a)
  }

  ghost predicate Below(plan: Plan, rank: map<string, nat>, limit: nat, names: seq<string>) {
    forall n | n in names :: n in plan.flows && Rank(rank, n) < limit
  }

  ghost function PathCost(plan: Plan, rank: map<string, nat>, name: string): nat
    decreases Rank(rank, name), 1, 0
  {
    Worst(plan, rank, name) + Dearest(plan, rank, Rank(rank, name), FlowNames(FlowTargets(plan.At(name))))
  }

  lemma SuccessorsBelow(plan: Plan, rank: map<string, nat>, name: string)
    requires GradedRoutes(plan, rank) && name in plan.flows
    ensures Below(plan, rank, Rank(rank, name), FlowNames(FlowTargets(plan.At(name))))
  {
    var names := FlowNames(FlowTargets(plan.At(name)));
    forall n | n in names ensures n in plan.flows && Rank(rank, n) < Rank(rank, name) {
      assert RoutesTo(plan, name, n);
    }
  }

  // The most expensive path from any of the names.
  ghost function Dearest(plan: Plan, rank: map<string, nat>, limit: nat, names: seq<string>): nat
    decreases limit, 0, |names|
  {
    if names == [] || !Below(plan, rank, limit, names) then 0
    else
      var last := |names| - 1;
      Max(Dearest(plan, rank, limit, names[..last]), PathCost(plan, rank, names[last]))
  }

  lemma {:induction false} DearestBound(plan: Plan, rank: map<string, nat>, limit: nat, names: seq<string>, n: string)
    requires GradedRoutes(plan, rank) && Below(plan, rank, limit, names) && n in names
    ensures n in plan.flows && PathCost(plan, rank, n) <= Dearest(plan, rank, limit, names)
    decreases |names|
  {
    var last := |names| - 1;
    if n != names[last] {
      DearestBound(plan, rank, limit, names[..last], n);
    }
  }

  lemma SuccessorCost(plan: Plan, rank: map<string, nat>, a: string, n: string)
    requires GradedRoutes(plan, rank) && RoutesTo(plan, a, n)
    ensures n in plan.flows && Worst(plan, rank, a) + PathCost(plan, rank, n) <= PathCost(plan, rank, a)
  {
    SuccessorsBelow(plan, rank, a);
    DearestBound(plan, rank, Rank(rank, a), FlowNames(FlowTargets(plan.At(a))), n);
  }

  // ---- It is the maximum over explicit paths ------------------------------------------

  // Flows from this one on, each routed to the next.
  predicate RoutedPath(plan: Plan, name: string, path: seq<string>)
    decreases |path|
  {
    && path != [] && path[0] == name && name in plan.flows
    && (|path| > 1 ==> RoutesTo(plan, name, path[1]) && RoutedPath(plan, path[1], path[1..]))
  }

  // The worst cases along the path.
  ghost function Cost(plan: Plan, rank: map<string, nat>, path: seq<string>): nat {
    if path == [] then 0 else Worst(plan, rank, path[0]) + Cost(plan, rank, path[1..])
  }

  lemma {:induction false} PathWithin(plan: Plan, rank: map<string, nat>, name: string, path: seq<string>)
    requires GradedRoutes(plan, rank) && RoutedPath(plan, name, path)
    ensures Cost(plan, rank, path) <= PathCost(plan, rank, name)
    decreases |path|
  {
    if |path| > 1 {
      PathWithin(plan, rank, path[1], path[1..]);
      SuccessorCost(plan, rank, name, path[1]);
    } else {
      assert path[1..] == [];
    }
  }

  lemma {:induction false} DearestIsOne(plan: Plan, rank: map<string, nat>, limit: nat, names: seq<string>)
    returns (n: string)
    requires GradedRoutes(plan, rank) && Below(plan, rank, limit, names) && names != []
    ensures n in names && n in plan.flows && PathCost(plan, rank, n) == Dearest(plan, rank, limit, names)
    decreases |names|
  {
    var last := |names| - 1;
    n := names[last];
    if last > 0 && Dearest(plan, rank, limit, names[..last]) > PathCost(plan, rank, n) {
      n := DearestIsOne(plan, rank, limit, names[..last]);
    }
  }

  lemma {:induction false} DearestPath(plan: Plan, rank: map<string, nat>, name: string) returns (path: seq<string>)
    requires GradedRoutes(plan, rank) && name in plan.flows
    ensures RoutedPath(plan, name, path) && Cost(plan, rank, path) == PathCost(plan, rank, name)
    decreases Rank(rank, name)
  {
    SuccessorsBelow(plan, rank, name);
    var names := FlowNames(FlowTargets(plan.At(name)));
    path := [name];
    if names == [] {
      assert path[1..] == [];
    } else {
      var n := DearestIsOne(plan, rank, Rank(rank, name), names);
      assert RoutesTo(plan, name, n);
      var rest := DearestPath(plan, rank, n);
      path := [name] + rest;
      assert path[1..] == rest;
    }
  }

  // The computed cost is the largest over all routed paths from the flow.
  lemma CostIsMaximum(plan: Plan, rank: map<string, nat>, name: string, cost: nat)
    requires GradedRoutes(plan, rank) && name in plan.flows
    ensures cost == PathCost(plan, rank, name) <==>
            && (forall path | RoutedPath(plan, name, path) :: Cost(plan, rank, path) <= cost)
            && (exists path :: RoutedPath(plan, name, path) && Cost(plan, rank, path) == cost)
  {
    forall path | RoutedPath(plan, name, path) ensures Cost(plan, rank, path) <= PathCost(plan, rank, name) {
      PathWithin(plan, rank, name, path);
    }
    var dearest := DearestPath(plan, rank, name);
  }

  // ---- One routed flow and the whole run -----------------------------------------------

  predicate BoundaryLimited(outcome: Result<Boundary, Exn>) {
    match outcome
    case Err(exn) => Reports(exn, StepLimitReached)
    case Ok(Stopped(failure)) => FailsWith(failure, StepLimitReached)
    case Ok(Next(_)) => false
  }

  predicate OnlyDataErrors<T>(result: Result<T, Exn>) {
    match result
    case Err(Service(code, _)) => DataError(code)
    case Err(Unexpected) => false
    case Ok(_) => true
  }

  lemma SelectionErrors(e: Engine, flow: Flow, status: Status, issues: seq<Issue>, context: Json)
    ensures OnlyDataErrors(SelectTarget(e, flow, status, issues, context))
  {
    if flow.onUnresolved.Some? && flow.onUnresolved.value.ReviewConditional? {
      EntryErrors(e, flow.onUnresolved.value.entries, 0, context);
    }
    if flow.transition.Some? {
      match flow.transition.value
      case Direct(_) =>
      case Cases(binding, _, _, _) => BindingErrors(binding, context);
      case Conditional(entries) => EntryErrors(e, entries, 0, context);
    }
  }

  lemma {:induction false} EntryErrors(e: Engine, entries: seq<RouteEntry>, k: nat, context: Json)
    requires k <= |entries|
    ensures OnlyDataErrors(SelectEntry(e, entries, k, context))
    decreases |entries| - k
  {
    if k < |entries| && entries[k].condition.Some? {
      ConditionErrors(entries[k].condition.value, context, e.matcher);
      EntryErrors(e, entries, k + 1, context);
    }
  }

  lemma LeaveWithin(e: Engine, flow: Flow, payload: Json, record: FlowRecord, failure: Option<Failure>,
                    issues: seq<Issue>, records: FlowRecords, w: World)
    ensures var routed := Leave(e, flow, payload, record, failure, issues, records, w);
            && routed.world == w
            && (BoundaryLimited(routed.outcome) ==>
                  FailsWith(failure, StepLimitReached) || FailsWith(record.error, StepLimitReached))
  {
    SelectionErrors(e, flow, record.status, issues, WorkflowContext(payload, e.metadata, records));
  }

  lemma RepeatWithin(e: Engine, rank: map<string, nat>, name: string, payload: Json, input: Json, records: FlowRecords,
                     w: World)
    requires Graded(e.plan, rank) && name in e.plan.flows && e.plan.At(name).repeat.Some?
    ensures var flow := e.plan.At(name);
            var loop := Attempts(e, flow, flow.Repeating(), None, payload, input, [], records, w, 0);
            Within(e, w, Worst(e.plan, rank, name), loop.world, LoopLimited(loop))
  {
    LoopWithin(e, rank, name, None, payload, input, [], records, w, 0);
    if e.plan.At(name).Repeating().maxAttempts > 0 {
      RemainingClosed(e.plan, rank, name, 0);
    }
  }

  lemma RoutedWithin(e: Engine, rank: map<string, nat>, name: string, payload: Json, records: FlowRecords,
                     active: Option<string>, w: World)
    requires Graded(e.plan, rank) && name in e.plan.flows
    ensures var routed := RunRouted(e, e.plan.At(name), payload, records, active, w);
            Within(e, w, Worst(e.plan, rank, name), routed.world, BoundaryLimited(routed.outcome))
  {
    var flow := e.plan.At(name);
    InputErrors(e, flow.name, flow.input, WorkflowContext(payload, e.metadata, records));
    var bound := FlowInput(e, flow.name, flow.input, WorkflowContext(payload, e.metadata, records));
    if !e.expired(w.tick) && bound.Ok? {
      match flow.repeat
      case None =>
        FlowWithin(e, rank, name, Obj(bound.value), w.Next(), 0);
        var run := ExecuteFlow(e, flow, Obj(bound.value), w.Next(), 0);
        LeaveWithin(e, flow, payload, run.record, None, run.issues, records[flow.name := run.record], run.world);
      case Some(repeat) =>
        RepeatWithin(e, rank, name, payload, Obj(bound.value), records, w.Next());
        var loop := Attempts(e, flow, repeat, None, payload, Obj(bound.value), [], records, w.Next(), 0);
        if loop.outcome.Ok? {
          LeaveWithin(e, flow, payload, loop.last, loop.outcome.value.failure, loop.outcome.value.issues,
                      loop.records, loop.world);
        }
    }
  }

  predicate DriveLimited(outcome: Result<(Status, Option<Failure>), Exn>) {
    match outcome
    case Err(exn) => Reports(exn, StepLimitReached)
    case Ok((_, failure)) => FailsWith(failure, StepLimitReached)
  }

  lemma RoutedLeads(e: Engine, flow: Flow, payload: Json, records: FlowRecords, active: Option<string>, w: World)
    ensures LeadsInto(flow, RunRouted(e, flow, payload, records, active, w))
  {
    forall record: FlowRecord, failure, issues, after, w'
      ensures LeadsInto(flow, Leave(e, flow, payload, record, failure, issues, after, w'))
    {
      TargetAuthored(e, flow, record.status, issues, WorkflowContext(payload, e.metadata, after));
    }
  }

  // It leads to a routed successor, if to a flow.
  predicate LeadsInto(flow: Flow, routed: RoutedRun) {
    match Following(routed)
    case None => true
    case Some(next) => next in FlowNames(FlowTargets(flow))
  }

  lemma {:induction false} DriveWithin(e: Engine, rank: map<string, nat>, payload: Json, current: string,
                                       visited: set<string>, records: FlowRecords, transitions: seq<TransitionRecord>,
                                       w: World)
    requires GradedRoutes(e.plan, rank) && current in e.plan.flows
    ensures var d := DriveFrom(e, payload, current, visited, records, transitions, w);
            Within(e, w, PathCost(e.plan, rank, current), d.world, DriveLimited(d.outcome))
    decreases Rank(rank, current)
  {
    if Enters(e, current, visited, w) {
      RoutedWithin(e, rank, current, payload, records, None, w.Next());
      RoutedLeads(e, e.plan.At(current), payload, records, None, w.Next());
      var routed := RunRouted(e, e.plan.At(current), payload, records, None, w.Next());
      if Following(routed).Some? {
        var transition, next := routed.outcome.value.transition, Following(routed).value;
        assert RoutesTo(e.plan, current, next);
        SuccessorCost(e.plan, rank, current, next);
        DriveGoesOn(e, payload, current, visited, records, transitions, w, routed, transition, next);
        DriveWithin(e, rank, payload, next, visited + {current}, routed.records, transitions + [transition],
                    routed.world);
      }
    }
  }

  ghost predicate Covers(plan: Plan, rank: map<string, nat>, maxSteps: nat) {
    forall s | s in StartCandidates(plan.start) :: s in plan.flows && PathCost(plan, rank, s) <= maxSteps
  }

  // The budget bound is sound: a run started with an unreported budget consumes at
  // most that many steps and never fails because of the limit.
  lemma BudgetSound(e: Engine, rank: map<string, nat>, payload: Json, w: World)
    requires GradedRoutes(e.plan, rank) && Covers(e.plan, rank, e.maxSteps) && w.consumed == 0
    ensures Run(e, payload, w).world.consumed <= e.maxSteps
    ensures Silent(e, StepLimitReached) ==> !FailsWith(Run(e, payload, w).error, StepLimitReached)
  {
    StartAuthored(e, payload);
    if e.plan.start.StartRoute? {
      EntryErrors(e, e.plan.start.entries, 0, StartContext(payload, e.metadata));
    }
    var records := InitialRecords(e.plan);
    var selected := SelectStart(e, payload);
    if selected.Err? {
      CrashCode(e, payload, selected.error, records, None, [], None, w);
    } else {
      var start := selected.value;
      DriveWithin(e, rank, payload, start.flow, {}, records, [], w);
      var d := DriveFrom(e, payload, start.flow, {}, records, [], w);
      if d.outcome.Err? {
        CrashCode(e, payload, d.outcome.error, d.records, d.active, d.transitions, Some(start), d.world);
      } else {
        FinishCode(e, payload, d.outcome.value.0, d.outcome.value.1, d.records, d.transitions, start, d.world);
      }
    }
  }

  // So it is of every accepted plan: the compiler's ranks are such.
  lemma AcceptedStaysWithin(e: Engine, rank: map<string, nat>, depths: map<string, nat>, payload: Json, w: World)
    requires AuthoredPlan(e.plan) && Certified(e.plan, rank, depths) && w.consumed == 0
    ensures GradedRoutes(e.plan, rank)
    ensures Covers(e.plan, rank, e.maxSteps) ==>
              && Run(e, payload, w).world.consumed <= e.maxSteps
              && (Silent(e, StepLimitReached) ==> !FailsWith(Run(e, payload, w).error, StepLimitReached))
  {
    CertifiedIsGraded(e.plan, rank, depths);
    forall a, n | RoutesTo(e.plan, a, n) ensures n in e.plan.flows && Rank(rank, n) < Rank(rank, a) {
      RouteFalls(e.plan, rank, depths, a, n);
    }
    if Covers(e.plan, rank, e.maxSteps) {
      BudgetSound(e, rank, payload, w);
    }
  }

  lemma FinishCode(e: Engine, payload: Json, status: Status, error: Option<Failure>, records: FlowRecords,
                   transitions: seq<TransitionRecord>, start: StartRecord, w: World)
    ensures var r := Finish(e, payload, status, error, records, transitions, start, w);
            && r.world.consumed == w.consumed
            && (FailsWith(r.error, StepLimitReached) ==> FailsWith(error, StepLimitReached))
  {
    var context := WorkflowContext(payload, e.metadata, records);
    if status != Failed && e.plan.output.Some? {
      BindingErrors(e.plan.output.value, context);
      var output := Bindings.ResolveBinding(e.plan.output.value, context);
      if output.Err? {
        CrashCode(e, payload, Error(output.error), records, None, transitions, Some(start), w);
      }
    }
    CrashCode(e, payload, Error(RunTimeout), records, None, transitions, Some(start), w.Next());
  }

  // ---- The check as it is written --------------------------------------------------------

  ghost predicate MemoSound(plan: Plan, rank: map<string, nat>, memo: map<string, nat>) {
    forall n | n in memo :: n in plan.flows && memo[n] == Worst(plan, rank, n)
  }

  // `_worst_steps` with its memo.
  method WorstSteps(plan: Plan, name: string, known: map<string, nat>, ghost rank: map<string, nat>)
    returns (total: nat, memo: map<string, nat>)
    requires Graded(plan, rank) && name in plan.flows && MemoSound(plan, rank, known)
    ensures total == Worst(plan, rank, name) && MemoSound(plan, rank, memo)
    decreases Rank(rank, name), 2
  {
    memo := known;
    if name in memo {
      return memo[name], memo;
    }
    var flow := plan.At(name);
    var own := 0;
    for k := 0 to |flow.steps|
      invariant MemoSound(plan, rank, memo)
      invariant own + Own(plan, rank, name, k) == FlowWorst(plan, rank, name)
    {
      own := own + 1;
      if flow.steps[k].Collection? {
        var child;
        child, memo := CostliestChild(plan, name, k, memo, rank);
        TimesIsProduct(flow.steps[k].maxItems, child);
        own := own + flow.steps[k].maxItems * child;
      }
    }
    total := own;
    if flow.repeat.Some? {
      var repeat := flow.Repeating();
      var retry := 0;
      if repeat.retryFlow.Some? {
        assert HasRetry(plan, name, repeat.retryFlow.value);
        retry, memo := WorstSteps(plan, repeat.retryFlow.value, memo, rank);
      }
      if repeat.maxAttempts == 0 {
        total := 0;
      } else {
        TimesIsProduct(repeat.maxAttempts, own);
        TimesIsProduct(repeat.maxAttempts - 1, retry);
        total := repeat.maxAttempts * own + (repeat.maxAttempts - 1) * retry;
      }
    }
    memo := memo[name := total];
  }

  method CostliestChild(plan: Plan, name: string, k: nat, known: map<string, nat>, ghost rank: map<string, nat>)
    returns (child: nat, memo: map<string, nat>)
    requires Graded(plan, rank) && name in plan.flows && MemoSound(plan, rank, known)
    ensures child == DearestChild(plan, rank, name, k) && MemoSound(plan, rank, memo)
    decreases Rank(rank, name), 1
  {
    var flows := plan.At(name).Step(k).Targets();
    child, memo := 0, known;
    for j := 0 to |flows|
      invariant MemoSound(plan, rank, memo)
      invariant Max(child, ChildWorst(plan, rank, name, k, j)) == DearestChild(plan, rank, name, k)
    {
      assert CallsAt(plan, name, k, flows[j]);
      var cost;
      cost, memo := WorstSteps(plan, flows[j], memo, rank);
      child := Max(child, cost);
    }
  }

  ghost predicate CostSound(plan: Plan, rank: map<string, nat>, longest: map<string, nat>) {
    forall n | n in longest :: n in plan.flows && longest[n] == PathCost(plan, rank, n)
  }

  // `cost`: the most expensive routed path from one flow, memoised in `longest`.
  method LongestPath(plan: Plan, name: string, longest: map<string, nat>, known: map<string, nat>,
                     ghost rank: map<string, nat>)
    returns (cost: nat, longest': map<string, nat>, memo: map<string, nat>)
    requires GradedRoutes(plan, rank) && name in plan.flows
    requires CostSound(plan, rank, longest) && MemoSound(plan, rank, known)
    ensures cost == PathCost(plan, rank, name)
    ensures CostSound(plan, rank, longest') && MemoSound(plan, rank, memo)
    decreases Rank(rank, name), 1
  {
    longest', memo := longest, known;
    if name in longest' {
      return longest'[name], longest', memo;
    }
    var successors := FlowNames(FlowTargets(plan.At(name)));
    SuccessorsBelow(plan, rank, name);
    var tail;
    tail, longest', memo := LongestTail(plan, successors, longest', memo, Rank(rank, name), rank);
    var own;
    own, memo := WorstSteps(plan, name, memo, rank);
    cost := own + tail;
    longest' := longest'[name := cost];
  }

  method LongestTail(plan: Plan, names: seq<string>, longest: map<string, nat>, known: map<string, nat>,
                     ghost limit: nat, ghost rank: map<string, nat>)
    returns (cost: nat, longest': map<string, nat>, memo: map<string, nat>)
    requires GradedRoutes(plan, rank) && Below(plan, rank, limit, names)
    requires CostSound(plan, rank, longest) && MemoSound(plan, rank, known)
    ensures cost == Dearest(plan, rank, limit, names)
    ensures CostSound(plan, rank, longest') && MemoSound(plan, rank, memo)
    decreases limit, 0
  {
    cost, longest', memo := 0, longest, known;
    for k := 0 to |names|
      invariant CostSound(plan, rank, longest') && MemoSound(plan, rank, memo)
      invariant cost == Dearest(plan, rank, limit, names[..k])
    {
      assert names[..k + 1][..k] == names[..k];
      var further;
      further, longest', memo := LongestPath(plan, names[k], longest', memo, rank);
      cost := Max(cost, further);
    }
    assert names[..|names|] == names;
  }

  lemma {:induction false} SomeLimit(plan: Plan, rank: map<string, nat>, names: seq<string>) returns (limit: nat)
    requires GradedRoutes(plan, rank) && forall n | n in names :: n in plan.flows
    ensures Below(plan, rank, limit, names)
    decreases |names|
  {
    if names == [] {
      limit := 0;
    } else {
      var last := |names| - 1;
      assert names[last] in names;
      var rest := SomeLimit(plan, rank, names[..last]);
      limit := Max(rest, Rank(rank, names[last]) + 1);
      forall n | n in names ensures n in plan.flows && Rank(rank, n) < limit {
        assert n == names[last] || n in names[..last];
      }
    }
  }

  lemma DearestWithin(plan: Plan, rank: map<string, nat>, limit: nat, names: seq<string>, most: nat)
    requires GradedRoutes(plan, rank) && Below(plan, rank, limit, names)
    ensures Dearest(plan, rank, limit, names) <= most <==>
            forall n | n in names :: n in plan.flows && PathCost(plan, rank, n) <= most
  {
    forall n | n in names ensures n in plan.flows && PathCost(plan, rank, n) <= Dearest(plan, rank, limit, names) {
      DearestBound(plan, rank, limit, names, n);
    }
    if names != [] {
      var n := DearestIsOne(plan, rank, limit, names);
    }
  }

  // The run_budget warning: reported exactly when some start candidate's most
  // expensive path exceeds the limit.
  method RunBudgetExceeded(plan: Plan, maxSteps: nat, ghost rank: map<string, nat>) returns (exceeded: bool)
    requires GradedRoutes(plan, rank)
    requires forall s | s in StartCandidates(plan.start) :: s in plan.flows
    ensures !exceeded <==> Covers(plan, rank, maxSteps)
  {
    var candidates := StartCandidates(plan.start);
    ghost var limit := SomeLimit(plan, rank, candidates);
    var cost, _, _ := LongestTail(plan, candidates, map[], map[], limit, rank);
    DearestWithin(plan, rank, limit, candidates, maxSteps);
    return cost > maxSteps;
  }
}
