/**
 What the runs of a repeat are given: the first attempt its first input, every later one the
 overridden bindings in the records that stand before it, and each retry run its own bindings.
 */
module RepeatInputs {
  import opened Foundations
  import opened Json
  import opened Bindings
  import opened Overrides
  import opened Plans
  import opened Records
  import opened Engine
  import opened Repeats

  // ---- The input of the next attempt --------------------------------------------------------------

  // The next attempt's input, which the input contract accepts.
  predicate NextBound(e: Engine, flow: Flow, repeat: Repeat, item: Option<Object>, context: Json, next: Object) {
    && e.validate(flow.name, next).None?
    && match item
       case None => Rebinds(flow.input, repeat.retryInput, context, next)
       case Some(payload) => Replaces(payload, repeat.retryInput, context, next)
  }

  // The next input is the one object that is bound so, if there is one.
  lemma NextInputBinds(e: Engine, flow: Flow, repeat: Repeat, item: Option<Object>, context: Json, next: Object)
    requires DistinctPairs(flow.input) && DistinctPairs(repeat.retryInput)
    ensures NextInput(e, flow, repeat, item, context) == Ok(next)
            <==> NextBound(e, flow, repeat, item, context, next)
  {
    match item
    case None =>
      OverrideBinds(flow.input, repeat.retryInput, context, next);
      BindsIff(Override(flow.input, repeat.retryInput), context, next);
    case Some(payload) =>
      ReplacesIff(payload, repeat.retryInput, context, next);
  }

  // ---- One decision ---------------------------------------------------------------------------------

  // The decision to go on carries an input bound in the records it leaves.
  ghost predicate Prepared(e: Engine, flow: Flow, repeat: Repeat, item: Option<Object>, scope: Json, decided: Decided) {
    match decided.outcome
    case Ok(Again(next)) => NextBound(e, flow, repeat, item, WorkflowContext(scope, e.metadata, decided.records), next)
    case _ => true
  }

  // The repeat fails for want of an input only when none can be bound, or after the deadline.
  ghost predicate Excused(e: Engine, flow: Flow, repeat: Repeat, item: Option<Object>, scope: Json, decided: Decided) {
    match decided.outcome
    case Ok(Halt(halted)) =>
      FailedHalt(halted) ==>
        || (decided.world.tick >= 2 && e.expired(decided.world.tick - 2))
        || forall next: Object ::
             !NextBound(e, flow, repeat, item, WorkflowContext(scope, e.metadata, decided.records), next)
    case _ => true
  }

  predicate Overridable(flow: Flow, repeat: Repeat) {
    DistinctPairs(flow.input) && DistinctPairs(repeat.retryInput)
  }

  lemma PrepareBinds(e: Engine, flow: Flow, repeat: Repeat, item: Option<Object>, scope: Json, issues: seq<Issue>,
                     records: FlowRecords, w: World)
    requires Overridable(flow, repeat)
    ensures var decided := Prepare(e, flow, repeat, item, scope, issues, records, w);
            Prepared(e, flow, repeat, item, scope, decided) && Excused(e, flow, repeat, item, scope, decided)
  {
    var context := WorkflowContext(scope, e.metadata, records);
    forall next: Object
      ensures NextBound(e, flow, repeat, item, context, next)
              <==> NextInput(e, flow, repeat, item, context) == Ok(next)
    {
      NextInputBinds(e, flow, repeat, item, context, next);
    }
  }

  // A retry run is an execution on its own bindings, or could not start.
  ghost predicate RetryRanOn(e: Engine, repeat: Repeat, retry: Flow, context: Json, run: FlowRecord) {
    || (exists failure :: run == FailedBeforeRun(retry, failure))
    || exists inputs, w, depth: int {:trigger ExecuteFlow(e, retry, Obj(inputs), w, depth)} ::
         && Binds(repeat.retryFlowInput, context, inputs) && e.validate(retry.name, inputs).None?
         && run == ExecuteFlow(e, retry, Obj(inputs), w, depth).record
  }

  lemma RetryBinds(e: Engine, flow: Flow, repeat: Repeat, retry: Flow, item: Option<Object>, scope: Json,
                   issues: seq<Issue>, records: FlowRecords, w: World, depth: int) returns (run: FlowRecord)
    requires Overridable(flow, repeat)
    ensures var decided := RunRetry(e, flow, repeat, retry, item, scope, issues, records, w, depth);
            && Prepared(e, flow, repeat, item, scope, decided)
            && RanOnce(records, decided.records, retry.name, run)
            && RetryVerdict(e, repeat, scope, decided.records, run, decided.outcome)
            && (run.status == Completed ==> Excused(e, flow, repeat, item, scope, decided))
    ensures RetryRanOn(e, repeat, retry, WorkflowContext(scope, e.metadata, records), run)
  {
    var context := WorkflowContext(scope, e.metadata, records);
    var input := FlowInput(e, retry.name, repeat.retryFlowInput, context);
    if input.Err? {
      run := FailedBeforeRun(retry, RecordFailure(e, input.error, w).0);
    } else {
      var ran := ExecuteFlow(e, retry, Obj(input.value), w, depth);
      run := ran.record;
      FlowRan(e, retry, Obj(input.value), w, depth);
      ArgumentsBind(repeat.retryFlowInput, context, input.value);
      AfterRetryOutcome(e, flow, repeat, retry, item, scope, issues, records, ran);
      AfterRetryBinds(e, flow, repeat, retry, item, scope, issues, records, ran);
      assert RunRetry(e, flow, repeat, retry, item, scope, issues, records, w, depth)
          == AfterRetry(e, flow, repeat, retry, item, scope, issues, records, ran);
    }
  }

  lemma AfterRetryBinds(e: Engine, flow: Flow, repeat: Repeat, retry: Flow, item: Option<Object>, scope: Json,
                        issues: seq<Issue>, records: FlowRecords, run: FlowRun)
    requires Overridable(flow, repeat)
    ensures var decided := AfterRetry(e, flow, repeat, retry, item, scope, issues, records, run);
            && Prepared(e, flow, repeat, item, scope, decided)
            && (run.record.status == Completed ==> Excused(e, flow, repeat, item, scope, decided))
  {
    var records' := records[retry.name := RetryRecord(run.record, RunsOf(records, retry.name))];
    PrepareBinds(e, flow, repeat, item, scope, issues, records', run.world);
  }

  // The retry run of a decision, if there was one.
  ghost predicate RetriedOn(e: Engine, repeat: Repeat, scope: Json, records: FlowRecords, retried: Option<FlowRecord>) {
    match retried
    case None => true
    case Some(run) =>
      repeat.retryFlow.Some?
      && RetryRanOn(e, repeat, e.plan.At(repeat.Retry()), WorkflowContext(scope, e.metadata, records), run)
  }

  predicate RetryCompleted(retried: Option<FlowRecord>) {
    match retried
    case None => true
    case Some(run) => run.status == Completed
  }

  lemma DecideBinds(e: Engine, flow: Flow, repeat: Repeat, item: Option<Object>, scope: Json, run: FlowRun,
                    attempt: int, records: FlowRecords, depth: int) returns (retried: Option<FlowRecord>)
    requires Overridable(flow, repeat) && RetryNamed(e, repeat) && run.record.status != Skipped
    ensures var decided := Decide(e, flow, repeat, item, scope, run, attempt, records, depth);
            && Prepared(e, flow, repeat, item, scope, decided)
            && Verdict(e, repeat, scope, records, run.record, attempt, retried, decided)
            && (RetryCompleted(retried) ==> Excused(e, flow, repeat, item, scope, decided))
    ensures RetriedOn(e, repeat, scope, records, retried)
  {
    if Retries(e, repeat, scope, run.record, attempt, records) {
      var r := RetryBinds(e, flow, repeat, e.plan.At(repeat.Retry()), item, scope, run.issues, records, run.world,
                          depth);
      retried := Some(r);
    } else {
      OwnOutcome(e, flow, repeat, item, scope, run, attempt, records, depth);
      PrepareBinds(e, flow, repeat, item, scope, run.issues, records, run.world);
      retried := None;
    }
  }

  // ---- All attempts -----------------------------------------------------------------------------------

  // What attempt number k runs on: the first input, or the next input bound in the records of
  // the attempts and retry runs before it.
  ghost predicate InputAt(e: Engine, flow: Flow, repeat: Repeat, item: Option<Object>, scope: Json, first: Json,
                          base: FlowRecords, attempts: seq<FlowRecord>, runs: seq<FlowRecord>, k: nat, input: Json) {
    if k == 0 then input == first
    else
      && input.Obj?
      && NextBound(e, flow, repeat, item,
                   WorkflowContext(scope, e.metadata,
                                   Seen(base, flow.name, repeat.retryFlow, First(attempts, k), First(runs, k))),
                   input.fields)
  }

  ghost predicate FedAt(e: Engine, flow: Flow, repeat: Repeat, item: Option<Object>, scope: Json, first: Json,
                        base: FlowRecords, attempts: seq<FlowRecord>, runs: seq<FlowRecord>, depth: int, k: nat) {
    && k < |attempts|
    && exists input, w {:trigger ExecuteFlow(e, flow, input, w, depth)} ::
         && attempts[k] == ExecuteFlow(e, flow, input, w, depth).record
         && InputAt(e, flow, repeat, item, scope, first, base, attempts, runs, k, input)
  }

  // What retry run number k ran on: its bindings in the records after attempt number k.
  ghost predicate RetryFedAt(e: Engine, flow: Flow, repeat: Repeat, scope: Json, base: FlowRecords,
                             attempts: seq<FlowRecord>, runs: seq<FlowRecord>, k: nat) {
    && k < |runs| && repeat.retryFlow.Some?
    && RetryRanOn(e, repeat, e.plan.At(repeat.Retry()),
                  WorkflowContext(scope, e.metadata,
                                  Seen(base, flow.name, repeat.retryFlow, First(attempts, k + 1), First(runs, k))),
                  runs[k])
  }

  ghost predicate AllFed(e: Engine, flow: Flow, repeat: Repeat, item: Option<Object>, scope: Json, first: Json,
                         base: FlowRecords, attempts: seq<FlowRecord>, runs: seq<FlowRecord>, depth: int) {
    && (forall k: nat | k < |attempts| ::
          FedAt(e, flow, repeat, item, scope, first, base, attempts, runs, depth, k))
    && forall k: nat | k < |runs| :: RetryFedAt(e, flow, repeat, scope, base, attempts, runs, k)
  }

  lemma FirstStays(runs: seq<FlowRecord>, more: seq<FlowRecord>, k: nat)
    requires k <= |runs|
    ensures First(runs + more, k) == First(runs, k)
  {
  }

  // Later attempts and retry runs change nothing for earlier ones.
  lemma AttemptStays(e: Engine, flow: Flow, repeat: Repeat, item: Option<Object>, scope: Json, first: Json,
                     base: FlowRecords, attempts: seq<FlowRecord>, runs: seq<FlowRecord>, depth: int, run: FlowRecord,
                     more: seq<FlowRecord>, k: nat)
    requires FedAt(e, flow, repeat, item, scope, first, base, attempts, runs, depth, k)
    requires k <= |runs| || runs + more == []
    ensures FedAt(e, flow, repeat, item, scope, first, base, attempts + [run], runs + more, depth, k)
  {
    var input, w :| attempts[k] == ExecuteFlow(e, flow, input, w, depth).record
      && InputAt(e, flow, repeat, item, scope, first, base, attempts, runs, k, input);
    InputStays(e, flow, repeat, item, scope, first, base, attempts, runs, run, more, k, input);
    assert (attempts + [run])[k] == ExecuteFlow(e, flow, input, w, depth).record;
  }

  lemma RetryStays(e: Engine, flow: Flow, repeat: Repeat, scope: Json, base: FlowRecords, attempts: seq<FlowRecord>,
                   runs: seq<FlowRecord>, run: FlowRecord, more: seq<FlowRecord>, k: nat)
    requires RetryFedAt(e, flow, repeat, scope, base, attempts, runs, k) && k < |attempts|
    ensures RetryFedAt(e, flow, repeat, scope, base, attempts + [run], runs + more, k)
  {
    FirstStays(attempts, [run], k + 1);
    FirstStays(runs, more, k);
    assert (runs + more)[k] == runs[k];
  }

  // The records after a decision, and the retry runs they show.
  lemma DecisionSees(e: Engine, flow: Flow, repeat: Repeat, scope: Json, base: FlowRecords, records: FlowRecords,
                     attempts: seq<FlowRecord>, runs: seq<FlowRecord>, run: FlowRecord, retried: Option<FlowRecord>,
                     decided: Decided)
    requires Repeatable(e, flow, repeat, base) && UnderWay(e, flow, repeat, scope, base, records, attempts, runs)
    requires Verdict(e, repeat, scope, records[flow.name := run.(attempts := attempts + [run])], run, |attempts| + 1,
                     retried, decided)
    ensures records[flow.name := run.(attempts := attempts + [run])]
            == Seen(base, flow.name, repeat.retryFlow, attempts + [run], runs)
    ensures decided.records == Seen(base, flow.name, repeat.retryFlow, attempts + [run], runs + RunIn(retried))
    ensures RetryRuns(repeat, decided.records) == runs + RunIn(retried)
  {
    SeenNext(flow, repeat, base, records, attempts, runs, run);
    assert runs + [] == runs;
    if repeat.retryFlow.Some? {
      SeenRetried(flow.name, repeat.Retry(), base, attempts + [run], runs + RunIn(retried), run, run);
      if retried.Some? {
        SeenRetried(flow.name, repeat.Retry(), base, attempts + [run], runs, retried.value, run);
      }
    }
  }

  lemma InputStays(e: Engine, flow: Flow, repeat: Repeat, item: Option<Object>, scope: Json, first: Json,
                   base: FlowRecords, attempts: seq<FlowRecord>, runs: seq<FlowRecord>, run: FlowRecord,
                   more: seq<FlowRecord>, k: nat, input: Json)
    requires k <= |attempts| && (k <= |runs| || runs + more == [])
    ensures InputAt(e, flow, repeat, item, scope, first, base, attempts, runs, k, input)
            == InputAt(e, flow, repeat, item, scope, first, base, attempts + [run], runs + more, k, input)
  {
    FirstStays(attempts, [run], k);
    assert First(runs + more, k) == First(runs, k);
  }

  lemma NewAttemptIsFed(e: Engine, flow: Flow, repeat: Repeat, item: Option<Object>, scope: Json, first: Json,
                        base: FlowRecords, attempts: seq<FlowRecord>, runs: seq<FlowRecord>, input: Json, w: World,
                        depth: int, more: seq<FlowRecord>)
    requires |runs| == |attempts| || runs + more == []
    requires InputAt(e, flow, repeat, item, scope, first, base, attempts, runs, |attempts|, input)
    ensures FedAt(e, flow, repeat, item, scope, first, base, attempts + [ExecuteFlow(e, flow, input, w, depth).record],
                  runs + more, depth, |attempts|)
  {
    var run := ExecuteFlow(e, flow, input, w, depth).record;
    InputStays(e, flow, repeat, item, scope, first, base, attempts, runs, run, more, |attempts|, input);
  }

  lemma NewRetryIsFed(e: Engine, flow: Flow, repeat: Repeat, scope: Json, base: FlowRecords,
                      attempts: seq<FlowRecord>, runs: seq<FlowRecord>, retried: FlowRecord)
    requires |runs| + 1 == |attempts|
    requires RetriedOn(e, repeat, scope, Seen(base, flow.name, repeat.retryFlow, attempts, runs), Some(retried))
    ensures RetryFedAt(e, flow, repeat, scope, base, attempts, runs + [retried], |runs|)
  {
    assert First(attempts, |runs| + 1) == attempts;
    assert First(runs + [retried], |runs|) == runs;
  }

  // The attempt and the retry run of one turn, with those before them.
  lemma TurnIsFed(e: Engine, flow: Flow, repeat: Repeat, item: Option<Object>, scope: Json, first: Json,
                  base: FlowRecords, attempts: seq<FlowRecord>, runs: seq<FlowRecord>, depth: int, run: FlowRecord,
                  retried: Option<FlowRecord>)
    requires AllFed(e, flow, repeat, item, scope, first, base, attempts, runs, depth)
    requires |runs| == (if repeat.retryFlow.Some? then |attempts| else 0)
    requires FedAt(e, flow, repeat, item, scope, first, base, attempts + [run], runs + RunIn(retried), depth,
                   |attempts|)
    requires RetriedOn(e, repeat, scope, Seen(base, flow.name, repeat.retryFlow, attempts + [run], runs), retried)
    ensures AllFed(e, flow, repeat, item, scope, first, base, attempts + [run], runs + RunIn(retried), depth)
  {
    var attempts', runs' := attempts + [run], runs + RunIn(retried);
    forall k: nat | k < |attempts'|
      ensures FedAt(e, flow, repeat, item, scope, first, base, attempts', runs', depth, k)
    {
      if k < |attempts| {
        AttemptStays(e, flow, repeat, item, scope, first, base, attempts, runs, depth, run, RunIn(retried), k);
      }
    }
    RetryTurnIsFed(e, flow, repeat, scope, base, attempts, runs, run, retried);
  }

  lemma RetryTurnIsFed(e: Engine, flow: Flow, repeat: Repeat, scope: Json, base: FlowRecords,
                       attempts: seq<FlowRecord>, runs: seq<FlowRecord>, run: FlowRecord, retried: Option<FlowRecord>)
    requires forall k: nat | k < |runs| :: RetryFedAt(e, flow, repeat, scope, base, attempts, runs, k)
    requires |runs| == (if repeat.retryFlow.Some? then |attempts| else 0)
    requires RetriedOn(e, repeat, scope, Seen(base, flow.name, repeat.retryFlow, attempts + [run], runs), retried)
    ensures var runs' := runs + RunIn(retried);
            forall k: nat | k < |runs'| :: RetryFedAt(e, flow, repeat, scope, base, attempts + [run], runs', k)
  {
    var runs' := runs + RunIn(retried);
    if retried.Some? {
      NewRetryIsFed(e, flow, repeat, scope, base, attempts + [run], runs, retried.value);
    }
    forall k: nat | k < |runs'| ensures RetryFedAt(e, flow, repeat, scope, base, attempts + [run], runs', k) {
      if k < |runs| {
        RetryStays(e, flow, repeat, scope, base, attempts, runs, run, RunIn(retried), k);
      }
    }
  }

  // The input of the following turn.
  lemma NextIsFed(e: Engine, flow: Flow, repeat: Repeat, item: Option<Object>, scope: Json, first: Json,
                  base: FlowRecords, attempts: seq<FlowRecord>, runs: seq<FlowRecord>, next: Object)
    requires attempts != [] && |runs| == (if repeat.retryFlow.Some? then |attempts| else 0)
    requires NextBound(e, flow, repeat, item,
                       WorkflowContext(scope, e.metadata, Seen(base, flow.name, repeat.retryFlow, attempts, runs)),
                       next)
    ensures InputAt(e, flow, repeat, item, scope, first, base, attempts, runs, |attempts|, Obj(next))
  {
    assert First(attempts, |attempts|) == attempts && First(runs, |attempts|) == runs;
  }

  // What a repeat leaves: all its attempts, and the retry flow's runs.
  ghost predicate LoopFed(e: Engine, flow: Flow, repeat: Repeat, item: Option<Object>, scope: Json, first: Json,
                          base: FlowRecords, loop: Loop, depth: int) {
    AllFed(e, flow, repeat, item, scope, first, base, loop.last.attempts, RetryRuns(repeat, loop.records), depth)
  }

  // A repeat under way whose runs so far were fed, as the next one will be.
  ghost predicate Feeding(e: Engine, flow: Flow, repeat: Repeat, item: Option<Object>, scope: Json, first: Json,
                          base: FlowRecords, records: FlowRecords, attempts: seq<FlowRecord>, runs: seq<FlowRecord>,
                          input: Json, depth: int) {
    && Repeatable(e, flow, repeat, base) && UnderWay(e, flow, repeat, scope, base, records, attempts, runs)
    && AllFed(e, flow, repeat, item, scope, first, base, attempts, runs, depth)
    && InputAt(e, flow, repeat, item, scope, first, base, attempts, runs, |attempts|, input)
  }

  lemma RunIsFed(e: Engine, flow: Flow, repeat: Repeat, item: Option<Object>, scope: Json, first: Json,
                 base: FlowRecords, records: FlowRecords, attempts: seq<FlowRecord>, runs: seq<FlowRecord>,
                 input: Json, run: FlowRun, w: World, depth: int, retried: Option<FlowRecord>, decided: Decided)
    requires Feeding(e, flow, repeat, item, scope, first, base, records, attempts, runs, input, depth)
    requires run == ExecuteFlow(e, flow, input, w, depth)
    requires Verdict(e, repeat, scope, records[flow.name := run.record.(attempts := attempts + [run.record])],
                     run.record, |attempts| + 1, retried, decided)
    requires RetriedOn(e, repeat, scope, records[flow.name := run.record.(attempts := attempts + [run.record])],
                       retried)
    ensures AllFed(e, flow, repeat, item, scope, first, base, attempts + [run.record], runs + RunIn(retried), depth)
    ensures RetryRuns(repeat, decided.records) == runs + RunIn(retried)
  {
    DecisionSees(e, flow, repeat, scope, base, records, attempts, runs, run.record, retried, decided);
    NewAttemptIsFed(e, flow, repeat, item, scope, first, base, attempts, runs, input, w, depth, RunIn(retried));
    TurnIsFed(e, flow, repeat, item, scope, first, base, attempts, runs, depth, run.record, retried);
  }

  lemma GoesOnFed(e: Engine, flow: Flow, repeat: Repeat, item: Option<Object>, scope: Json, first: Json,
                  base: FlowRecords, records: FlowRecords, attempts: seq<FlowRecord>, runs: seq<FlowRecord>,
                  run: FlowRecord, retried: Option<FlowRecord>, decided: Decided, next: Object, depth: int)
    requires Repeatable(e, flow, repeat, base) && UnderWay(e, flow, repeat, scope, base, records, attempts, runs)
    requires AllFed(e, flow, repeat, item, scope, first, base, attempts + [run], runs + RunIn(retried), depth)
    requires Verdict(e, repeat, scope, records[flow.name := run.(attempts := attempts + [run])], run, |attempts| + 1,
                     retried, decided)
    requires decided.outcome == Ok(Again(next)) && Prepared(e, flow, repeat, item, scope, decided)
    ensures Feeding(e, flow, repeat, item, scope, first, base,
                    decided.records[flow.name := run.(attempts := attempts + [run])], attempts + [run],
                    runs + RunIn(retried), Obj(next), depth)
  {
    DecisionSees(e, flow, repeat, scope, base, records, attempts, runs, run, retried, decided);
    Continues(e, flow, repeat, scope, base, records, attempts, runs, run, retried, decided);
    NextIsFed(e, flow, repeat, item, scope, first, base, attempts + [run], runs + RunIn(retried), next);
  }

  lemma StopsFed(e: Engine, flow: Flow, repeat: Repeat, item: Option<Object>, scope: Json, first: Json,
                 base: FlowRecords, attempts: seq<FlowRecord>, runs: seq<FlowRecord>, run: FlowRecord,
                 decided: Decided, depth: int)
    requires Repeatable(e, flow, repeat, base) && !IsAgain(decided.outcome)
    requires AllFed(e, flow, repeat, item, scope, first, base, attempts, runs, depth)
    requires RetryRuns(repeat, decided.records) == runs
    ensures LoopFed(e, flow, repeat, item, scope, first, base,
                    Proceed(e, flow, repeat, item, scope, run, attempts, decided, depth), depth)
  {
  }

  // One turn of the loop.
  lemma AttemptsTurn(e: Engine, flow: Flow, repeat: Repeat, item: Option<Object>, scope: Json, input: Json,
                     attempts: seq<FlowRecord>, records: FlowRecords, w: World, depth: int) returns (decided: Decided)
    requires |attempts| < repeat.maxAttempts
    ensures var run := ExecuteFlow(e, flow, input, w, depth);
            var attempts' := attempts + [run.record];
            var records' := records[flow.name := run.record.(attempts := attempts')];
            && decided == Decide(e, flow, repeat, item, scope, run, |attempts'|, records', depth)
            && Attempts(e, flow, repeat, item, scope, input, attempts, records, w, depth)
               == Proceed(e, flow, repeat, item, scope, run.record, attempts', decided, depth)
  {
    var run := ExecuteFlow(e, flow, input, w, depth);
    var attempts' := attempts + [run.record];
    decided := Decide(e, flow, repeat, item, scope, run, |attempts'|,
                      records[flow.name := run.record.(attempts := attempts')], depth);
  }

  lemma {:induction false} AttemptsAreFed(e: Engine, flow: Flow, repeat: Repeat, item: Option<Object>, scope: Json,
                                          first: Json, base: FlowRecords, input: Json, attempts: seq<FlowRecord>,
                                          runs: seq<FlowRecord>, records: FlowRecords, w: World, depth: int)
    requires Overridable(flow, repeat)
    requires Feeding(e, flow, repeat, item, scope, first, base, records, attempts, runs, input, depth)
    ensures LoopFed(e, flow, repeat, item, scope, first, base,
                    Attempts(e, flow, repeat, item, scope, input, attempts, records, w, depth), depth)
    decreases repeat.maxAttempts - |attempts|
  {
    var run := ExecuteFlow(e, flow, input, w, depth);
    var attempts' := attempts + [run.record];
    var current := run.record.(attempts := attempts');
    FlowRan(e, flow, input, w, depth);
    var decided := AttemptsTurn(e, flow, repeat, item, scope, input, attempts, records, w, depth);
    var retried := DecideBinds(e, flow, repeat, item, scope, run, |attempts'|, records[flow.name := current], depth);
    RunIsFed(e, flow, repeat, item, scope, first, base, records, attempts, runs, input, run, w, depth, retried,
             decided);
    if !IsAgain(decided.outcome) {
      StopsFed(e, flow, repeat, item, scope, first, base, attempts', runs + RunIn(retried), run.record, decided, depth);
    } else {
      var next := decided.outcome.value.input;
      GoesOnFed(e, flow, repeat, item, scope, first, base, records, attempts, runs, run.record, retried, decided, next,
                depth);
      AttemptsAreFed(e, flow, repeat, item, scope, first, base, Obj(next), attempts', runs + RunIn(retried),
                     decided.records[flow.name := current], decided.world, depth);
    }
  }

  // Every attempt of a repeat is an execution of exactly the input its bindings deliver, and
  // every retry run one of exactly its own, in the records that stand before it.
  lemma RepeatIsFed(e: Engine, flow: Flow, repeat: Repeat, item: Option<Object>, scope: Json, input: Json,
                    records: FlowRecords, w: World, depth: int)
    requires Overridable(flow, repeat) && Repeatable(e, flow, repeat, records) && repeat.maxAttempts > 0
    ensures LoopFed(e, flow, repeat, item, scope, input, records,
                    Attempts(e, flow, repeat, item, scope, input, [], records, w, depth), depth)
  {
    Starts(e, flow, repeat, scope, records);
    AttemptsAreFed(e, flow, repeat, item, scope, input, records, input, [], [], records, w, depth);
  }

  // ---- Routed flows and items -------------------------------------------------------------------------

  ghost predicate Repeated(e: Engine, flow: Flow, records: FlowRecords) {
    match flow.repeat
    case None => true
    case Some(repeat) => Overridable(flow, repeat) && Repeatable(e, flow, repeat, records) && repeat.maxAttempts > 0
  }

  // What a routed flow leaves when it runs on this input.
  ghost predicate RoutedOn(e: Engine, flow: Flow, payload: Json, records: FlowRecords, inputs: Object, w: World,
                           after: FlowRecords) {
    match flow.repeat
    case None => after == records[flow.name := ExecuteFlow(e, flow, Obj(inputs), w, 0).record]
    case Some(repeat) =>
      var loop := Attempts(e, flow, repeat, None, payload, Obj(inputs), [], records, w, 0);
      after == loop.records && LoopFed(e, flow, repeat, None, payload, Obj(inputs), records, loop, 0)
  }

  lemma RoutedLeaves(e: Engine, flow: Flow, payload: Json, records: FlowRecords, active: Option<string>, w: World,
                     inputs: Object)
    requires !e.expired(w.tick)
    requires FlowInput(e, flow.name, flow.input, WorkflowContext(payload, e.metadata, records)) == Ok(inputs)
    ensures RunRouted(e, flow, payload, records, active, w).records
            == match flow.repeat
               case None => records[flow.name := ExecuteFlow(e, flow, Obj(inputs), w.Next(), 0).record]
               case Some(repeat) => Attempts(e, flow, repeat, None, payload, Obj(inputs), [], records, w.Next(),
                                             0).records
  {
  }

  // A routed flow runs on its own bindings in the records before it, or not at all.
  lemma RoutedIsFed(e: Engine, flow: Flow, payload: Json, records: FlowRecords, active: Option<string>, w: World)
    returns (bound: Option<Object>)
    requires Repeated(e, flow, records)
    ensures var run := RunRouted(e, flow, payload, records, active, w);
            match bound
            case None => run.outcome.Err? && run.records == records
            case Some(inputs) =>
              && Binds(flow.input, WorkflowContext(payload, e.metadata, records), inputs)
              && e.validate(flow.name, inputs).None?
              && RoutedOn(e, flow, payload, records, inputs, w.Next(), run.records)
  {
    var context := WorkflowContext(payload, e.metadata, records);
    var input := FlowInput(e, flow.name, flow.input, context);
    if e.expired(w.tick) || input.Err? {
      bound := None;
    } else {
      bound := Some(input.value);
      ArgumentsBind(flow.input, context, input.value);
      RoutedLeaves(e, flow, payload, records, active, w, input.value);
      if flow.repeat.Some? {
        RepeatIsFed(e, flow, flow.repeat.value, None, payload, Obj(input.value), records, w.Next(), 0);
      }
    }
  }

  // An item runs on its own input.
  lemma ItemIsFed(e: Engine, flow: Flow, payload: Object, w: World, depth: int)
    requires Repeated(e, flow, map[])
    ensures var done := RunItem(e, flow, payload, w, depth);
            match flow.repeat
            case None => done.outcome == Ok(ItemDone(ExecuteFlow(e, flow, Obj(payload), w, depth).record, None, None))
            case Some(repeat) =>
              var loop := Attempts(e, flow, repeat, Some(payload), Obj(payload), Obj(payload), [], map[], w, depth);
              && LoopFed(e, flow, repeat, Some(payload), Obj(payload), Obj(payload), map[], loop, depth)
              && (done.outcome.Ok? ==> done.outcome.value.record == loop.last)
  {
    if flow.repeat.Some? {
      RepeatIsFed(e, flow, flow.repeat.value, Some(payload), Obj(payload), Obj(payload), map[], w, depth);
    }
  }
}
