/**
 The repeat protocol, for routed flows and collection items alike: how many attempts
 run, what stands at the end, and what the stop reason means.
 */
module Repeats {
  import opened Foundations
  import opened Json
  import opened Conditions
  import opened Plans
  import opened Records
  import opened Engine

  // ---- A flow run is never skipped and keeps no attempts ---------------------------------

  lemma {:induction false} StepsRan(e: Engine, flow: Flow, payload: Json, k: nat, p: Progress, depth: int)
    ensures RunSteps(e, flow, payload, k, p, depth).record.status != Skipped
    ensures RunSteps(e, flow, payload, k, p, depth).record.attempts == []
    decreases |flow.steps| - k
  {
    if k < |flow.steps| {
      match RunStep(e, flow.steps[k], payload, p, depth)
      case Interrupted(_, _, _) =>
      case Bypassed(p') => StepsRan(e, flow, payload, k + 1, p', depth);
      case Ran(_, _, p') => StepsRan(e, flow, payload, k + 1, p', depth);
    }
  }

  lemma FlowRan(e: Engine, flow: Flow, payload: Json, w: World, depth: int)
    ensures ExecuteFlow(e, flow, payload, w, depth).record.status != Skipped
    ensures ExecuteFlow(e, flow, payload, w, depth).record.attempts == []
  {
    StepsRan(e, flow, payload, 0, Progress(SkippedSteps(flow.steps), Accounting.NO_USAGE, w), depth);
  }

  // ---- One decision ---------------------------------------------------------------------------

  // The retry flow ran once more: its record shows that run and keeps all of them.
  predicate RanOnce(before: FlowRecords, after: FlowRecords, name: string, run: FlowRecord) {
    after == before[name := RetryRecord(run, RunsOf(before, name))]
  }

  predicate PlainHalt(halted: Halted, stop: Stop) {
    halted.stop == stop && halted.status.None? && halted.failure.None?
  }

  // The next input could not be bound.
  predicate FailedHalt(halted: Halted) {
    halted.stop == ByFailure && halted.status.None? && halted.failure.Some?
  }

  predicate PrepareVerdict(outcome: Result<Decision, Exn>) {
    match outcome
    case Err(_) => false
    case Ok(Again(_)) => true
    case Ok(Halt(halted)) => FailedHalt(halted)
  }

  lemma PrepareOutcome(e: Engine, flow: Flow, repeat: Repeat, item: Option<Object>, scope: Json, issues: seq<Issue>,
                       records: FlowRecords, w: World)
    ensures var decided := Prepare(e, flow, repeat, item, scope, issues, records, w);
            decided.records == records && PrepareVerdict(decided.outcome)
  {
  }

  // continue_when over these records; without one the repeat goes on.
  predicate ContinueIs(e: Engine, repeat: Repeat, scope: Json, records: FlowRecords, holds: bool) {
    match repeat.continueWhen
    case None => holds
    case Some(condition) => Evaluate(condition, WorkflowContext(scope, e.metadata, records), e.matcher) == Ok(holds)
  }

  // What may follow a run of the retry flow that left these records.
  predicate RetryVerdict(e: Engine, repeat: Repeat, scope: Json, records: FlowRecords, run: FlowRecord,
                         outcome: Result<Decision, Exn>) {
    match outcome
    case Err(_) => run.status == Completed
    case Ok(Again(_)) => run.status == Completed && ContinueIs(e, repeat, scope, records, true)
    case Ok(Halt(halted)) =>
      match run.status
      case Failed => halted.stop == ByFailure && halted.status.None? && halted.failure == run.error
      case NeedsReview => halted.stop == ByReview && halted.status == Some(NeedsReview) && halted.failure.None?
      case Completed =>
        || (FailedHalt(halted) && ContinueIs(e, repeat, scope, records, true))
        || (PlainHalt(halted, ByContinueWhen) && ContinueIs(e, repeat, scope, records, false))
      case Skipped => false
  }

  lemma AfterRetryOutcome(e: Engine, flow: Flow, repeat: Repeat, retry: Flow, item: Option<Object>, scope: Json,
                          issues: seq<Issue>, records: FlowRecords, run: FlowRun)
    requires run.record.status != Skipped
    ensures var decided := AfterRetry(e, flow, repeat, retry, item, scope, issues, records, run);
            && RanOnce(records, decided.records, retry.name, run.record)
            && RetryVerdict(e, repeat, scope, decided.records, run.record, decided.outcome)
  {
    var records' := records[retry.name := RetryRecord(run.record, RunsOf(records, retry.name))];
    if run.record.status == Completed && ContinueIs(e, repeat, scope, records', true) {
      PrepareOutcome(e, flow, repeat, item, scope, issues, records', run.world);
      assert AfterRetry(e, flow, repeat, retry, item, scope, issues, records, run)
          == Prepare(e, flow, repeat, item, scope, issues, records', run.world);
    }
  }

  // A retry run, returned for the record.
  lemma RetryOutcome(e: Engine, flow: Flow, repeat: Repeat, retry: Flow, item: Option<Object>, scope: Json,
                     issues: seq<Issue>, records: FlowRecords, w: World, depth: int) returns (run: FlowRecord)
    ensures var decided := RunRetry(e, flow, repeat, retry, item, scope, issues, records, w, depth);
            && RanOnce(records, decided.records, retry.name, run)
            && RetryVerdict(e, repeat, scope, decided.records, run, decided.outcome)
  {
    var input := FlowInput(e, retry.name, repeat.retryFlowInput, WorkflowContext(scope, e.metadata, records));
    if input.Err? {
      run := FailedBeforeRun(retry, RecordFailure(e, input.error, w).0);
    } else {
      FlowRan(e, retry, Obj(input.value), w, depth);
      var ran := ExecuteFlow(e, retry, Obj(input.value), w, depth);
      AfterRetryOutcome(e, flow, repeat, retry, item, scope, issues, records, ran);
      run := ran.record;
    }
  }

  // The repeat stops, and nothing ran after the attempt.
  predicate StopsHere(e: Engine, repeat: Repeat, scope: Json, decided: Decided, records: FlowRecords, w: World) {
    && decided.records == records && decided.world == w
    && match decided.outcome
       case Ok(decision) => decision.Halt?
       case Err(_) =>
         || Evaluate(repeat.until, WorkflowContext(scope, e.metadata, records), e.matcher).Err?
         || (repeat.retryFlow.Some? && repeat.Retry() !in e.plan.flows)
  }

  // The attempt completed, until was false and attempts remain.
  predicate GoesOn(e: Engine, repeat: Repeat, scope: Json, run: FlowRecord, attempt: int, records: FlowRecords) {
    && run.status != Failed && run.status != NeedsReview && attempt < repeat.maxAttempts
    && UntilIs(e, repeat, scope, records, false)
  }

  // The three ways a decision can go.
  lemma DecideCases(e: Engine, flow: Flow, repeat: Repeat, item: Option<Object>, scope: Json, run: FlowRun,
                    attempt: int, records: FlowRecords, depth: int)
    ensures var decided := Decide(e, flow, repeat, item, scope, run, attempt, records, depth);
            || StopsHere(e, repeat, scope, decided, records, run.world)
            || (GoesOn(e, repeat, scope, run.record, attempt, records) && repeat.retryFlow.None?
                && decided == Prepare(e, flow, repeat, item, scope, run.issues, records, run.world))
            || (GoesOn(e, repeat, scope, run.record, attempt, records) && repeat.retryFlow.Some?
                && repeat.Retry() in e.plan.flows
                && decided == RunRetry(e, flow, repeat, e.plan.At(repeat.Retry()), item, scope, run.issues,
                                       records, run.world, depth))
  {
    if GoesOn(e, repeat, scope, run.record, attempt, records) {
      assert Decide(e, flow, repeat, item, scope, run, attempt, records, depth)
          == GoOn(e, flow, repeat, item, scope, run, records, depth);
    }
  }

  // The decision, given what follows.
  function DecidedBy(repeat: Repeat, until: Result<bool, ErrorCode>, run: FlowRun, attempt: int, records: FlowRecords,
                   next: Decided): Decided {
    if run.record.status == Failed then Decided(Ok(Halt(Halted(ByFailure, run.issues, None, None))), records, run.world)
    else if run.record.status == NeedsReview then
      Decided(Ok(Halt(Halted(ByReview, run.issues, None, None))), records, run.world)
    else
      match until
      case Err(code) => Decided(Err(Error(code)), records, run.world)
      case Ok(true) => Decided(Ok(Halt(Halted(ByUntil, run.issues, None, None))), records, run.world)
      case Ok(false) =>
        if attempt >= repeat.maxAttempts then
          Decided(Ok(Halt(Halted(ByExhaustion, run.issues, None, None))), records, run.world)
        else next
  }

  lemma DecideIs(e: Engine, flow: Flow, repeat: Repeat, item: Option<Object>, scope: Json, run: FlowRun, attempt: int,
                 records: FlowRecords, depth: int)
    ensures Decide(e, flow, repeat, item, scope, run, attempt, records, depth)
            == DecidedBy(repeat, Evaluate(repeat.until, WorkflowContext(scope, e.metadata, records), e.matcher), run,
                         attempt, records, GoOn(e, flow, repeat, item, scope, run, records, depth))
  {
  }

  predicate UntilIs(e: Engine, repeat: Repeat, scope: Json, records: FlowRecords, holds: bool) {
    Evaluate(repeat.until, WorkflowContext(scope, e.metadata, records), e.matcher) == Ok(holds)
  }

  // The decision that needs no retry flow: stop at once, or go straight to the next input.
  predicate OwnVerdict(e: Engine, repeat: Repeat, scope: Json, records: FlowRecords, run: FlowRecord, attempt: int,
                       outcome: Result<Decision, Exn>) {
    match outcome
    case Err(_) => run.status == Completed
    case Ok(Again(_)) =>
      run.status == Completed && repeat.retryFlow.None? && attempt < repeat.maxAttempts
          && UntilIs(e, repeat, scope, records, false)
    case Ok(Halt(halted)) =>
      match run.status
      case Failed => PlainHalt(halted, ByFailure)
      case NeedsReview => PlainHalt(halted, ByReview)
      case _ =>
        || (PlainHalt(halted, ByUntil) && UntilIs(e, repeat, scope, records, true))
        || (PlainHalt(halted, ByExhaustion) && attempt >= repeat.maxAttempts
            && UntilIs(e, repeat, scope, records, false))
        || (FailedHalt(halted) && repeat.retryFlow.None? && attempt < repeat.maxAttempts
            && UntilIs(e, repeat, scope, records, false))
  }

  predicate Retries(e: Engine, repeat: Repeat, scope: Json, run: FlowRecord, attempt: int, records: FlowRecords) {
    && run.status == Completed && UntilIs(e, repeat, scope, records, false) && attempt < repeat.maxAttempts
    && repeat.retryFlow.Some? && repeat.Retry() in e.plan.flows
  }

  lemma OwnOutcome(e: Engine, flow: Flow, repeat: Repeat, item: Option<Object>, scope: Json, run: FlowRun, attempt: int,
                   records: FlowRecords, depth: int)
    requires run.record.status != Skipped && !Retries(e, repeat, scope, run.record, attempt, records)
    ensures var decided := Decide(e, flow, repeat, item, scope, run, attempt, records, depth);
            decided.records == records && OwnVerdict(e, repeat, scope, records, run.record, attempt, decided.outcome)
  {
    if run.record.status == Completed && UntilIs(e, repeat, scope, records, false) && attempt < repeat.maxAttempts {
      PrepareOutcome(e, flow, repeat, item, scope, run.issues, records, run.world);
    }
  }

  // The decision, with or without a retry run before it.
  predicate Verdict(e: Engine, repeat: Repeat, scope: Json, records: FlowRecords, run: FlowRecord, attempt: int,
                    retried: Option<FlowRecord>, decided: Decided) {
    match retried
    case None => decided.records == records && OwnVerdict(e, repeat, scope, records, run, attempt, decided.outcome)
    case Some(r) =>
      && Retries(e, repeat, scope, run, attempt, records)
      && RanOnce(records, decided.records, repeat.Retry(), r)
      && RetryVerdict(e, repeat, scope, decided.records, r, decided.outcome)
  }

  lemma DecideOutcome(e: Engine, flow: Flow, repeat: Repeat, item: Option<Object>, scope: Json, run: FlowRun,
                      attempt: int, records: FlowRecords, depth: int) returns (retried: Option<FlowRecord>)
    requires run.record.status != Skipped
    requires RetryNamed(e, repeat)
    ensures var decided := Decide(e, flow, repeat, item, scope, run, attempt, records, depth);
            Verdict(e, repeat, scope, records, run.record, attempt, retried, decided)
  {
    if Retries(e, repeat, scope, run.record, attempt, records) {
      var r := RetryOutcome(e, flow, repeat, e.plan.At(repeat.Retry()), item, scope, run.issues, records,
                            run.world, depth);
      retried := Some(r);
    } else {
      OwnOutcome(e, flow, repeat, item, scope, run, attempt, records, depth);
      retried := None;
    }
  }

  // ---- The protocol ---------------------------------------------------------------------------

  predicate AllCompleted(runs: seq<FlowRecord>) {
    forall k | 0 <= k < |runs| :: runs[k].status == Completed
  }

  // The records a repeat's conditions see after an attempt: the flow's record keeps the
  // attempts so far, the retry flow's record its runs so far.
  function Seen(base: FlowRecords, name: string, retry: Option<string>, attempts: seq<FlowRecord>,
                runs: seq<FlowRecord>): FlowRecords {
    if attempts == [] then base
    else WithRuns(base, retry, runs)[name := attempts[|attempts| - 1].(attempts := attempts)]
  }

  // The first n runs.
  function First(runs: seq<FlowRecord>, n: int): seq<FlowRecord> {
    if 0 <= n <= |runs| then runs[..n] else runs
  }

  predicate EndsWith(runs: seq<FlowRecord>, status: Status) {
    runs != [] && runs[|runs| - 1].status == status
  }

  function WithRuns(base: FlowRecords, retry: Option<string>, runs: seq<FlowRecord>): FlowRecords {
    if retry.None? || runs == [] then base
    else base[retry.value := runs[|runs| - 1].(attempts := runs)]
  }

  // until was false after each of the attempts, with one retry run after each.
  predicate Kept(e: Engine, repeat: Repeat, scope: Json, base: FlowRecords, name: string, attempts: seq<FlowRecord>,
                 runs: seq<FlowRecord>) {
    && (repeat.retryFlow.Some? ==> |runs| >= |attempts| - 1)
    && forall k | 0 <= k < |attempts| :: KeptAt(e, repeat, scope, base, name, attempts, runs, k)
  }

  function RunsBefore(repeat: Repeat, runs: seq<FlowRecord>, k: int): seq<FlowRecord> {
    if repeat.retryFlow.Some? && 0 <= k <= |runs| then runs[..k] else []
  }

  predicate KeptAt(e: Engine, repeat: Repeat, scope: Json, base: FlowRecords, name: string, attempts: seq<FlowRecord>,
                   runs: seq<FlowRecord>, k: int) {
    UntilIs(e, repeat, scope,
            Seen(base, name, repeat.retryFlow, First(attempts, k + 1), RunsBefore(repeat, runs, k)), false)
  }

  // After each of the attempts the retry flow ran, and continue_when held.
  predicate Went(e: Engine, repeat: Repeat, scope: Json, base: FlowRecords, name: string, attempts: seq<FlowRecord>,
                 runs: seq<FlowRecord>) {
    repeat.retryFlow.Some? ==>
      && |runs| >= |attempts|
      && forall k | 0 <= k < |attempts| :: WentAfter(e, repeat, scope, base, name, attempts, runs, k)
  }

  predicate WentAfter(e: Engine, repeat: Repeat, scope: Json, base: FlowRecords, name: string,
                      attempts: seq<FlowRecord>, runs: seq<FlowRecord>, k: int) {
    ContinueIs(e, repeat, scope, Seen(base, name, repeat.retryFlow, First(attempts, k + 1), First(runs, k + 1)), true)
  }

  // How the last attempt and the last retry run explain the stop.
  predicate Explained(e: Engine, repeat: Repeat, scope: Json, base: FlowRecords, name: string, halted: Halted,
                      attempts: seq<FlowRecord>, runs: seq<FlowRecord>) {
    match halted.stop
    case ByUntil =>
      && EndsWith(attempts, Completed) && PlainHalt(halted, ByUntil) && |runs| <= |attempts| - 1
      && UntilIs(e, repeat, scope, Seen(base, name, repeat.retryFlow, attempts, runs), true)
    case ByExhaustion =>
      && EndsWith(attempts, Completed) && PlainHalt(halted, ByExhaustion)
      && |attempts| == repeat.maxAttempts && |runs| <= |attempts| - 1
      && Kept(e, repeat, scope, base, name, attempts, runs)
    case ByContinueWhen =>
      && EndsWith(attempts, Completed) && PlainHalt(halted, ByContinueWhen) && |runs| == |attempts|
      && AllCompleted(runs) && repeat.retryFlow.Some? && repeat.continueWhen.Some?
      && ContinueIs(e, repeat, scope, Seen(base, name, repeat.retryFlow, attempts, runs), false)
    case ByReview =>
      if halted.status.Some?
      then halted.status == Some(NeedsReview) && EndsWith(attempts, Completed) && |runs| == |attempts|
          && EndsWith(runs, NeedsReview)
      else EndsWith(attempts, NeedsReview) && |runs| <= |attempts| - 1
    case ByFailure =>
      if halted.failure.Some? then EndsWith(attempts, Completed)
      else (EndsWith(attempts, Failed) && |runs| <= |attempts| - 1)
           || (EndsWith(attempts, Completed) && |runs| == |attempts| && EndsWith(runs, Failed))
  }

  // The finished repeat.
  predicate Protocol(e: Engine, repeat: Repeat, scope: Json, base: FlowRecords, name: string, halted: Halted,
                     loop: Loop, runs: seq<FlowRecord>) {
    var attempts := loop.last.attempts;
    && 1 <= |attempts| <= repeat.maxAttempts
    && AllCompleted(First(attempts, |attempts| - 1))
    && (if repeat.retryFlow.None? then runs == [] else |attempts| - 1 <= |runs| <= |attempts|)
    && AllCompleted(if runs == [] then [] else First(runs, |runs| - 1))
    && Kept(e, repeat, scope, base, name, First(attempts, |attempts| - 1), runs)
    && Went(e, repeat, scope, base, name, First(attempts, |attempts| - 1), runs)
    && StandsOn(loop.last, attempts, halted)
    && loop.records == WithRuns(base, repeat.retryFlow, runs)[name := loop.last]
    && Explained(e, repeat, scope, base, name, halted, attempts, runs)
  }

  // The flow's record is that of its last attempt, with the attempts and the stop reason.
  predicate StandsOn(last: FlowRecord, attempts: seq<FlowRecord>, halted: Halted) {
    && attempts != [] && last.attempts == attempts && last.stoppedBy == Some(halted.stop)
    && var run := attempts[|attempts| - 1];
    && last.status == (if halted.status == Some(NeedsReview) then NeedsReview else run.status)
    && last.steps == run.steps && last.result == run.result && last.usage == run.usage && last.error == run.error
  }

  // A repeat without an exception has followed the protocol.
  predicate Follows(e: Engine, repeat: Repeat, scope: Json, base: FlowRecords, name: string, loop: Loop,
                    runs: seq<FlowRecord>) {
    match loop.outcome
    case Err(_) => true
    case Ok(halted) => Protocol(e, repeat, scope, base, name, halted, loop, runs)
  }

  predicate Repeatable(e: Engine, flow: Flow, repeat: Repeat, base: FlowRecords) {
    repeat.retryFlow.Some? ==>
      var retry := repeat.Retry();
      retry in e.plan.flows && e.plan.At(retry).name == retry && retry != flow.name && RunsOf(base, retry) == []
  }

  // A repeat under way: every attempt and retry run so far completed, and until was false.
  predicate UnderWay(e: Engine, flow: Flow, repeat: Repeat, scope: Json, base: FlowRecords, records: FlowRecords,
                     attempts: seq<FlowRecord>, runs: seq<FlowRecord>) {
    && |attempts| < repeat.maxAttempts
    && |runs| == (if repeat.retryFlow.Some? then |attempts| else 0)
    && AllCompleted(attempts) && AllCompleted(runs)
    && Kept(e, repeat, scope, base, flow.name, attempts, runs)
    && Went(e, repeat, scope, base, flow.name, attempts, runs)
    && records == Seen(base, flow.name, repeat.retryFlow, attempts, runs)
  }

  lemma SeenNext(flow: Flow, repeat: Repeat, base: FlowRecords, records: FlowRecords, attempts: seq<FlowRecord>,
                 runs: seq<FlowRecord>, run: FlowRecord)
    requires records == Seen(base, flow.name, repeat.retryFlow, attempts, runs)
    requires attempts == [] ==> runs == []
    ensures records[flow.name := run.(attempts := attempts + [run])] ==
            Seen(base, flow.name, repeat.retryFlow, attempts + [run], runs)
  {
  }

  lemma SeenRetried(name: string, retry: string, base: FlowRecords, attempts: seq<FlowRecord>, runs: seq<FlowRecord>,
                    r: FlowRecord, last: FlowRecord)
    requires attempts != [] && retry != name && RunsOf(base, retry) == []
    ensures var records := Seen(base, name, Some(retry), attempts, runs);
            && RunsOf(records, retry) == runs
            && records[retry := RetryRecord(r, runs)][name := last]
               == WithRuns(base, Some(retry), runs + [r])[name := last]
            && records[retry := RetryRecord(r, runs)] == Seen(base, name, Some(retry), attempts, runs + [r])
  {
  }

  // What is kept at an earlier attempt does not change with later ones.
  lemma KeptBefore(e: Engine, repeat: Repeat, scope: Json, base: FlowRecords, name: string, attempts: seq<FlowRecord>,
                   runs: seq<FlowRecord>, attempts': seq<FlowRecord>, runs': seq<FlowRecord>, k: int)
    requires Kept(e, repeat, scope, base, name, attempts, runs) && 0 <= k < |attempts|
    requires |runs| == (if repeat.retryFlow.Some? then |attempts| else 0) && runs <= runs' && attempts <= attempts'
    ensures KeptAt(e, repeat, scope, base, name, attempts', runs', k)
  {
    assert KeptAt(e, repeat, scope, base, name, attempts, runs, k);
    assert First(attempts', k + 1) == First(attempts, k + 1);
    assert RunsBefore(repeat, runs', k) == RunsBefore(repeat, runs, k);
  }

  lemma KeptNext(e: Engine, repeat: Repeat, scope: Json, base: FlowRecords, name: string, attempts: seq<FlowRecord>,
                 runs: seq<FlowRecord>, run: FlowRecord, runs': seq<FlowRecord>)
    requires Kept(e, repeat, scope, base, name, attempts, runs)
    requires |runs| == (if repeat.retryFlow.Some? then |attempts| else 0) && runs <= runs'
    requires UntilIs(e, repeat, scope, Seen(base, name, repeat.retryFlow, attempts + [run], runs), false)
    ensures Kept(e, repeat, scope, base, name, attempts + [run], runs')
  {
    var attempts' := attempts + [run];
    forall k | 0 <= k < |attempts'| ensures KeptAt(e, repeat, scope, base, name, attempts', runs', k) {
      if k < |attempts| {
        KeptBefore(e, repeat, scope, base, name, attempts, runs, attempts', runs', k);
      } else {
        assert First(attempts', k + 1) == attempts' && RunsBefore(repeat, runs', k) == runs;
      }
    }
  }

  // Only the last attempt is still open.
  lemma KeptSoFar(e: Engine, repeat: Repeat, scope: Json, base: FlowRecords, name: string, attempts: seq<FlowRecord>,
                  runs: seq<FlowRecord>, run: FlowRecord, runs': seq<FlowRecord>)
    requires Kept(e, repeat, scope, base, name, attempts, runs)
    requires |runs| == (if repeat.retryFlow.Some? then |attempts| else 0) && runs <= runs'
    ensures Kept(e, repeat, scope, base, name, First(attempts + [run], |attempts|), runs')
  {
    assert First(attempts + [run], |attempts|) == attempts;
    forall k | 0 <= k < |attempts| ensures KeptAt(e, repeat, scope, base, name, attempts, runs', k) {
      KeptBefore(e, repeat, scope, base, name, attempts, runs, attempts, runs', k);
    }
  }

  lemma WentNext(e: Engine, repeat: Repeat, scope: Json, base: FlowRecords, name: string, attempts: seq<FlowRecord>,
                 runs: seq<FlowRecord>, run: FlowRecord, r: FlowRecord)
    requires Went(e, repeat, scope, base, name, attempts, runs) && repeat.retryFlow.Some? && |runs| == |attempts|
    requires ContinueIs(e, repeat, scope, Seen(base, name, repeat.retryFlow, attempts + [run], runs + [r]), true)
    ensures Went(e, repeat, scope, base, name, attempts + [run], runs + [r])
  {
    var attempts', runs' := attempts + [run], runs + [r];
    forall k | 0 <= k < |attempts'| ensures WentAfter(e, repeat, scope, base, name, attempts', runs', k) {
      if k < |attempts| {
        assert WentAfter(e, repeat, scope, base, name, attempts, runs, k);
        assert First(attempts', k + 1) == First(attempts, k + 1) && First(runs', k + 1) == First(runs, k + 1);
      } else {
        assert First(attempts', k + 1) == attempts' && First(runs', k + 1) == runs';
      }
    }
  }

  lemma WentSoFar(e: Engine, repeat: Repeat, scope: Json, base: FlowRecords, name: string, attempts: seq<FlowRecord>,
                  runs: seq<FlowRecord>, run: FlowRecord, runs': seq<FlowRecord>)
    requires Went(e, repeat, scope, base, name, attempts, runs) && runs <= runs'
    ensures Went(e, repeat, scope, base, name, First(attempts + [run], |attempts|), runs')
  {
    assert First(attempts + [run], |attempts|) == attempts;
    if repeat.retryFlow.Some? {
      forall k | 0 <= k < |attempts| ensures WentAfter(e, repeat, scope, base, name, attempts, runs', k) {
        assert WentAfter(e, repeat, scope, base, name, attempts, runs, k);
        assert First(runs', k + 1) == First(runs, k + 1);
      }
    }
  }

  lemma ExplainedAlone(e: Engine, flow: Flow, repeat: Repeat, scope: Json, base: FlowRecords, records: FlowRecords,
                       attempts: seq<FlowRecord>, runs: seq<FlowRecord>, run: FlowRecord, halted: Halted)
    requires UnderWay(e, flow, repeat, scope, base, records, attempts, runs) && run.status != Skipped
    requires OwnVerdict(e, repeat, scope, Seen(base, flow.name, repeat.retryFlow, attempts + [run], runs), run,
                        |attempts| + 1, Ok(Halt(halted)))
    ensures Explained(e, repeat, scope, base, flow.name, halted, attempts + [run], runs)
  {
    if halted.stop == ByExhaustion {
      KeptNext(e, repeat, scope, base, flow.name, attempts, runs, run, runs);
    }
  }

  // The repeat ends after this attempt, without another retry run.
  lemma EndsAlone(e: Engine, flow: Flow, repeat: Repeat, scope: Json, base: FlowRecords, records: FlowRecords,
                  attempts: seq<FlowRecord>, runs: seq<FlowRecord>, run: FlowRecord, halted: Halted, loop: Loop)
    requires UnderWay(e, flow, repeat, scope, base, records, attempts, runs) && run.status != Skipped
    requires OwnVerdict(e, repeat, scope, records[flow.name := run.(attempts := attempts + [run])], run, |attempts| + 1,
                        Ok(Halt(halted)))
    requires loop.last == Standing(run, attempts + [run], halted.status, Some(halted.stop))
    requires loop.records == records[flow.name := loop.last]
    ensures Protocol(e, repeat, scope, base, flow.name, halted, loop, runs)
  {
    var attempts' := attempts + [run];
    SeenNext(flow, repeat, base, records, attempts, runs, run);
    KeptSoFar(e, repeat, scope, base, flow.name, attempts, runs, run, runs);
    WentSoFar(e, repeat, scope, base, flow.name, attempts, runs, run, runs);
    assert First(attempts', |attempts|) == attempts;
    ExplainedAlone(e, flow, repeat, scope, base, records, attempts, runs, run, halted);
  }

  // The repeat ends after a retry run that follows this attempt.
  lemma EndsRetried(e: Engine, flow: Flow, repeat: Repeat, scope: Json, base: FlowRecords, records: FlowRecords,
                    attempts: seq<FlowRecord>, runs: seq<FlowRecord>, run: FlowRecord, r: FlowRecord, halted: Halted,
                    after: FlowRecords, loop: Loop)
    requires UnderWay(e, flow, repeat, scope, base, records, attempts, runs) && Repeatable(e, flow, repeat, base)
    requires repeat.retryFlow.Some? && run.status == Completed
    requires RanOnce(records[flow.name := run.(attempts := attempts + [run])], after, repeat.Retry(), r)
    requires RetryVerdict(e, repeat, scope, after, r, Ok(Halt(halted)))
    requires loop.last == Standing(run, attempts + [run], halted.status, Some(halted.stop))
    requires loop.records == after[flow.name := loop.last]
    ensures Protocol(e, repeat, scope, base, flow.name, halted, loop, runs + [r])
  {
    SeenNext(flow, repeat, base, records, attempts, runs, run);
    SeenRetried(flow.name, repeat.Retry(), base, attempts + [run], runs, r, loop.last);
    KeptSoFar(e, repeat, scope, base, flow.name, attempts, runs, run, runs + [r]);
    WentSoFar(e, repeat, scope, base, flow.name, attempts, runs, run, runs + [r]);
    assert First(attempts + [run], |attempts|) == attempts;
    assert First(runs + [r], |runs|) == runs;
  }

  // ---- The repeat as a list of turns ----------------------------------------------------------

  // One attempt, the retry run after it if there was one, and the decision.
  datatype Turn = Turn(run: FlowRecord, retried: Option<FlowRecord>, decided: Decided)

  predicate TurnOf(e: Engine, repeat: Repeat, scope: Json, name: string, attempts: seq<FlowRecord>,
                   records: FlowRecords, turn: Turn) {
    && turn.run.status != Skipped && turn.run.attempts == []
    && Verdict(e, repeat, scope, records[name := turn.run.(attempts := attempts + [turn.run])], turn.run,
               |attempts| + 1, turn.retried, turn.decided)
  }

  // The turns a loop consists of, the last of them ending it.
  predicate Played(e: Engine, repeat: Repeat, scope: Json, name: string, attempts: seq<FlowRecord>,
                   records: FlowRecords, turns: seq<Turn>, loop: Loop)
    decreases |turns|
  {
    && turns != [] && TurnOf(e, repeat, scope, name, attempts, records, turns[0])
    && var turn := turns[0];
    var attempts' := attempts + [turn.run];
    match turn.decided.outcome
    case Err(_) => loop.outcome.Err? && loop.records == turn.decided.records
    case Ok(Halt(halted)) =>
      && loop.outcome == Ok(halted)
      && loop.last == Standing(turn.run, attempts', halted.status, Some(halted.stop))
      && loop.records == turn.decided.records[name := loop.last]
    case Ok(Again(_)) =>
      Played(e, repeat, scope, name, attempts', turn.decided.records[name := turn.run.(attempts := attempts')],
             turns[1..], loop)
  }

  predicate RetryNamed(e: Engine, repeat: Repeat) {
    repeat.retryFlow.Some? && repeat.Retry() in e.plan.flows ==> e.plan.At(repeat.Retry()).name == repeat.Retry()
  }

  lemma FirstTurn(e: Engine, flow: Flow, repeat: Repeat, item: Option<Object>, scope: Json, input: Json,
                  attempts: seq<FlowRecord>, records: FlowRecords, w: World, depth: int) returns (turn: Turn)
    requires RetryNamed(e, repeat)
    ensures TurnOf(e, repeat, scope, flow.name, attempts, records, turn)
    ensures var run := ExecuteFlow(e, flow, input, w, depth);
            var attempts' := attempts + [run.record];
            && turn.run == run.record
            && turn.decided == Decide(e, flow, repeat, item, scope, run, |attempts'|,
                                      records[flow.name := run.record.(attempts := attempts')], depth)
  {
    FlowRan(e, flow, input, w, depth);
    var run := ExecuteFlow(e, flow, input, w, depth);
    var attempts' := attempts + [run.record];
    var records' := records[flow.name := run.record.(attempts := attempts')];
    var retried := DecideOutcome(e, flow, repeat, item, scope, run, |attempts'|, records', depth);
    turn := Turn(run.record, retried, Decide(e, flow, repeat, item, scope, run, |attempts'|, records', depth));
  }

  lemma {:induction false} Plays(e: Engine, flow: Flow, repeat: Repeat, item: Option<Object>, scope: Json, input: Json,
                                 attempts: seq<FlowRecord>, records: FlowRecords, w: World, depth: int)
                                   returns (turns: seq<Turn>)
    requires RetryNamed(e, repeat) && |attempts| < repeat.maxAttempts
    ensures Played(e, repeat, scope, flow.name, attempts, records, turns,
                   Attempts(e, flow, repeat, item, scope, input, attempts, records, w, depth))
    decreases repeat.maxAttempts - |attempts|
  {
    var turn := FirstTurn(e, flow, repeat, item, scope, input, attempts, records, w, depth);
    turns := [turn];
    if turn.decided.outcome.Ok? && turn.decided.outcome.value.Again? {
      var attempts' := attempts + [turn.run];
      var rest := Plays(e, flow, repeat, item, scope, Obj(turn.decided.outcome.value.input), attempts',
                        turn.decided.records[flow.name := turn.run.(attempts := attempts')], turn.decided.world, depth);
      turns := [turn] + rest;
      assert turns[1..] == rest;
    }
  }

  // The turn that ends the repeat settles which retry runs there were.
  lemma Ends(e: Engine, flow: Flow, repeat: Repeat, scope: Json, base: FlowRecords, attempts: seq<FlowRecord>,
             runs: seq<FlowRecord>, records: FlowRecords, turn: Turn, halted: Halted, loop: Loop)
               returns (all: seq<FlowRecord>)
    requires Repeatable(e, flow, repeat, base) && UnderWay(e, flow, repeat, scope, base, records, attempts, runs)
    requires TurnOf(e, repeat, scope, flow.name, attempts, records, turn) && turn.decided.outcome == Ok(Halt(halted))
    requires loop.last == Standing(turn.run, attempts + [turn.run], halted.status, Some(halted.stop))
    requires loop.records == turn.decided.records[flow.name := loop.last]
    ensures Protocol(e, repeat, scope, base, flow.name, halted, loop, all)
  {
    if turn.retried.None? {
      all := runs;
      EndsAlone(e, flow, repeat, scope, base, records, attempts, runs, turn.run, halted, loop);
    } else {
      all := runs + [turn.retried.value];
      EndsRetried(e, flow, repeat, scope, base, records, attempts, runs, turn.run, turn.retried.value, halted,
                  turn.decided.records, loop);
    }
  }

  function RetryRuns(repeat: Repeat, records: FlowRecords): seq<FlowRecord> {
    if repeat.retryFlow.Some? then RunsOf(records, repeat.Retry()) else []
  }

  lemma {:induction false} PlayedProtocol(e: Engine, flow: Flow, repeat: Repeat, scope: Json, base: FlowRecords,
                                          attempts: seq<FlowRecord>, runs: seq<FlowRecord>, records: FlowRecords,
                                          turns: seq<Turn>, loop: Loop)
    requires Repeatable(e, flow, repeat, base) && UnderWay(e, flow, repeat, scope, base, records, attempts, runs)
    requires Played(e, repeat, scope, flow.name, attempts, records, turns, loop)
    ensures Follows(e, repeat, scope, base, flow.name, loop, RetryRuns(repeat, loop.records))
    decreases |turns|
  {
    var turn := turns[0];
    match turn.decided.outcome
    case Err(_) =>
    case Ok(Halt(halted)) =>
      var all := Ends(e, flow, repeat, scope, base, attempts, runs, records, turn, halted, loop);
    case Ok(Again(_)) =>
      var attempts' := attempts + [turn.run];
      Continues(e, flow, repeat, scope, base, records, attempts, runs, turn.run, turn.retried, turn.decided);
      PlayedProtocol(e, flow, repeat, scope, base, attempts', runs + RunIn(turn.retried),
                     turn.decided.records[flow.name := turn.run.(attempts := attempts')], turns[1..], loop);
  }

  function RunIn(run: Option<FlowRecord>): seq<FlowRecord> {
    if run.Some? then [run.value] else []
  }

  predicate IsAgain(outcome: Result<Decision, Exn>) {
    match outcome
    case Ok(Again(_)) => true
    case _ => false
  }

  lemma Continues(e: Engine, flow: Flow, repeat: Repeat, scope: Json, base: FlowRecords, records: FlowRecords,
                  attempts: seq<FlowRecord>, runs: seq<FlowRecord>, run: FlowRecord, retried: Option<FlowRecord>,
                  decided: Decided)
    requires UnderWay(e, flow, repeat, scope, base, records, attempts, runs) && Repeatable(e, flow, repeat, base)
    requires IsAgain(decided.outcome)
    requires Verdict(e, repeat, scope, records[flow.name := run.(attempts := attempts + [run])], run, |attempts| + 1,
                     retried, decided)
    ensures UnderWay(e, flow, repeat, scope, base, decided.records[flow.name := run.(attempts := attempts + [run])],
                     attempts + [run], runs + RunIn(retried))
  {
    var attempts' := attempts + [run];
    var current := run.(attempts := attempts');
    var all := runs + RunIn(retried);
    SeenNext(flow, repeat, base, records, attempts, runs, run);
    if retried.Some? {
      SeenRetried(flow.name, repeat.Retry(), base, attempts', runs, retried.value, current);
    }
    KeptNext(e, repeat, scope, base, flow.name, attempts, runs, run, all);
    if retried.Some? {
      WentNext(e, repeat, scope, base, flow.name, attempts, runs, run, retried.value);
    }
  }

  // Every repeat that ends without an exception has followed the protocol; the ledger
  // it leaves (its own attempts and the retry flow's runs) shows it.
  lemma RepeatFollowsProtocol(e: Engine, flow: Flow, repeat: Repeat, item: Option<Object>, scope: Json, input: Json,
                              records: FlowRecords, w: World, depth: int)
    requires Repeatable(e, flow, repeat, records) && repeat.maxAttempts > 0
    ensures var loop := Attempts(e, flow, repeat, item, scope, input, [], records, w, depth);
            Follows(e, repeat, scope, records, flow.name, loop, RetryRuns(repeat, loop.records))
  {
    var turns := Plays(e, flow, repeat, item, scope, input, [], records, w, depth);
    Starts(e, flow, repeat, scope, records);
    PlayedProtocol(e, flow, repeat, scope, records, [], [], records, turns,
                   Attempts(e, flow, repeat, item, scope, input, [], records, w, depth));
  }

  lemma Starts(e: Engine, flow: Flow, repeat: Repeat, scope: Json, base: FlowRecords)
    requires repeat.maxAttempts > 0
    ensures UnderWay(e, flow, repeat, scope, base, base, [], [])
  {
  }
}
