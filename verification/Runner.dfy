/**
 The workflow runner as it is written: loops over mutable invocation state.  Every
 method is proved equal to the engine function of the same name.
 */
module Runner {
  import opened Foundations
  import opened Json
  import opened Bindings
  import opened Conditions
  import opened Plans
  import opened Accounting
  import opened Records
  import Eng = Engine
  import opened Engine

  lemma UsageStep(order: seq<string>, k: nat, records: FlowRecords)
    requires k < |order|
    ensures Total(RecordedUsage(order[..k + 1], records)) ==
            var before := Total(RecordedUsage(order[..k], records));
            if order[k] in records && records[order[k]].TotalUsage().Some?
            then before.Plus(records[order[k]].TotalUsage().value) else before
  {
    assert order[..k + 1][..k] == order[..k];
    var before := RecordedUsage(order[..k], records);
    if order[k] in records && records[order[k]].TotalUsage().Some? {
      assert (before + [records[order[k]].TotalUsage().value])[..|before|] == before;
    } else {
      assert before + [] == before;
    }
  }

  // One invocation: the step counter, the workflow-level records, the flow whose
  // failure an exception would be charged to, and the position of the oracles.
  class Invocation {
    const e: Eng.Engine
    var tick: nat
    var consumed: nat
    var spent: seq<Usage>
    var records: FlowRecords
    var active: Option<string>

    constructor (e: Eng.Engine, w: World)
      ensures this.e == e && Now() == w && records == map[] && active == None
    {
      this.e := e;
      tick, consumed, spent := w.tick, w.consumed, w.spent;
      records, active := map[], None;
    }

    function Now(): World
      reads this
    {
      World(tick, consumed, spent)
    }

    // asyncio's clock against the run deadline.
    method PastDeadline() returns (past: bool)
      modifies this`tick
      ensures past == e.expired(old(tick)) && tick == old(tick) + 1
    {
      past := e.expired(tick);
      tick := tick + 1;
    }

    method FailureOf(exn: Exn) returns (failure: Failure)
      modifies this`tick
      ensures (failure, Now()) == RecordFailure(e, exn, old(Now()))
    {
      if IsTimeout(exn) {
        var past := PastDeadline();
        return Failure(if past then RunTimeout else RequestTimeout, false);
      }
      return if exn.Service? then Failure(exn.code, exn.retryable) else Failure(DependencyFailure, false);
    }

    // ---- One flow ---------------------------------------------------------------

    method Abort(steps: StepRecords, usage: Usage, exn: Exn, current: Option<Active>) returns (record: FlowRecord)
      modifies this`tick
      ensures forall issues ::
                FlowRun(record, issues, Now()) ==
                Eng.Abort(e, Progress(steps, usage, old(Now())), exn, current, issues)
    {
      var failure := FailureOf(exn);
      var steps' := steps;
      if current.Some? {
        steps' := steps[current.value.name :=
          StepRecord(Failed, None, Some(failure), Some(current.value.usage), None, None, current.value.collection)];
      }
      return FlowRecord(Failed, steps', None, Some(usage), Some(failure), [], None);
    }

    method Project(flow: Flow, payload: Json, steps: StepRecords, usage: Usage, status: Status, issues: seq<Issue>)
      returns (record: FlowRecord)
      modifies this`tick
      ensures FlowRun(record, issues, Now()) ==
              Eng.Project(e, flow, payload, Progress(steps, usage, old(Now())), status, issues)
    {
      var result := payload;
      if flow.output.Some? {
        var resolved := ResolveBinding(flow.output.value, FlowContext(payload, e.metadata, steps));
        if resolved.Err? {
          record := Abort(steps, usage, Error(resolved.error), None);
          return;
        }
        result := resolved.value;
      }
      return FlowRecord(status, steps, Some(result), Some(usage), None, [], None);
    }

    method ExecuteFlow(flow: Flow, payload: Json, depth: int) returns (record: FlowRecord, issues: seq<Issue>)
      modifies this`tick, this`consumed, this`spent
      ensures FlowRun(record, issues, Now()) == Eng.ExecuteFlow(e, flow, payload, old(Now()), depth)
      decreases LIMIT - depth, 2
    {
      var steps, usage, status := SkippedSteps(flow.steps), NO_USAGE, Completed;
      issues := [];
      var k := 0;
      while k < |flow.steps|
        invariant k <= |flow.steps| && issues == []
        invariant Eng.RunSteps(e, flow, payload, k, Progress(steps, usage, Now()), depth) ==
                  Eng.ExecuteFlow(e, flow, payload, old(Now()), depth)
      {
        var run := RunStep(flow.steps[k], payload, steps, usage, depth);
        steps, usage := run.progress.steps, run.progress.usage;
        if run.Interrupted? {
          record := Abort(steps, usage, run.exn, run.active);
          return;
        }
        if run.Ran? && run.record.status == Failed {
          record := FlowRecord(Failed, steps, None, Some(usage), run.record.error, [], None);
          return;
        }
        if run.Ran? && run.record.status == NeedsReview {
          issues := run.issues;
          record := Project(flow, payload, steps, usage, NeedsReview, issues);
          return;
        }
        k := k + 1;
      }
      record := Project(flow, payload, steps, usage, status, issues);
    }

    // One iteration of the step loop, up to the point where the loop reacts to it.
    method RunStep(step: Step, payload: Json, steps: StepRecords, usage: Usage, depth: int) returns (run: StepRun)
      modifies this`tick, this`consumed, this`spent
      ensures run == Eng.RunStep(e, step, payload, Progress(steps, usage, old(Now())), depth)
      ensures run.progress.world == Now()
      decreases LIMIT - depth, 1, 1
    {
      var past := PastDeadline();
      if past {
        return Interrupted(Error(RunTimeout), None, Progress(steps, usage, Now()));
      }
      var context := FlowContext(payload, e.metadata, steps);
      if step.guard.Some? {
        var holds := Evaluate(step.guard.value, context, e.matcher);
        if holds.Err? {
          return Interrupted(Error(holds.error), None, Progress(steps, usage, Now()));
        }
        if !holds.value {
          return Bypassed(Progress(steps, usage, Now()));
        }
      }
      run := EnterStep(step, payload, steps, usage, depth);
    }

    method EnterStep(step: Step, payload: Json, steps: StepRecords, usage: Usage, depth: int) returns (run: StepRun)
      modifies this`tick, this`consumed, this`spent
      ensures run == Eng.EnterStep(e, step, payload, Progress(steps, usage, old(Now())), depth)
      ensures run.progress.world == Now()
      decreases LIMIT - depth, 1, 0
    {
      if consumed >= e.maxSteps {
        return Interrupted(Error(StepLimitReached), None, Progress(steps, usage, Now()));
      }
      consumed := consumed + 1;
      var inputs := ResolveBindings(step.Arguments(), FlowContext(payload, e.metadata, steps));
      if inputs.Err? {
        return Interrupted(Error(inputs.error), Some(Active(step.name, NO_USAGE, step.Collection?)),
                           Progress(steps, usage, Now()));
      }
      if step.Collection? {
        var result := ExecuteCollection(step, inputs.value, depth);
        if result.Err? {
          return Interrupted(result.error, Some(Active(step.name, NO_USAGE, true)), Progress(steps, usage, Now()));
        }
        var record := result.value;
        var spentHere := if record.usage.Some? then record.usage.value else NO_USAGE;
        return Ran(record, [], Progress(steps[step.name := record], usage.Plus(spentHere), Now()));
      }
      run := RunOperation(step, inputs.value, steps, usage);
    }

    method RunOperation(step: Step, inputs: Object, steps: StepRecords, usage: Usage) returns (run: StepRun)
      requires step.Operation?
      modifies this`tick, this`spent
      ensures run == Eng.RunOperation(e, step, inputs, Progress(steps, usage, old(Now())))
      ensures run.progress.world == Now()
    {
      var execution := e.execute(tick, step, inputs);
      tick, spent := tick + 1, spent + [execution.usage];
      var usage' := usage.Plus(execution.usage);
      var current := Some(Active(step.name, execution.usage, false));
      if execution.reply.TimedOut? {
        return Interrupted(Error(RunTimeout), current, Progress(steps, usage', Now()));
      }
      if execution.reply.Raised? {
        var exn := execution.reply.exn;
        if IsTimeout(exn) {
          var late := PastDeadline();
          exn := Error(if late then RunTimeout else RequestTimeout);
        }
        return Interrupted(exn, current, Progress(steps, usage', Now()));
      }
      var outcome := execution.reply.outcome;
      var past := PastDeadline();
      if past {
        return Interrupted(Error(RunTimeout), current, Progress(steps, usage', Now()));
      }
      if !ValidOutcome(outcome, step) {
        return Interrupted(Error(InvalidOutput), current, Progress(steps, usage', Now()));
      }
      var frozen := Freeze(outcome.result);
      if frozen.Err? {
        return Interrupted(Error(InvalidOutput), current, Progress(steps, usage', Now()));
      }
      var record := StepRecord(if outcome.needsReview then NeedsReview else Completed, Some(frozen.value), None,
                               Some(execution.usage), outcome.selection, None, false);
      return Ran(record, if outcome.needsReview then outcome.issues else [],
                 Progress(steps[step.name := record], usage', Now()));
    }

    // ---- Collections --------------------------------------------------------------

    method CheckItems(step: Step, raw: seq<Json>) returns (result: Result<seq<Item>, Exn>)
      requires step.Collection?
      modifies this`tick
      ensures (result, Now()) == Eng.CheckItems(e, step, raw, [], {}, old(Now()))
    {
      var items: seq<Item>, seen: set<string> := [], {};
      while |items| < |raw|
        invariant |items| <= |raw|
        invariant Eng.CheckItems(e, step, raw, items, seen, Now()) == Eng.CheckItems(e, step, raw, [], {}, old(Now()))
        decreases |raw| - |items|
      {
        var past := PastDeadline();
        if past {
          return Err(Error(RunTimeout));
        }
        var item := ReadItem(step, raw[|items|], seen);
        if item.None? {
          return Err(Error(InvalidInput));
        }
        if item.value.flow !in e.plan.flows || !e.plan.At(item.value.flow).callable {
          return Err(Error(InvalidConfiguration));
        }
        var rejected := e.validate(item.value.flow, item.value.payload);
        if rejected.Some? {
          return Err(rejected.value);
        }
        seen := seen + {item.value.id};
        items := items + [item.value];
      }
      return Ok(items);
    }

    method ExecuteCollection(step: Step, inputs: Object, depth: int) returns (result: Result<StepRecord, Exn>)
      requires step.Collection?
      modifies this`tick, this`consumed, this`spent
      ensures (result, Now()) == Eng.ExecuteCollection(e, step, inputs, old(Now()), depth)
      decreases LIMIT - depth, 0
    {
      if depth >= LIMIT {
        return Err(Error(InvalidConfiguration));
      }
      if !ItemsOnly(step, inputs) {
        return Err(Error(InvalidInput));
      }
      var checked := CheckItems(step, RawItems(inputs));
      if checked.Err? {
        return Err(checked.error);
      }
      var batch := EmptyBatch(e.plan, checked.value);
      ghost var start, begin := batch, Now();
      var k := 0;
      while k < |batch.entries|
        invariant k <= |batch.entries|
        invariant Eng.RunItems(e, k, batch, Now(), depth + 1) == Eng.RunItems(e, 0, start, begin, depth + 1)
        decreases |batch.entries| - k
      {
        var entry := batch.entries[k];
        var outcome := RunItem(e.plan.At(entry.item.flow), entry.item.payload, depth + 1);
        if outcome.Err? {
          return Err(outcome.error);
        }
        var done := outcome.value;
        batch := batch.(
          entries := batch.entries[k := Entry(entry.item, done.record, done.retry)],
          usage := AddRun(AddRun(batch.usage, Some(done.record)), done.retry));
        if done.record.status == Failed || done.failure.Some? {
          batch := batch.(status := Failed,
                          failure := if done.failure.Some? then done.failure else done.record.error);
          break;
        }
        if done.record.status == NeedsReview {
          batch := batch.(status := NeedsReview);
        }
        k := k + 1;
      }
      return Ok(CollectionRecord(batch));
    }

    method RunItem(flow: Flow, payload: Object, depth: int) returns (result: Result<ItemDone, Exn>)
      modifies this`tick, this`consumed, this`spent
      ensures ItemRun(result, Now()) == Eng.RunItem(e, flow, payload, old(Now()), depth)
      decreases LIMIT - depth, 4
    {
      if flow.repeat.None? {
        var record, _ := ExecuteFlow(flow, Obj(payload), depth);
        return Ok(ItemDone(record, None, None));
      }
      var repeat := flow.Repeating();
      var local: FlowRecords, attempts: seq<FlowRecord>, input := map[], [], payload;
      while |attempts| < repeat.maxAttempts
        invariant Eng.Attempts(e, flow, repeat, Some(payload), Obj(payload), Obj(input), attempts, local, Now(),
                               depth) ==
                  Eng.Attempts(e, flow, repeat, Some(payload), Obj(payload), Obj(payload), [], map[], old(Now()), depth)
        decreases repeat.maxAttempts - |attempts|
      {
        var record, issues := ExecuteFlow(flow, Obj(input), depth);
        attempts := attempts + [record];
        local := local[flow.name := record.(attempts := attempts)];
        var decision;
        decision, local := Decide(flow, repeat, Some(payload), Obj(payload), record, issues, |attempts|, local, depth);
        if decision.Err? {
          return Err(decision.error);
        }
        if decision.value.Again? {
          local := local[flow.name := record.(attempts := attempts)];
          input := decision.value.input;
          continue;
        }
        var halted := decision.value.halted;
        local := local[flow.name := Standing(record, attempts, halted.status, Some(halted.stop))];
        var retry := if repeat.retryFlow.Some? && repeat.retryFlow.value in local
                     then Some(local[repeat.retryFlow.value]) else None;
        return Ok(ItemDone(local[flow.name], retry, halted.failure));
      }
      return Err(Error(InvalidConfiguration));
    }

    // ---- Repeats --------------------------------------------------------------------

    // After one attempt: run the retry flow and bind the next attempt.  The scope's
    // records are those of the workflow or of one collection item.
    method Decide(flow: Flow, repeat: Repeat, item: Option<Object>, scope: Json, record: FlowRecord, issues: seq<Issue>,
                  attempt: nat, scopeRecords: FlowRecords, depth: int)
      returns (decision: Result<Decision, Exn>, after: FlowRecords)
      modifies this`tick, this`consumed, this`spent
      ensures Decided(decision, after, Now()) ==
              Eng.Decide(e, flow, repeat, item, scope, FlowRun(record, issues, old(Now())), attempt, scopeRecords,
                         depth)
      decreases LIMIT - depth, 3, 2
    {
      after := scopeRecords;
      if record.status == Failed {
        return Ok(Halt(Halted(ByFailure, issues, None, None))), after;
      }
      if record.status == NeedsReview {
        return Ok(Halt(Halted(ByReview, issues, None, None))), after;
      }
      var until := Evaluate(repeat.until, WorkflowContext(scope, e.metadata, after), e.matcher);
      if until.Err? {
        return Err(Error(until.error)), after;
      }
      if until.value {
        return Ok(Halt(Halted(ByUntil, issues, None, None))), after;
      }
      if attempt >= repeat.maxAttempts {
        return Ok(Halt(Halted(ByExhaustion, issues, None, None))), after;
      }
      decision, after := GoOn(flow, repeat, item, scope, record, issues, after, depth);
    }

    method GoOn(flow: Flow, repeat: Repeat, item: Option<Object>, scope: Json, record: FlowRecord, issues: seq<Issue>,
                scopeRecords: FlowRecords, depth: int)
      returns (decision: Result<Decision, Exn>, after: FlowRecords)
      modifies this`tick, this`consumed, this`spent
      ensures Decided(decision, after, Now()) ==
              Eng.GoOn(e, flow, repeat, item, scope, FlowRun(record, issues, old(Now())), scopeRecords, depth)
      decreases LIMIT - depth, 3, 1
    {
      after := scopeRecords;
      if repeat.retryFlow.Some? {
        if repeat.retryFlow.value !in e.plan.flows {
          return Err(Unexpected), after;
        }
        decision, after := RunRetry(flow, repeat, e.plan.At(repeat.retryFlow.value), item, scope, issues, after,
                                    depth);
      } else {
        decision := Prepare(flow, repeat, item, scope, issues, after);
      }
    }

    method RunRetry(flow: Flow, repeat: Repeat, retry: Flow, item: Option<Object>, scope: Json, issues: seq<Issue>,
                    scopeRecords: FlowRecords, depth: int)
      returns (decision: Result<Decision, Exn>, after: FlowRecords)
      modifies this`tick, this`consumed, this`spent
      ensures Decided(decision, after, Now()) ==
              Eng.RunRetry(e, flow, repeat, retry, item, scope, issues, scopeRecords, old(Now()), depth)
      decreases LIMIT - depth, 3, 0
    {
      after := scopeRecords;
      var runs := RunsOf(after, retry.name);
      var inputs := FlowInput(e, retry.name, repeat.retryFlowInput, WorkflowContext(scope, e.metadata, after));
      if inputs.Err? {
        var failure := FailureOf(inputs.error);
        after := after[retry.name := RetryRecord(FailedBeforeRun(retry, failure), runs)];
        return Ok(Halt(Halted(ByFailure, issues, None, Some(failure)))), after;
      }
      var retried, retryIssues := ExecuteFlow(retry, Obj(inputs.value), depth);
      after := after[retry.name := RetryRecord(retried, runs)];
      if retried.status == Failed {
        return Ok(Halt(Halted(ByFailure, issues, None, retried.error))), after;
      }
      if retried.status == NeedsReview {
        return Ok(Halt(Halted(ByReview, retryIssues, Some(NeedsReview), None))), after;
      }
      if repeat.continueWhen.Some? {
        var proceed := Evaluate(repeat.continueWhen.value, WorkflowContext(scope, e.metadata, after), e.matcher);
        if proceed.Err? {
          return Err(Error(proceed.error)), after;
        }
        if !proceed.value {
          return Ok(Halt(Halted(ByContinueWhen, issues, None, None))), after;
        }
      }
      decision := Prepare(flow, repeat, item, scope, issues, after);
    }

    // Bind and validate the next attempt's input; a failure stops the repeat.
    method Prepare(flow: Flow, repeat: Repeat, item: Option<Object>, scope: Json, issues: seq<Issue>,
                   after: FlowRecords)
      returns (decision: Result<Decision, Exn>)
      modifies this`tick
      ensures Decided(decision, after, Now()) ==
              Eng.Prepare(e, flow, repeat, item, scope, issues, after, old(Now()))
    {
      var past := PastDeadline();
      var next := if past then Err(Error(RunTimeout))
                  else NextInput(e, flow, repeat, item, WorkflowContext(scope, e.metadata, after));
      if next.Err? {
        var failure := FailureOf(next.error);
        return Ok(Halt(Halted(ByFailure, issues, None, Some(failure))));
      }
      return Ok(Again(next.value));
    }

    // ---- Routed flows ------------------------------------------------------------------

    method Leave(flow: Flow, payload: Json, record: FlowRecord, failure: Option<Failure>, issues: seq<Issue>)
      returns (outcome: Result<Boundary, Exn>)
      modifies this`active
      ensures RoutedRun(outcome, records, active, Now()) ==
              Eng.Leave(e, flow, payload, record, failure, issues, old(records), old(Now()))
    {
      active := None;
      if record.status == Failed || failure.Some? {
        return Ok(Stopped(if failure.Some? then failure else record.error));
      }
      var selected := SelectTarget(e, flow, record.status, issues, WorkflowContext(payload, e.metadata, records));
      return if selected.Err? then Err(selected.error) else Ok(Boundary.Next(selected.value));
    }

    method RunRouted(flow: Flow, payload: Json) returns (outcome: Result<Boundary, Exn>)
      modifies this
      ensures RoutedRun(outcome, records, active, Now()) ==
              Eng.RunRouted(e, flow, payload, old(records), old(active), old(Now()))
    {
      var past := PastDeadline();
      if past {
        return Err(Error(RunTimeout));
      }
      active := Some(flow.name);
      var bound := FlowInput(e, flow.name, flow.input, WorkflowContext(payload, e.metadata, records));
      if bound.Err? {
        return Err(bound.error);
      }
      var input := bound.value;
      if flow.repeat.None? {
        var record, issues := ExecuteFlow(flow, Obj(input), 0);
        records := records[flow.name := record];
        outcome := Leave(flow, payload, record, None, issues);
        return;
      }
      var halted, last := RunRepeated(flow, flow.Repeating(), payload, Obj(bound.value));
      if halted.Err? {
        return Err(halted.error);
      }
      outcome := Leave(flow, payload, last, halted.value.failure, halted.value.issues);
    }

    // The attempts of a routed flow; last: its record as it finally stands.
    method RunRepeated(flow: Flow, repeat: Repeat, payload: Json, first: Json)
      returns (outcome: Result<Halted, Exn>, last: FlowRecord)
      requires active == Some(flow.name)
      modifies this
      ensures active == Some(flow.name)
      ensures Loop(outcome, last, records, Now()) ==
              Eng.Attempts(e, flow, repeat, None, payload, first, [], old(records), old(Now()), 0)
    {
      var input := first;
      var attempts: seq<FlowRecord> := [];
      last := SkippedFlow(flow);
      while |attempts| < repeat.maxAttempts
        invariant active == Some(flow.name) && (attempts == [] ==> last == SkippedFlow(flow))
        invariant Eng.Attempts(e, flow, repeat, None, payload, input, attempts, records, Now(), 0) ==
                  Eng.Attempts(e, flow, repeat, None, payload, first, [], old(records), old(Now()), 0)
        invariant attempts != [] ==> |attempts| < repeat.maxAttempts
        decreases repeat.maxAttempts - |attempts|
      {
        active := Some(flow.name);
        var decision;
        decision, last := RunAttempt(flow, repeat, payload, input, attempts);
        if decision.Err? {
          return Err(decision.error), last;
        }
        records := records[flow.name := last];
        if decision.value.Halt? {
          return Ok(decision.value.halted), last;
        }
        attempts, input := last.attempts, Obj(decision.value.input);
      }
      return Err(Error(InvalidConfiguration)), last;
    }

    // One attempt and the decision after it; last: the flow's record to be written.
    method RunAttempt(flow: Flow, repeat: Repeat, payload: Json, input: Json, attempts: seq<FlowRecord>)
      returns (decision: Result<Decision, Exn>, last: FlowRecord)
      requires |attempts| < repeat.maxAttempts
      modifies this
      ensures active == old(active) && last.attempts != [] && |last.attempts| == |attempts| + 1
      ensures var loop := Eng.Attempts(e, flow, repeat, None, payload, input, attempts, old(records), old(Now()), 0);
              match decision
              case Err(exn) => loop == Loop(Err(exn), last, records, Now())
              case Ok(Halt(halted)) => loop == Loop(Ok(halted), last, records[flow.name := last], Now())
              case Ok(Again(next)) =>
                && |last.attempts| < repeat.maxAttempts
                && loop == Eng.Attempts(e, flow, repeat, None, payload, Obj(next), last.attempts,
                                        records[flow.name := last], Now(), 0)
    {
      var record, issues := ExecuteFlow(flow, input, 0);
      last := record.(attempts := attempts + [record]);
      records := records[flow.name := last];
      var after;
      decision, after := Decide(flow, repeat, None, payload, record, issues, |last.attempts|, records, 0);
      records := after;
      if decision.Ok? && decision.value.Halt? {
        last := Standing(record, last.attempts, decision.value.halted.status, Some(decision.value.halted.stop));
      }
    }

    // ---- The run ---------------------------------------------------------------------------

    method Drive(payload: Json, start: string)
      returns (outcome: Result<(Status, Option<Failure>), Exn>, transitions: seq<TransitionRecord>)
      requires active == None
      modifies this
      ensures Eng.Drive(outcome, records, active, transitions, Now()) ==
              Eng.DriveFrom(e, payload, start, {}, old(records), [], old(Now()))
      ensures outcome.Ok? ==> active == None
    {
      var current, visited: set<string> := start, {};
      transitions := [];
      while true
        invariant active == None
        invariant Eng.DriveFrom(e, payload, current, visited, records, transitions, Now()) ==
                  Eng.DriveFrom(e, payload, start, {}, old(records), [], old(Now()))
        decreases if |visited| < |e.plan.order| then |e.plan.order| - |visited| else 0
      {
        ghost var at := Now();
        var past := PastDeadline();
        if past {
          return Err(Error(RunTimeout)), transitions;
        }
        if current in visited || |visited| >= |e.plan.order| || current !in e.plan.flows {
          return Err(Error(InvalidConfiguration)), transitions;
        }
        if e.plan.At(current).callable {
          return Err(Error(InvalidConfiguration)), transitions;
        }
        var ended, next;
        ended, next, transitions := Visit(payload, current, visited, transitions, at);
        if ended.Some? {
          return ended.value, transitions;
        }
        visited := visited + {current};
        current := next;
      }
    }

    // One flow of the drive: the end of the run, or the flow it leads to.
    method Visit(payload: Json, current: string, visited: set<string>, before: seq<TransitionRecord>, ghost at: World)
      returns (ended: Option<Result<(Status, Option<Failure>), Exn>>, next: string, transitions: seq<TransitionRecord>)
      requires active == None && Enters(e, current, visited, at) && Now() == at.Next()
      modifies this
      ensures var drive := Eng.DriveFrom(e, payload, current, visited, old(records), before, at);
              match ended
              case Some(outcome) => Eng.Drive(outcome, records, active, transitions, Now()) == drive
              case None => Eng.DriveFrom(e, payload, next, visited + {current}, records, transitions, Now()) == drive
      ensures ended.None? || ended.value.Ok? ==> active == None
    {
      next, transitions := current, before;
      var routed := RunRouted(e.plan.At(current), payload);
      if routed.Err? {
        return Some(Err(routed.error)), next, transitions;
      }
      if routed.value.Stopped? {
        return Some(Ok((Failed, routed.value.failure))), next, transitions;
      }
      var transition := routed.value.transition;
      transitions := transitions + [transition];
      if transition.target.ToOutcome? {
        return Some(Ok((DispositionStatus(transition.target.outcome), None))), next, transitions;
      }
      return None, transition.target.flow, transitions;
    }

    method Crash(payload: Json, exn: Exn, transitions: seq<TransitionRecord>, start: Option<StartRecord>)
      returns (result: RunResult)
      modifies this
      ensures result == Eng.Crash(e, payload, exn, old(records), old(active), transitions, start, old(Now()))
    {
      var failure := FailureOf(exn);
      if active.Some? && active.value in records && active.value in e.plan.flows {
        var previous := records[active.value].attempts;
        records := records[active.value :=
          FlowRecord(Failed, SkippedSteps(e.plan.At(active.value).steps), None, Some(NO_USAGE), Some(failure),
                     previous, if previous == [] then None else Some(ByFailure))];
      }
      var usage := SumUsage();
      return RunResult(Failed, payload, records, usage, Some(failure), transitions, start, Now());
    }

    // The run's usage: one pass over the records in plan order.
    method SumUsage() returns (usage: Usage)
      ensures usage == Total(RecordedUsage(e.plan.order, records))
    {
      usage := NO_USAGE;
      var order := e.plan.order;
      assert order[..0] == [];
      for k := 0 to |order|
        invariant usage == Total(RecordedUsage(order[..k], records))
      {
        UsageStep(order, k, records);
        var name := order[k];
        if name in records {
          var total := records[name].TotalUsage();
          if total.Some? {
            usage := usage.Plus(total.value);
          }
        }
      }
      assert order[..|order|] == order;
    }

    method Finish(payload: Json, status: Status, error: Option<Failure>, transitions: seq<TransitionRecord>,
                  start: StartRecord)
      returns (result: RunResult)
      requires active == None
      modifies this
      ensures result == Eng.Finish(e, payload, status, error, old(records), transitions, start, old(Now()))
    {
      var output := payload;
      if status != Failed && e.plan.output.Some? {
        var resolved := ResolveBinding(e.plan.output.value, WorkflowContext(payload, e.metadata, records));
        if resolved.Err? {
          result := Crash(payload, Error(resolved.error), transitions, Some(start));
          return;
        }
        output := resolved.value;
      }
      var past := PastDeadline();
      if past {
        result := Crash(payload, Error(RunTimeout), transitions, Some(start));
        return;
      }
      var usage := SumUsage();
      return RunResult(status, output, records, usage, error, transitions, Some(start), Now());
    }

    // The whole workflow, from the skipped records to the final result.
    method Run(payload: Json) returns (result: RunResult)
      requires active == None
      modifies this
      ensures result == Eng.Run(e, payload, old(Now()))
    {
      records := InitialRecords(e.plan);
      var selected := SelectStart(e, payload);
      if selected.Err? {
        result := Crash(payload, selected.error, [], None);
        return;
      }
      var start := selected.value;
      var outcome, transitions := Drive(payload, start.flow);
      if outcome.Err? {
        result := Crash(payload, outcome.error, transitions, Some(start));
        return;
      }
      result := Finish(payload, outcome.value.0, outcome.value.1, transitions, start);
    }
  }
}
