/**
 The trail of a run: its transitions form one chain from the start flow, no flow runs
 twice, and flows the compiler knows to have completed never stopped for review.
 */
module Trails {
  import opened Foundations
  import opened Json
  import opened Plans
  import opened Records
  import opened Engine
  import opened Routing
  import opened Repeats
  import opened Graphs
  import Dominators
  import opened Acceptance
  import opened GraphValidation

  // ---- What a repeat may touch -------------------------------------------------------

  predicate Untouched(name: string, retry: Option<string>, before: FlowRecords, after: FlowRecords) {
    && (forall m | m in before && m != name && retry != Some(m) :: m in after && FlowAt(after, m) == FlowAt(before, m))
    && forall m | m in after && m !in before :: m == name || retry == Some(m)
  }

  // The record of a repeat that ended.
  predicate Left(name: string, loop: Loop) {
    name in loop.records && FlowAt(loop.records, name) == loop.last && loop.last.status != Skipped
  }

  lemma {:induction false} PlayedTouches(e: Engine, repeat: Repeat, scope: Json, name: string,
                                         attempts: seq<FlowRecord>, records: FlowRecords, turns: seq<Turn>, loop: Loop)
    requires Played(e, repeat, scope, name, attempts, records, turns, loop)
    ensures Untouched(name, repeat.retryFlow, records, loop.records)
    ensures loop.outcome.Ok? ==> Left(name, loop)
    decreases |turns|
  {
    var turn := turns[0];
    if IsAgain(turn.decided.outcome) {
      var attempts' := attempts + [turn.run];
      PlayedTouches(e, repeat, scope, name, attempts', turn.decided.records[name := turn.run.(attempts := attempts')],
                    turns[1..], loop);
    }
  }

  lemma AttemptsTouch(e: Engine, flow: Flow, repeat: Repeat, item: Option<Object>, scope: Json, input: Json,
                      records: FlowRecords, w: World, depth: int)
    requires RetryNamed(e, repeat)
    ensures var loop := Attempts(e, flow, repeat, item, scope, input, [], records, w, depth);
            Untouched(flow.name, repeat.retryFlow, records, loop.records)
                && (loop.outcome.Ok? ==> Left(flow.name, loop))
  {
    if repeat.maxAttempts > 0 {
      var turns := Plays(e, flow, repeat, item, scope, input, [], records, w, depth);
      PlayedTouches(e, repeat, scope, flow.name, [], records, turns,
                    Attempts(e, flow, repeat, item, scope, input, [], records, w, depth));
    }
  }

  // ---- One move -------------------------------------------------------------------------

  // A transition follows an authored route for its reason.
  predicate Follows(plan: Plan, t: TransitionRecord) {
    && Routed(plan, t.source)
    && var flow := plan.At(t.source);
    match t.reason
    case NeedsReview =>
      && t.target != ToOutcome(EndCompleted)
      && (t.target in UnresolvedTargets(flow) || (flow.onUnresolved.None? && t.target == ToOutcome(EndNeedsReview)))
    case Completed => t.target in ForwardTargets(flow)
    case _ => false
  }

  predicate Stands(records: FlowRecords, t: TransitionRecord) {
    t.source in records && FlowAt(records, t.source).status == t.reason
  }

  // What one routed flow leaves behind.
  predicate Moves(plan: Plan, flow: Flow, routed: RoutedRun) {
    match routed.outcome
    case Ok(Next(t)) => t.source == flow.name && Follows(plan, t) && Stands(routed.records, t)
    case _ => true
  }

  lemma LeaveMoves(e: Engine, flow: Flow, payload: Json, record: FlowRecord, failure: Option<Failure>,
                   issues: seq<Issue>, records: FlowRecords, w: World)
    requires Routed(e.plan, flow.name) && e.plan.At(flow.name) == flow
    requires flow.name in records && FlowAt(records, flow.name) == record && record.status != Skipped
    ensures Moves(e.plan, flow, Leave(e, flow, payload, record, failure, issues, records, w))
  {
    if record.status != Failed && failure.None? {
      var context := WorkflowContext(payload, e.metadata, records);
      ReviewAuthored(e, flow, issues, context);
      ForwardAuthored(e, flow, context);
    }
  }

  lemma RoutedMoves(e: Engine, flow: Flow, payload: Json, records: FlowRecords, active: Option<string>, w: World)
    requires Routed(e.plan, flow.name) && e.plan.At(flow.name) == flow
    requires flow.repeat.Some? ==> RetryNamed(e, flow.Repeating())
    ensures Moves(e.plan, flow, RunRouted(e, flow, payload, records, active, w))
  {
    var bound := FlowInput(e, flow.name, flow.input, WorkflowContext(payload, e.metadata, records));
    if !e.expired(w.tick) && bound.Ok? {
      match flow.repeat
      case None =>
        FlowRan(e, flow, Obj(bound.value), w.Next(), 0);
        var run := ExecuteFlow(e, flow, Obj(bound.value), w.Next(), 0);
        LeaveMoves(e, flow, payload, run.record, None, run.issues, records[flow.name := run.record], run.world);
      case Some(repeat) =>
        AttemptsTouch(e, flow, repeat, None, payload, Obj(bound.value), records, w.Next(), 0);
        var loop := Attempts(e, flow, repeat, None, payload, Obj(bound.value), [], records, w.Next(), 0);
        if loop.outcome.Ok? {
          LeaveMoves(e, flow, payload, loop.last, loop.outcome.value.failure, loop.outcome.value.issues, loop.records,
                     loop.world);
        }
    }
  }

  // ---- The chain of transitions -----------------------------------------------------------

  predicate FollowsAt(plan: Plan, ts: seq<TransitionRecord>, k: nat)
    requires k < |ts|
  {
    Follows(plan, ts[k])
  }

  predicate Linked(ts: seq<TransitionRecord>, k: nat)
    requires k + 1 < |ts|
  {
    ts[k].target == ToFlow(ts[k + 1].source)
  }

  predicate Chained(plan: Plan, start: string, ts: seq<TransitionRecord>) {
    && (forall k {:trigger FollowsAt(plan, ts, k)} | 0 <= k < |ts| :: FollowsAt(plan, ts, k))
    && (ts != [] ==> ts[0].source == start)
    && forall k {:trigger Linked(ts, k)} | 0 <= k < |ts| - 1 :: Linked(ts, k)
  }

  // No flow runs twice.
  predicate Once(ts: seq<TransitionRecord>) {
    forall j, k | 0 <= j < k < |ts| :: ts[j].source != ts[k].source
  }

  predicate Stood(records: FlowRecords, ts: seq<TransitionRecord>) {
    forall k | 0 <= k < |ts| :: Stands(records, ts[k])
  }

  // Where the run stands between two flows.
  predicate At(start: string, ts: seq<TransitionRecord>, current: string) {
    if ts == [] then current == start else ts[|ts| - 1].target == ToFlow(current)
  }

  predicate Sources(ts: seq<TransitionRecord>, visited: set<string>) {
    && (forall k | 0 <= k < |ts| :: ts[k].source in visited)
    && forall v | v in visited :: exists k :: 0 <= k < |ts| && ts[k].source == v
  }

  predicate Trailing(plan: Plan, start: string, ts: seq<TransitionRecord>, records: FlowRecords) {
    Chained(plan, start, ts) && Once(ts) && Stood(records, ts)
  }

  // A run that did not fail ends at the outcome its last transition selects; a failed
  // one ends between flows.
  predicate EndsAt(ts: seq<TransitionRecord>, status: Option<Status>) {
    match status
    case Some(reached) =>
      && ts != [] && ts[|ts| - 1].target.ToOutcome?
      && DispositionStatus(ts[|ts| - 1].target.outcome) == reached
    case None => forall k | 0 <= k < |ts| :: ts[k].target.ToFlow?
  }

  function Reached(outcome: Result<(Status, Option<Failure>), Exn>): Option<Status> {
    if outcome.Ok? && outcome.value.0 != Failed then Some(outcome.value.0) else None
  }

  // Every flow is filed under its own name, and retry flows are callable.
  ghost predicate Filed(plan: Plan) {
    && (forall n | n in plan.flows :: plan.At(n).name == n)
    && forall n, r | HasRetry(plan, n, r) :: Callable(plan, r)
  }

  lemma ChainGrows(plan: Plan, start: string, ts: seq<TransitionRecord>, t: TransitionRecord)
    requires Chained(plan, start, ts) && At(start, ts, t.source) && Follows(plan, t)
    ensures Chained(plan, start, ts + [t])
  {
    var ts' := ts + [t];
    forall k | 0 <= k < |ts'| ensures FollowsAt(plan, ts', k) {
      if k < |ts| {
        assert FollowsAt(plan, ts, k);
      }
    }
    forall k | 0 <= k < |ts'| - 1 ensures Linked(ts', k) {
      if k + 1 < |ts| {
        assert Linked(ts, k);
      }
    }
  }

  function RetryFlowOf(flow: Flow): Option<string> {
    if flow.repeat.Some? then flow.Repeating().retryFlow else None
  }

  // ---- The whole drive ---------------------------------------------------------------------

  // What a drive leaves: one chain, standing records, and an end that fits the outcome.
  predicate Trail(plan: Plan, start: string, d: Drive) {
    && Trailing(plan, start, d.transitions, d.records)
    && EndsAt(d.transitions, Reached(d.outcome))
    && ActiveApart(d)
  }

  predicate ActiveApart(d: Drive) {
    d.active.Some? ==> forall k | 0 <= k < |d.transitions| :: d.transitions[k].source != d.active.value
  }

  predicate ActiveOnly(routed: RoutedRun, name: string) {
    routed.active.Some? ==> routed.active.value == name
  }

  lemma ActiveIsCurrent(e: Engine, flow: Flow, payload: Json, records: FlowRecords, w: World)
    ensures ActiveOnly(RunRouted(e, flow, payload, records, None, w), flow.name)
  {
  }

  lemma LeaveKeeps(e: Engine, flow: Flow, payload: Json, record: FlowRecord, failure: Option<Failure>,
                   issues: seq<Issue>, records: FlowRecords, w: World)
    ensures var left := Leave(e, flow, payload, record, failure, issues, records, w);
            left.records == records && left.world == w
  {
  }

  lemma RoutedTouches(e: Engine, flow: Flow, payload: Json, records: FlowRecords, active: Option<string>, w: World)
    requires flow.repeat.Some? ==> RetryNamed(e, flow.Repeating())
    ensures var routed := RunRouted(e, flow, payload, records, active, w);
            Untouched(flow.name, RetryFlowOf(flow), records, routed.records)
  {
    var bound := FlowInput(e, flow.name, flow.input, WorkflowContext(payload, e.metadata, records));
    var routed := RunRouted(e, flow, payload, records, active, w);
    if e.expired(w.tick) || bound.Err? {
      assert routed.records == records;
    } else if flow.repeat.Some? {
      var loop := Attempts(e, flow, flow.Repeating(), None, payload, Obj(bound.value), [], records, w.Next(), 0);
      AttemptsTouch(e, flow, flow.Repeating(), None, payload, Obj(bound.value), records, w.Next(), 0);
      if loop.outcome.Ok? {
        LeaveKeeps(e, flow, payload, loop.last, loop.outcome.value.failure, loop.outcome.value.issues, loop.records,
                   loop.world);
      }
      assert routed.records == loop.records;
    } else {
      var run := ExecuteFlow(e, flow, Obj(bound.value), w.Next(), 0);
      LeaveKeeps(e, flow, payload, run.record, None, run.issues, records[flow.name := run.record], run.world);
      assert routed.records == records[flow.name := run.record];
    }
  }

  lemma ChainOpen(plan: Plan, start: string, ts: seq<TransitionRecord>, current: string)
    requires Chained(plan, start, ts) && At(start, ts, current)
    ensures EndsAt(ts, None)
  {
    forall k | 0 <= k < |ts| ensures ts[k].target.ToFlow? {
      if k < |ts| - 1 {
        assert Linked(ts, k);
      }
    }
  }

  // The drive that stops at this move.
  function StopAt(outcome: Result<(Status, Option<Failure>), Exn>, ts: seq<TransitionRecord>,
                  routed: RoutedRun): Drive {
    Drive(outcome, routed.records, if outcome.Err? then routed.active else None, ts, routed.world)
  }

  ghost predicate Moved(e: Engine, start: string, current: string, visited: set<string>, ts: seq<TransitionRecord>,
                        routed: RoutedRun) {
    match routed.outcome
    case Err(exn) => Trail(e.plan, start, StopAt(Err(exn), ts, routed))
    case Ok(Stopped(failure)) => Trail(e.plan, start, StopAt(Ok((Failed, failure)), ts, routed))
    case Ok(Next(t)) =>
      match t.target
      case ToOutcome(outcome) => Trail(e.plan, start, StopAt(Ok((DispositionStatus(outcome), None)), ts + [t], routed))
      case ToFlow(next) =>
        Trailing(e.plan, start, ts + [t], routed.records) && Sources(ts + [t], visited + {current})
            && At(start, ts + [t], next)
  }

  lemma TrailMoves(e: Engine, start: string, payload: Json, current: string, visited: set<string>,
                   records: FlowRecords, ts: seq<TransitionRecord>, w: World)
    requires Filed(e.plan) && Routed(e.plan, current) && current !in visited
    requires Trailing(e.plan, start, ts, records) && Sources(ts, visited) && At(start, ts, current)
    ensures Moved(e, start, current, visited, ts, RunRouted(e, e.plan.At(current), payload, records, None, w))
  {
    var flow := e.plan.At(current);
    assert flow.repeat.Some? ==> RetryNamed(e, flow.Repeating());
    RoutedMoves(e, flow, payload, records, None, w);
    RoutedTouches(e, flow, payload, records, None, w);
    var routed := RunRouted(e, flow, payload, records, None, w);
    ActiveIsCurrent(e, flow, payload, records, w);
    var retry := RetryFlowOf(e.plan.At(current));
    assert retry.Some? ==> HasRetry(e.plan, current, retry.value);
    forall k | 0 <= k < |ts| ensures Stands(routed.records, ts[k]) {
      assert Stands(records, ts[k]) && ts[k].source in visited && FollowsAt(e.plan, ts, k);
    }
    MovedFrom(e, start, current, visited, ts, routed);
  }

  lemma MovedOn(plan: Plan, start: string, current: string, visited: set<string>, ts: seq<TransitionRecord>,
                records: FlowRecords, t: TransitionRecord)
    requires current !in visited && t.source == current && Follows(plan, t) && Stands(records, t)
    requires Trailing(plan, start, ts, records) && Sources(ts, visited) && At(start, ts, current)
    ensures Trailing(plan, start, ts + [t], records) && Sources(ts + [t], visited + {current})
  {
    ChainGrows(plan, start, ts, t);
    var ts' := ts + [t];
    forall v | v in visited + {t.source} ensures exists k :: 0 <= k < |ts'| && ts'[k].source == v {
      if v == t.source {
        assert ts'[|ts|].source == v;
      } else {
        var k :| 0 <= k < |ts| && ts[k].source == v;
        assert ts'[k].source == v;
      }
    }
  }

  lemma MovedFrom(e: Engine, start: string, current: string, visited: set<string>, ts: seq<TransitionRecord>,
                  routed: RoutedRun)
    requires Routed(e.plan, current) && current !in visited
    requires Trailing(e.plan, start, ts, routed.records) && Sources(ts, visited) && At(start, ts, current)
    requires Moves(e.plan, e.plan.At(current), routed) && e.plan.At(current).name == current
    requires ActiveOnly(routed, current)
    ensures Moved(e, start, current, visited, ts, routed)
  {
    ChainOpen(e.plan, start, ts, current);
    match routed.outcome
    case Ok(Next(t)) => MovedOn(e.plan, start, current, visited, ts, routed.records, t);
    case _ =>
  }

  lemma {:induction false} DriveTrail(e: Engine, start: string, payload: Json, current: string, visited: set<string>,
                                      records: FlowRecords, ts: seq<TransitionRecord>, w: World)
    requires Filed(e.plan) && Trailing(e.plan, start, ts, records) && Sources(ts, visited) && At(start, ts, current)
    ensures Trail(e.plan, start, DriveFrom(e, payload, current, visited, records, ts, w))
    decreases if |visited| < |e.plan.order| then |e.plan.order| - |visited| else 0
  {
    ChainOpen(e.plan, start, ts, current);
    if Enters(e, current, visited, w) {
      var routed := RunRouted(e, e.plan.At(current), payload, records, None, w.Next());
      TrailMoves(e, start, payload, current, visited, records, ts, w.Next());
      if Following(routed).Some? {
        var t, next := routed.outcome.value.transition, Following(routed).value;
        DriveGoesOn(e, payload, current, visited, records, ts, w, routed, t, next);
        DriveTrail(e, start, payload, next, visited + {current}, routed.records, ts + [t], routed.world);
      }
    }
  }

  // ---- The run ---------------------------------------------------------------------------------

  predicate OneTrail(plan: Plan, r: RunResult) {
    && (r.status != Failed ==> EndsAt(r.transitions, Some(r.status)))
    && match r.start
       case None => r.transitions == []
       case Some(start) => Trailing(plan, start.flow, r.transitions, r.records)
  }

  // The transitions of every run form one chain of authored routes from its start, over
  // distinct flows whose final records have the status the transition reports; the run's
  // status is the outcome the chain ends at.
  lemma RunTrail(e: Engine, payload: Json, w: World)
    requires Filed(e.plan)
    ensures OneTrail(e.plan, Run(e, payload, w))
  {
    var records, selected := InitialRecords(e.plan), SelectStart(e, payload);
    if selected.Ok? {
      var start := selected.value;
      DriveTrail(e, start.flow, payload, start.flow, {}, records, [], w);
      var d := DriveFrom(e, payload, start.flow, {}, records, [], w);
      if d.outcome.Err? {
        CrashTrail(e, payload, d.outcome.error, Some(start), start.flow, d);
      } else {
        FinishTrail(e, payload, start, d, d.outcome.value.0, d.outcome.value.1);
      }
    }
  }

  lemma CrashTrail(e: Engine, payload: Json, exn: Exn, start: Option<StartRecord>, first: string, d: Drive)
    requires Trailing(e.plan, first, d.transitions, d.records)
    requires ActiveApart(d)
    ensures Trailing(e.plan, first, d.transitions, Crash(e, payload, exn, d.records, d.active, d.transitions, start,
                                                         d.world).records)
  {
    var records := Crash(e, payload, exn, d.records, d.active, d.transitions, start, d.world).records;
    forall k | 0 <= k < |d.transitions| ensures Stands(records, d.transitions[k]) {
      assert Stands(d.records, d.transitions[k]);
    }
  }

  lemma FinishTrail(e: Engine, payload: Json, start: StartRecord, d: Drive, status: Status, error: Option<Failure>)
    ensures var r := Finish(e, payload, status, error, d.records, d.transitions, start, d.world);
            && r.records == d.records && r.transitions == d.transitions && r.start == Some(start)
            && (r.status != Failed ==> r.status == status)
  {
  }

  // ---- Review separation ---------------------------------------------------------------------------

  // Following the chain reaches every later flow.
  lemma ChainReaches(plan: Plan, start: string, ts: seq<TransitionRecord>, i: nat, k: nat)
    requires Chained(plan, start, ts) && i < k <= |ts|
    requires forall j | i <= j < k :: ts[j].target.ToFlow?
    ensures Reach(Routes(plan), ts[i].target.flow, ts[k - 1].target.flow)
  {
    var p := seq(k - i, j requires 0 <= j < k - i => ts[i + j].target.flow);
    forall j | 0 <= j < |p| - 1 ensures Edge(Routes(plan), p[j], p[j + 1]) {
      assert Linked(ts, i + j) && FollowsAt(plan, ts, i + j + 1);
      RouteTaken(plan, ts[i + j + 1]);
    }
    assert Connects(Routes(plan), p[0], p[|p| - 1], p);
  }

  lemma RouteTaken(plan: Plan, t: TransitionRecord)
    requires Follows(plan, t) && t.target.ToFlow?
    ensures Edge(Routes(plan), t.source, t.target.flow)
    ensures t.reason == NeedsReview ==> t.target.flow in FlowNames(UnresolvedTargets(plan.At(t.source)))
  {
    var flow := plan.At(t.source);
    assert t.target in FlowTargets(flow);
  }

  // No review route of the flow leads to the consumer.
  ghost predicate ReviewAvoids(plan: Plan, other: string, consumer: string) {
    forall t | t in FlowNames(UnresolvedTargets(plan.At(other))) ::
        t != consumer && !Reach(Routes(plan), t, consumer)
  }

  // Flows known to have completed whenever they ran before the consumer.
  ghost predicate CompletedBefore(plan: Plan, graph: FlowGraph, consumer: string, other: string) {
    && consumer in graph.ancestors && other in graph.ancestors[consumer] && other != consumer && Routed(plan, other)
    && ReviewAvoids(plan, other, consumer)
  }

  // `_completed_before`: collects every ancestor whose review routes avoid the consumer.
  method FlowsCompletedBefore(plan: Plan, graph: FlowGraph, consumer: string) returns (completed: set<string>)
    requires Plans.Ordered(plan) && graph.successors == Routes(plan) && consumer in graph.ancestors
    ensures forall other :: other in completed <==> CompletedBefore(plan, graph, consumer, other)
  {
    completed := {};
    for k := 0 to |plan.order|
      invariant forall other ::
                  other in completed <==> other in plan.order[..k] && CompletedBefore(plan, graph, consumer, other)
    {
      var other := plan.order[k];
      OrderStep(plan, k);
      if other in graph.ancestors[consumer] && other != consumer && Routed(plan, other) {
        var avoids := CheckReview(plan, graph, other, consumer);
        if avoids {
          completed := completed + {other};
        }
      }
      assert forall x :: x in plan.order[..k + 1] <==> x in plan.order[..k] || x == other;
    }
    forall other | CompletedBefore(plan, graph, consumer, other) ensures other in plan.order[..|plan.order|] {
      assert other in plan.order;
    }
  }

  method CheckReview(plan: Plan, graph: FlowGraph, other: string, consumer: string) returns (avoids: bool)
    requires Routed(plan, other) && graph.successors == Routes(plan)
    ensures avoids <==> ReviewAvoids(plan, other, consumer)
  {
    avoids := NoneReaches(graph.successors, FlowNames(UnresolvedTargets(plan.At(other))), consumer);
  }

  method NoneReaches(routes: Graph<string>, targets: seq<string>, consumer: string) returns (avoids: bool)
    ensures avoids <==> forall t | t in targets :: t != consumer && !Reach(routes, t, consumer)
  {
    for k := 0 to |targets|
      invariant forall j | 0 <= j < k :: targets[j] != consumer && !Reach(routes, targets[j], consumer)
    {
      var reaches := Reaches(routes, targets[k], consumer);
      if targets[k] == consumer || reaches {
        assert targets[k] in targets;
        return false;
      }
    }
    return true;
  }

  // A flow known to have completed before the consumer never stopped for review on the
  // way to it, on any run.
  lemma ReviewSeparation(plan: Plan, graph: FlowGraph, start: string, ts: seq<TransitionRecord>, i: nat, k: nat)
    requires Chained(plan, start, ts) && i < k <= |ts|
    requires forall j | i <= j < k :: ts[j].target.ToFlow?
    requires CompletedBefore(plan, graph, ts[k - 1].target.flow, ts[i].source)
    ensures ts[i].reason == Completed
  {
    ChainReaches(plan, start, ts, i, k);
    assert FollowsAt(plan, ts, i);
    RouteTaken(plan, ts[i]);
  }

  // The flow of one transition ran before the flow another one leads to.
  predicate RanBefore(r: RunResult, i: nat, k: nat, consumer: string) {
    i < k <= |r.transitions| && r.transitions[k - 1].target == ToFlow(consumer)
  }

  function SourceOf(r: RunResult, i: nat): string {
    if i < |r.transitions| then r.transitions[i].source else ""
  }

  // It left its boundary as completed, and its final record says so.
  predicate StaysCompleted(r: RunResult, i: nat) {
    && i < |r.transitions| && r.transitions[i].reason == Completed
    && r.transitions[i].source in r.records && r.records[r.transitions[i].source].status == Completed
  }

  // So it is on every run: a flow known to have completed before one that runs after it.
  lemma RunSeparates(e: Engine, graph: FlowGraph, payload: Json, w: World, i: nat, k: nat, consumer: string)
    requires Filed(e.plan) && RanBefore(Run(e, payload, w), i, k, consumer)
    requires CompletedBefore(e.plan, graph, consumer, SourceOf(Run(e, payload, w), i))
    ensures StaysCompleted(Run(e, payload, w), i)
  {
    RunTrail(e, payload, w);
    var r := Run(e, payload, w);
    var start := r.start.value.flow;
    OnlyLastEnds(e.plan, start, r.transitions, k);
    ReviewSeparation(e.plan, graph, start, r.transitions, i, k);
    assert Stands(r.records, r.transitions[i]);
  }

  lemma OnlyLastEnds(plan: Plan, start: string, ts: seq<TransitionRecord>, k: nat)
    requires Chained(plan, start, ts) && 0 < k <= |ts| && ts[k - 1].target.ToFlow?
    ensures forall j | 0 <= j < k :: ts[j].target.ToFlow?
  {
    forall j | 0 <= j < k ensures ts[j].target.ToFlow? {
      if j < k - 1 {
        assert Linked(ts, j);
      }
    }
  }

  // Whatever ran before a flow is one of its ancestors, so a condition the compiler
  // rejects for reading any other flow could never have seen it.
  lemma RanBeforeIsAncestor(plan: Plan, graph: FlowGraph, start: string, ts: seq<TransitionRecord>, i: nat, k: nat)
    requires Chained(plan, start, ts) && i < k <= |ts|
    requires forall j | i <= j < k :: ts[j].target.ToFlow?
    requires Exact(plan, graph) && Routed(plan, ts[k - 1].target.flow)
    ensures ts[i].source in graph.ancestors[ts[k - 1].target.flow]
  {
    ChainReaches(plan, start, ts, i, k);
    assert FollowsAt(plan, ts, i);
    RouteTaken(plan, ts[i]);
    AncestorIff(Routes(plan), Roots(plan), graph.dominators, graph.ancestors, ts[i].source, ts[i].target.flow,
                ts[k - 1].target.flow);
  }

  lemma RunVisitsAncestors(e: Engine, graph: FlowGraph, payload: Json, w: World, i: nat, k: nat, consumer: string)
    requires Filed(e.plan) && Exact(e.plan, graph) && Routed(e.plan, consumer)
    requires RanBefore(Run(e, payload, w), i, k, consumer)
    ensures IsAncestor(graph, SourceOf(Run(e, payload, w), i), consumer)
  {
    RunTrail(e, payload, w);
    var r := Run(e, payload, w);
    OnlyLastEnds(e.plan, r.start.value.flow, r.transitions, k);
    RanBeforeIsAncestor(e.plan, graph, r.start.value.flow, r.transitions, i, k);
  }

  predicate IsAncestor(graph: FlowGraph, n: string, consumer: string) {
    consumer in graph.ancestors && n in graph.ancestors[consumer]
  }

  lemma AncestorIff<N(!new)>(g: Graph<N>, starts: set<N>, dominators: Dominators.Sets<N>, ancestors: Dominators.Sets<N>,
                             a: N, b: N, n: N)
    requires Dominators.Analysed(g, starts, dominators, ancestors) && n in g
    requires Edge(g, a, b) && Reach(g, b, n)
    ensures n in ancestors && a in ancestors[n]
  {
    assert Beyond(g, a, n);
  }
}
