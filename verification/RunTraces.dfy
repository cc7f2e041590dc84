/**
 A run from its start to its end: which flows it went through over which records, and what its
 status and its output say about that.
 */
module RunTraces {
  import opened Foundations
  import opened Json
  import opened Bindings
  import opened Plans
  import opened Records
  import opened Engine
  import FlowTraces

  // ---- The flows a run goes through -----------------------------------------------------------------

  // The flow after these transitions.
  function Reached(start: string, ts: seq<TransitionRecord>, k: nat): string {
    if 0 < k <= |ts| && ts[k - 1].target.ToFlow? then ts[k - 1].target.flow else start
  }

  // Each flow runs over the records and in the world the one before it left, and its transition
  // leads to the next.
  ghost predicate Went(e: Engine, payload: Json, start: string, ts: seq<TransitionRecord>, records: seq<FlowRecords>,
                       worlds: seq<World>) {
    && |records| == |worlds| == |ts| + 1
    && forall k | 0 <= k < |ts| :: WentAt(e, payload, start, ts, records, worlds, k)
  }

  ghost predicate WentAt(e: Engine, payload: Json, start: string, ts: seq<TransitionRecord>,
                         records: seq<FlowRecords>, worlds: seq<World>, k: nat)
    requires k < |ts| && |records| == |worlds| == |ts| + 1
  {
    && Runs(e, Reached(start, ts, k), worlds[k]) && (k > 0 ==> ts[k - 1].target.ToFlow?)
    && RunRouted(e, e.plan.At(Reached(start, ts, k)), payload, records[k], None, worlds[k].Next())
       == RoutedRun(Ok(Next(ts[k])), records[k + 1], None, worlds[k + 1])
  }

  // A routed flow of the plan starts before the deadline.
  predicate Runs(e: Engine, name: string, w: World) {
    !e.expired(w.tick) && name in e.plan.flows && !e.plan.At(name).callable
  }

  // The last flow did not select a transition: it failed, or an exception reached the run.
  ghost predicate BreaksOff(e: Engine, payload: Json, name: string, records: FlowRecords, w: World, d: Drive) {
    match d.outcome
    case Ok((status, failure)) =>
      && Runs(e, name, w) && status == Failed
      && var routed := RunRouted(e, e.plan.At(name), payload, records, None, w.Next());
      routed.outcome == Ok(Stopped(failure)) && d.records == routed.records && d.world == routed.world
    case Err(exn) =>
      || (e.expired(w.tick) && exn == Error(RunTimeout) && d.records == records)
      || (!e.expired(w.tick) && exn == Error(InvalidConfiguration) && d.records == records)
      || (Runs(e, name, w)
          && var routed := RunRouted(e, e.plan.At(name), payload, records, None, w.Next());
          routed.outcome == Err(exn) && d.records == routed.records)
  }

  // The drive ends by a transition to an outcome, or breaks off after the last one.
  ghost predicate Ends(e: Engine, payload: Json, start: string, records: seq<FlowRecords>, worlds: seq<World>,
                       d: Drive) {
    var n := |d.transitions|;
    && Went(e, payload, start, d.transitions, records, worlds)
    && if n > 0 && d.transitions[n - 1].target.ToOutcome? then
         && d.records == records[n] && d.world == worlds[n]
         && d.outcome == Ok((if d.transitions[n - 1].target.outcome == EndCompleted then Completed
                             else NeedsReview, None))
       else BreaksOff(e, payload, Reached(start, d.transitions, n), records[n], worlds[n], d)
  }

  lemma WentNext(e: Engine, payload: Json, start: string, ts: seq<TransitionRecord>, records: seq<FlowRecords>,
                 worlds: seq<World>, t: TransitionRecord, after: FlowRecords, w: World)
    requires Went(e, payload, start, ts, records, worlds) && (ts != [] ==> ts[|ts| - 1].target.ToFlow?)
    requires Runs(e, Reached(start, ts, |ts|), worlds[|ts|])
    requires RunRouted(e, e.plan.At(Reached(start, ts, |ts|)), payload, records[|ts|], None, worlds[|ts|].Next())
             == RoutedRun(Ok(Next(t)), after, None, w)
    ensures Went(e, payload, start, ts + [t], records + [after], worlds + [w])
  {
    var ts', records', worlds' := ts + [t], records + [after], worlds + [w];
    forall k | 0 <= k < |ts'| ensures WentAt(e, payload, start, ts', records', worlds', k) {
      assert Reached(start, ts', k) == Reached(start, ts, k);
      if k < |ts| {
        assert WentAt(e, payload, start, ts, records, worlds, k);
      }
    }
  }

  lemma LeavesNothingActive(e: Engine, flow: Flow, payload: Json, records: FlowRecords, w: World)
    ensures var routed := RunRouted(e, flow, payload, records, None, w);
            routed.outcome.Ok? ==> routed.active.None?
  {
  }

  predicate GoesOn(outcome: Result<Boundary, Exn>) {
    match outcome
    case Ok(Next(_)) => true
    case _ => false
  }

  // The drive at a flow that selects no transition.
  lemma DriveBreaks(e: Engine, payload: Json, name: string, visited: set<string>, records: FlowRecords,
                    ts: seq<TransitionRecord>, w: World)
    requires !Enters(e, name, visited, w)
             || !GoesOn(RunRouted(e, e.plan.At(name), payload, records, None, w.Next()).outcome)
    ensures var d := DriveFrom(e, payload, name, visited, records, ts, w);
            BreaksOff(e, payload, name, records, w, d) && d.transitions == ts
  {
  }

  // The drive at a flow whose transition ends the run.
  lemma DriveStops(e: Engine, payload: Json, name: string, visited: set<string>, records: FlowRecords,
                   ts: seq<TransitionRecord>, w: World, routed: RoutedRun, t: TransitionRecord)
    requires Enters(e, name, visited, w) && routed == RunRouted(e, e.plan.At(name), payload, records, None, w.Next())
    requires routed.outcome == Ok(Next(t)) && t.target.ToOutcome?
    ensures var d := DriveFrom(e, payload, name, visited, records, ts, w);
            && d.transitions == ts + [t] && d.records == routed.records && d.world == routed.world
            && d.outcome == Ok((if t.target.outcome == EndCompleted then Completed else NeedsReview, None))
  {
  }

  lemma {:induction false} DriveWent(e: Engine, payload: Json, start: string, visited: set<string>,
                                     ts: seq<TransitionRecord>, records: seq<FlowRecords>, worlds: seq<World>)
    returns (records': seq<FlowRecords>, worlds': seq<World>)
    requires Went(e, payload, start, ts, records, worlds) && (ts != [] ==> ts[|ts| - 1].target.ToFlow?)
    ensures Ends(e, payload, start, records', worlds',
                 DriveFrom(e, payload, Reached(start, ts, |ts|), visited, records[|ts|], ts, worlds[|ts|]))
    ensures records'[0] == records[0] && worlds'[0] == worlds[0]
    decreases if |visited| < |e.plan.order| then |e.plan.order| - |visited| else 0
  {
    records', worlds' := records, worlds;
    var name, w := Reached(start, ts, |ts|), worlds[|ts|];
    var routed := RunRouted(e, e.plan.At(name), payload, records[|ts|], None, w.Next());
    if Enters(e, name, visited, w) && GoesOn(routed.outcome) {
      var t := routed.outcome.value.transition;
      LeavesNothingActive(e, e.plan.At(name), payload, records[|ts|], w.Next());
      WentNext(e, payload, start, ts, records, worlds, t, routed.records, routed.world);
      records', worlds' := records + [routed.records], worlds + [routed.world];
      if t.target.ToFlow? {
        DriveGoesOn(e, payload, name, visited, records[|ts|], ts, w, routed, t, t.target.flow);
        records', worlds' := DriveWent(e, payload, start, visited + {name}, ts + [t], records', worlds');
      } else {
        DriveStops(e, payload, name, visited, records[|ts|], ts, w, routed, t);
      }
    } else {
      DriveBreaks(e, payload, name, visited, records[|ts|], ts, w);
    }
  }

  // ---- The run --------------------------------------------------------------------------------------

  // What a run that did not fail delivers.
  predicate Delivers(e: Engine, payload: Json, records: FlowRecords, delivered: Json) {
    match e.plan.output
    case None => delivered == payload
    case Some(output) => ResolveBinding(output, WorkflowContext(payload, e.metadata, records)) == Ok(delivered)
  }

  // A run that completed or needs review went, from the flow its payload starts with, through
  // flow after flow to a transition that ends it so, and delivers its output over the last records.
  ghost predicate WentThrough(e: Engine, payload: Json, records: seq<FlowRecords>, worlds: seq<World>, r: RunResult) {
    var n := |r.transitions|;
    && n > 0 && r.start.Some? && SelectStart(e, payload) == Ok(r.start.value)
    && Went(e, payload, r.start.value.flow, r.transitions, records, worlds)
    && records[0] == InitialRecords(e.plan) && records[n] == r.records
    && r.transitions[n - 1].target == ToOutcome(if r.status == Completed then EndCompleted else EndNeedsReview)
    && r.error.None? && Delivers(e, payload, r.records, r.payload) && !e.expired(worlds[n].tick)
  }

  // The run failed by this exception; the error it reports is the recorded one.
  predicate CrashedBy(payload: Json, exn: Exn, r: RunResult) {
    && r.status == Failed && r.payload == payload && r.error.Some?
    && (FlowTraces.RecordedAs(exn, true, r.error.value) || FlowTraces.RecordedAs(exn, false, r.error.value))
  }

  lemma Crashes(e: Engine, payload: Json, exn: Exn, records: FlowRecords, active: Option<string>,
                ts: seq<TransitionRecord>, start: Option<StartRecord>, w: World)
    ensures var r := Crash(e, payload, exn, records, active, ts, start, w);
            CrashedBy(payload, exn, r) && r.transitions == ts && r.start == start
  {
  }

  // Why a run failed after its flows: a flow did, the output could not be delivered, or too late.
  predicate FailedAfter(e: Engine, payload: Json, d: Drive, r: RunResult) {
    match d.outcome
    case Err(exn) => CrashedBy(payload, exn, r)
    case Ok((status, failure)) =>
      || (e.expired(d.world.tick) && CrashedBy(payload, Error(RunTimeout), r))
      || (status == Failed && r.payload == payload && r.error == failure && r.records == d.records)
      || (status != Failed && Undelivered(e, payload, d.records, r))
  }

  predicate Undelivered(e: Engine, payload: Json, records: FlowRecords, r: RunResult) {
    match e.plan.output
    case None => false
    case Some(output) =>
      match ResolveBinding(output, WorkflowContext(payload, e.metadata, records))
      case Err(code) => CrashedBy(payload, Error(code), r)
      case Ok(_) => false
  }

  lemma FinishDelivers(e: Engine, payload: Json, d: Drive, start: StartRecord)
    requires d.outcome.Ok? && d.outcome.value.0 != Skipped && (d.outcome.value.0 == Failed || d.outcome.value.1.None?)
    ensures var status := d.outcome.value.0;
            var r := Finish(e, payload, status, d.outcome.value.1, d.records, d.transitions, start, d.world);
            if r.status == Failed then FailedAfter(e, payload, d, r)
            else
              && status == r.status && r.records == d.records && r.transitions == d.transitions
              && r.start == Some(start) && r.error.None? && Delivers(e, payload, d.records, r.payload)
              && !e.expired(d.world.tick)
  {
    var status, ts := d.outcome.value.0, d.transitions;
    var context := WorkflowContext(payload, e.metadata, d.records);
    if status != Failed && e.plan.output.Some? && ResolveBinding(e.plan.output.value, context).Err? {
      Crashes(e, payload, Error(ResolveBinding(e.plan.output.value, context).error), d.records, None, ts, Some(start),
              d.world);
    } else if e.expired(d.world.tick) {
      Crashes(e, payload, Error(RunTimeout), d.records, None, ts, Some(start), d.world.Next());
    }
  }

  // How the run ends, given its drive.
  ghost predicate EndsRun(e: Engine, payload: Json, start: StartRecord, records: seq<FlowRecords>, worlds: seq<World>,
                          d: Drive, r: RunResult) {
    && Ends(e, payload, start.flow, records, worlds, d) && records[0] == InitialRecords(e.plan)
    && if r.status == Failed then FailedAfter(e, payload, d, r) else WentThrough(e, payload, records, worlds, r)
  }

  lemma DriveEnds(e: Engine, payload: Json, start: StartRecord, records: seq<FlowRecords>, worlds: seq<World>, d: Drive)
    requires Ends(e, payload, start.flow, records, worlds, d) && SelectStart(e, payload) == Ok(start)
    requires d.outcome.Ok? && records[0] == InitialRecords(e.plan)
    ensures EndsRun(e, payload, start, records, worlds, d,
                    Finish(e, payload, d.outcome.value.0, d.outcome.value.1, d.records, d.transitions, start, d.world))
  {
    FinishDelivers(e, payload, d, start);
  }

  // Every run fails at its start, or goes through its flows and ends as the last of them says.
  lemma RunTrace(e: Engine, payload: Json, w: World)
    returns (records: seq<FlowRecords>, worlds: seq<World>, d: Drive)
    ensures var r := Run(e, payload, w);
            match SelectStart(e, payload)
            case Err(exn) => CrashedBy(payload, exn, r)
            case Ok(start) => EndsRun(e, payload, start, records, worlds, d, r) && worlds[0] == w
  {
    records, worlds := [InitialRecords(e.plan)], [w];
    d := DriveFrom(e, payload, "", {}, records[0], [], w);
    match SelectStart(e, payload)
    case Err(exn) =>
      Crashes(e, payload, exn, InitialRecords(e.plan), None, [], None, w);
    case Ok(start) =>
      assert Reached(start.flow, [], 0) == start.flow;
      records, worlds := DriveWent(e, payload, start.flow, {}, [], records, worlds);
      d := DriveFrom(e, payload, start.flow, {}, InitialRecords(e.plan), [], w);
      if d.outcome.Ok? {
        DriveEnds(e, payload, start, records, worlds, d);
      } else {
        Crashes(e, payload, d.outcome.error, d.records, d.active, d.transitions, Some(start), d.world);
      }
  }
}
