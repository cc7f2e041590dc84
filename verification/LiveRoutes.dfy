/**
 Route entries the compiler calls dead, and the flows only they lead to: runs select none of
 the former and start at or move to none of the latter, which therefore do not matter to any
 run.  Whatever a run sees at its boundaries is covered by the compiler's scopes.
 */
module LiveRoutes {
  import opened Foundations
  import opened Json
  import opened Bindings
  import opened Conditions
  import opened Plans
  import opened Records
  import opened Engine
  import opened Graphs
  import opened Acceptance
  import opened Routing
  import opened Trails
  import opened Production
  import opened StaticSchemas
  import opened StaticValues
  import opened StaticConditions
  import opened StaticScopes
  import opened StaticResults
  import opened StaticVerdicts
  import opened StaticPaths
  import opened FlowRows
  import opened Pointers
  import opened JsonEquality
  import opened Accounting
  import opened Repeats

  // ---- Static verdicts and selection ----------------------------------------------

  // The conditions of the first k entries are false.
  predicate FalseBefore(e: Engine, entries: seq<RouteEntry>, k: nat, context: Json) {
    forall j | 0 <= j < k && j < |entries| ::
      entries[j].condition.Some? && Evaluate(entries[j].condition.value, context, e.matcher) == Ok(false)
  }

  predicate PicksLive(links: Links, entries: seq<RouteEntry>, resolve: Resolver, picked: Result<(Target, nat), Exn>) {
    match picked
    case Err(_) => true
    case Ok((_, index)) => index < |entries| && !Dead(links, entries, resolve, index)
  }

  // Selection never picks a dead entry.
  lemma {:induction false} DeadNeverSelected(links: Links, entries: seq<RouteEntry>, resolve: Resolver, e: Engine,
                                             k: nat, context: Json)
    requires RouteShape(entries) && NarrowEntries(entries) && Fitting(links, resolve, context) && k <= |entries|
    requires FalseBefore(e, entries, k, context)
    ensures PicksLive(links, entries, resolve, SelectEntry(e, entries, k, context))
    decreases |entries| - k
  {
    if k < |entries| {
      if entries[k].condition.Some? {
        TruthHolds(links, entries[k].condition.value, resolve, context, e.matcher);
        if Evaluate(entries[k].condition.value, context, e.matcher) == Ok(false) {
          DeadNeverSelected(links, entries, resolve, e, k + 1, context);
        } else {
          EarlierUndecided(links, entries, resolve, e, k, context);
        }
      } else {
        EarlierUndecided(links, entries, resolve, e, k, context);
      }
    }
  }

  lemma EarlierUndecided(links: Links, entries: seq<RouteEntry>, resolve: Resolver, e: Engine, k: nat, context: Json)
    requires RouteShape(entries) && NarrowEntries(entries) && Fitting(links, resolve, context) && k <= |entries|
    requires FalseBefore(e, entries, k, context)
    ensures forall j | 0 <= j < k :: EntryTruth(links, entries[j], resolve) != Some(true)
  {
    forall j | 0 <= j < k ensures EntryTruth(links, entries[j], resolve) != Some(true) {
      TruthHolds(links, entries[j].condition.value, resolve, context, e.matcher);
    }
  }

  // The default is taken for null only, and the value is a string or null.
  ghost predicate DefaultForNull(selected: Result<TransitionRecord, Exn>, value: Result<Json, ErrorCode>,
                                 overlong: bool) {
    match selected
    case Err(exn) => exn == Error(if overlong then InvalidConfiguration else MissingBinding)
    case Ok(t) =>
      && (value == Ok(Null) || exists s :: value == Ok(Str(s)))
      && (t.selectedCase.None? ==> value == Ok(Null))
  }

  // With exhaustive cases the default target is taken only for null, and the run never fails
  // because the routed value is neither a string nor null.
  lemma ExhaustiveCases(links: Links, e: Engine, flow: Flow, binding: Binding, cases: seq<Case>, default: Target,
                        covers: seq<string>, resolve: Resolver, context: Json)
    requires flow.transition == Some(Cases(binding, cases, default, covers)) && Authored(binding)
    requires NarrowBinding(binding) && Exhaustive(links, binding, cases, resolve) && Fitting(links, resolve, context)
    ensures DefaultForNull(ForwardTarget(e, flow, context), ResolveBinding(binding, context),
                           Overlong(binding, context))
  {
    var static_ := BindingStatic(links, binding, resolve);
    BindingCovers(links, binding, resolve, context);
    ResolvesIffResolvable(binding, context);
    var value := ResolveBinding(binding, context);
    if value.Ok? {
      TypesCover(links, static_, value.value);
      StringOrNull(TypesOf(links, static_).value, value.value);
      ValuesCover(links, static_, value.value);
      if value.value.Str? {
        CaseFound(cases, value.value.s);
        assert value == Ok(Str(value.value.s));
      }
    }
  }

  lemma StringOrNull(kinds: set<Kind>, value: Json)
    requires kinds <= {KString, KNull} && Near(kinds, value)
    ensures value.Str? || value == Null
  {
    if OfSome(kinds, value) {
      var kind :| kind in kinds && OfKind(kind, value);
    }
  }

  // ---- Dead entries -----------------------------------------------------------------

  // A dead entry is named by its flow and index; the empty name is the start.
  type DeadSet = set<(string, nat)>

  // The entries of the conditional route of one source.
  function RouteOf(plan: Plan, source: string): seq<RouteEntry> {
    if source == "" then (if plan.start.StartRoute? then plan.start.entries else [])
    else if Routed(plan, source) && plan.At(source).transition.Some?
        && plan.At(source).transition.value.Conditional?
    then plan.At(source).transition.value.entries
    else []
  }

  predicate DeadAt(c: Catalog, plan: Plan, source: string, k: nat) {
    k < |RouteOf(plan, source)| && Dead(c.links, RouteOf(plan, source), BoundaryResolver(c, plan), k)
  }

  ghost predicate AllDead(c: Catalog, plan: Plan, dead: DeadSet) {
    forall source, k: nat :: (source, k) in dead <==> DeadAt(c, plan, source, k)
  }

  // ---- Finding the dead entries -------------------------------------------------------------

  method DeadOf(c: Catalog, plan: Plan, source: string) returns (dead: DeadSet)
    ensures forall s, k: nat :: (s, k) in dead <==> s == source && DeadAt(c, plan, s, k)
  {
    var indexes := DeadEntries(c.links, RouteOf(plan, source), BoundaryResolver(c, plan));
    dead := set k | k in indexes :: (source, k);
  }

  // The start's dead entries and every routed flow's.
  method CollectDead(c: Catalog, plan: Plan) returns (dead: DeadSet)
    requires Plans.Ordered(plan)
    ensures AllDead(c, plan, dead)
  {
    dead := DeadOf(c, plan, "");
    for i := 0 to |plan.order|
      invariant forall s, k: nat :: (s, k) in dead <==> (s == "" || s in plan.order[..i]) && DeadAt(c, plan, s, k)
    {
      var more := DeadOf(c, plan, plan.order[i]);
      dead := dead + more;
      assert forall s :: s in plan.order[..i + 1] <==> s in plan.order[..i] || s == plan.order[i];
    }
    forall s, k: nat ensures (s, k) in dead <==> DeadAt(c, plan, s, k) {
      if s != "" && DeadAt(c, plan, s, k) {
        assert s in plan.flows.Keys;
        assert s in plan.order && plan.order[..|plan.order|] == plan.order;
      }
    }
  }

  // ---- What stays live ---------------------------------------------------------------------

  // The flows among the first k entries whose entry is not dead.
  function LiveEntries(entries: seq<RouteEntry>, source: string, dead: DeadSet, k: nat): seq<string>
    requires k <= |entries|
  {
    if k == 0 then []
    else
      var target := entries[k - 1].target;
      LiveEntries(entries, source, dead, k - 1) + if target.ToFlow? && (source, k - 1) !in dead then [target.flow]
          else []
  }

  function LiveForward(flow: Flow, dead: DeadSet): seq<string> {
    if flow.transition.Some? && flow.transition.value.Conditional?
    then LiveEntries(flow.transition.value.entries, flow.name, dead, |flow.transition.value.entries|)
    else FlowNames(ForwardTargets(flow))
  }

  function CalledFlows(steps: seq<Step>): seq<string> {
    if steps == [] then []
    else (if steps[0].Collection? then steps[0].flows else []) + CalledFlows(steps[1..])
  }

  // Review routes may be selected by any issue; their conditions are not pruned.
  function LiveLinks(flow: Flow, dead: DeadSet): seq<string> {
    LiveForward(flow, dead) + FlowNames(UnresolvedTargets(flow)) + CalledFlows(flow.steps)
    + if flow.repeat.Some? && flow.Repeating().retryFlow.Some? then [flow.Repeating().retryFlow.value] else []
  }

  function LiveGraph(plan: Plan, dead: DeadSet): Graph<string> {
    map n | n in plan.flows :: LiveLinks(plan.At(n), dead)
  }

  function LiveStarts(plan: Plan, dead: DeadSet): seq<string> {
    match plan.start
    case StartFlow(flow) => [flow]
    case StartRoute(entries) => LiveEntries(entries, "", dead, |entries|)
  }

  ghost predicate Live(plan: Plan, dead: DeadSet, n: string) {
    ReachFrom(LiveGraph(plan, dead), Members(LiveStarts(plan, dead)), n)
  }

  // `_unreachable_through_dead_entries`: the first flow that is not live.
  method RejectUnreachable(plan: Plan, dead: DeadSet) returns (rejected: Option<string>)
    requires Plans.Ordered(plan)
    ensures rejected.Some? ==> rejected.value in plan.flows && !Live(plan, dead, rejected.value)
    ensures rejected.None? && dead != {} ==> forall n | n in plan.flows :: Live(plan, dead, n)
  {
    if dead == {} {
      return None;
    }
    var seen := Closure(LiveGraph(plan, dead), LiveStarts(plan, dead));
    for i := 0 to |plan.order|
      invariant forall j | 0 <= j < i :: Live(plan, dead, plan.order[j])
    {
      if plan.order[i] !in seen {
        assert plan.order[i] in plan.flows.Keys;
        return Some(plan.order[i]);
      }
    }
    forall n | n in plan.flows ensures Live(plan, dead, n) {
      assert n in plan.order;
    }
    return None;
  }

  // ---- Selection is live -----------------------------------------------------------------------

  lemma {:induction false} EntryStaysLive(entries: seq<RouteEntry>, source: string, dead: DeadSet, k: nat, j: nat)
    requires j < k <= |entries| && entries[j].target.ToFlow? && (source, j) !in dead
    ensures entries[j].target.flow in LiveEntries(entries, source, dead, k)
  {
    if j < k - 1 {
      EntryStaysLive(entries, source, dead, k - 1, j);
    }
  }

  predicate PicksAmong(picked: Result<(Target, nat), Exn>, names: seq<string>) {
    match picked
    case Ok((ToFlow(n), _)) => n in names
    case _ => true
  }

  // A selected flow is among these.
  predicate SelectsAmong(selected: Result<TransitionRecord, Exn>, names: seq<string>) {
    match selected
    case Err(_) => true
    case Ok(t) => t.target.ToFlow? ==> t.target.flow in names
  }

  lemma EntryIsLive(e: Engine, c: Catalog, dead: DeadSet, source: string, entries: seq<RouteEntry>, context: Json)
    requires AllDead(c, e.plan, dead) && entries == RouteOf(e.plan, source)
    requires RouteShape(entries) && NarrowEntries(entries) && Fitting(c.links, BoundaryResolver(c, e.plan), context)
    ensures PicksAmong(SelectEntry(e, entries, 0, context), LiveEntries(entries, source, dead, |entries|))
  {
    DeadNeverSelected(c.links, entries, BoundaryResolver(c, e.plan), e, 0, context);
    EntryAuthored(e, entries, 0, context);
    var r := SelectEntry(e, entries, 0, context);
    if r.Ok? && r.value.0.ToFlow? {
      assert !DeadAt(c, e.plan, source, r.value.1);
      EntryStaysLive(entries, source, dead, |entries|, r.value.1);
    }
  }

  // The parts of an accepted plan these proofs read.
  predicate Readable(plan: Plan) {
    && WellNamed(plan) && "" !in plan.flows
    && (plan.start.StartRoute? ==> RouteShape(plan.start.entries) && NarrowEntries(plan.start.entries))
    && forall n {:trigger plan.At(n)} | n in plan.flows :: RouteReadable(plan.At(n))
  }

  predicate RouteReadable(flow: Flow) {
    flow.transition.Some? && flow.transition.value.Conditional? ==>
      RouteShape(flow.transition.value.entries) && NarrowEntries(flow.transition.value.entries)
  }

  lemma ForwardIsLive(e: Engine, c: Catalog, dead: DeadSet, n: string, context: Json)
    requires AllDead(c, e.plan, dead) && Readable(e.plan) && Routed(e.plan, n)
    requires Fitting(c.links, BoundaryResolver(c, e.plan), context)
    ensures SelectsAmong(ForwardTarget(e, e.plan.At(n), context), LiveForward(e.plan.At(n), dead))
  {
    var flow := e.plan.At(n);
    assert RouteReadable(flow);
    ForwardAuthored(e, flow, context);
    if flow.transition.Some? && flow.transition.value.Conditional? {
      EntryIsLive(e, c, dead, n, flow.transition.value.entries, context);
    }
  }

  ghost predicate LiveStart(plan: Plan, dead: DeadSet, start: Result<StartRecord, Exn>) {
    match start
    case Err(_) => true
    case Ok(record) => Live(plan, dead, record.flow)
  }

  lemma StartIsLive(e: Engine, c: Catalog, dead: DeadSet, payload: Json)
    requires AllDead(c, e.plan, dead) && Readable(e.plan) && Valid(c.links, c.payload, payload)
    ensures LiveStart(e.plan, dead, SelectStart(e, payload))
  {
    var roots := Members(LiveStarts(e.plan, dead));
    if e.plan.start.StartRoute? {
      var context := StartContext(payload, e.metadata);
      StartScopeFits(c.links, BoundaryScope(c, e.plan), payload, e.metadata);
      EntryIsLive(e, c, dead, "", e.plan.start.entries, context);
    }
    var r := SelectStart(e, payload);
    if r.Ok? {
      assert r.value.flow in roots;
      FromRoot(LiveGraph(e.plan, dead), roots, r.value.flow);
    }
  }

  // ---- One routed flow -------------------------------------------------------------------------

  // What a routed flow leaves: records made by their flows, all but the live ones as
  // they were, and a live successor.
  ghost predicate SameDead(live: set<string>, before: FlowRecords, after: FlowRecords) {
    forall n | n !in live :: (n in after <==> n in before) && (n in before ==> after[n] == before[n])
  }

  lemma RoutedMakes(e: Engine, n: string, payload: Json, records: FlowRecords, w: World)
    requires WellNamed(e.plan) && Routed(e.plan, n) && AllMade(e, records)
    ensures AllMade(e, RunRouted(e, e.plan.At(n), payload, records, None, w).records)
  {
    var flow := e.plan.At(n);
    var context := WorkflowContext(payload, e.metadata, records);
    var bound := FlowInput(e, n, flow.input, context);
    var routed := RunRouted(e, flow, payload, records, None, w);
    if e.expired(w.tick) || bound.Err? {
      assert routed.records == records;
    } else if flow.repeat.Some? {
      InputAccepted(e, n, flow.input, context);
      AttemptsMake(e, n, flow.Repeating(), None, payload, Obj(bound.value), [], records, w.Next(), 0);
      var loop := Attempts(e, flow, flow.Repeating(), None, payload, Obj(bound.value), [], records, w.Next(), 0);
      if loop.outcome.Ok? {
        LeaveKeeps(e, flow, payload, loop.last, loop.outcome.value.failure, loop.outcome.value.issues, loop.records,
                   loop.world);
      }
      assert routed.records == loop.records;
    } else {
      InputAccepted(e, n, flow.input, context);
      FlowMakes(e, flow, Obj(bound.value), w.Next(), 0);
      var run := ExecuteFlow(e, flow, Obj(bound.value), w.Next(), 0);
      LeaveKeeps(e, flow, payload, run.record, None, run.issues, records[n := run.record], run.world);
      RecordPut(e, records, n, run.record);
      assert routed.records == records[n := run.record];
    }
  }

  // The boundary is selected in the context of the records it leaves.
  ghost predicate LeftAt(e: Engine, n: string, payload: Json, routed: RoutedRun) {
    match routed.outcome
    case Ok(Next(t)) =>
      exists status, issues ::
        SelectTarget(e, e.plan.At(n), status, issues, WorkflowContext(payload, e.metadata, routed.records)) == Ok(t)
    case _ => true
  }

  lemma RoutedSelects(e: Engine, n: string, payload: Json, records: FlowRecords, w: World)
    ensures LeftAt(e, n, payload, RunRouted(e, e.plan.At(n), payload, records, None, w))
  {
    var flow := e.plan.At(n);
    forall record: FlowRecord, failure, issues, after, w'
      ensures LeftAt(e, n, payload, Leave(e, flow, payload, record, failure, issues, after, w'))
    {
      var selected := SelectTarget(e, flow, record.status, issues, WorkflowContext(payload, e.metadata, after));
    }
  }

  // ---- The run ------------------------------------------------------------------------------------

  // A set of flows no live link leaves.
  ghost predicate LiveSet(plan: Plan, dead: DeadSet, live: set<string>) {
    Graphs.Closed(LiveGraph(plan, dead), live) && forall n, retry | n in live && HasRetry(plan, n, retry) ::
        retry in live
  }

  ghost predicate Stayed(live: set<string>, ts: seq<TransitionRecord>) {
    forall k | 0 <= k < |ts| && ts[k].target.ToFlow? :: ts[k].target.flow in live
  }

  // The run, its assumptions about schemas, and the compiler's dead entries.
  ghost predicate Analysed(e: Engine, c: Catalog, dead: DeadSet, payload: Json) {
    Readable(e.plan) && Conforms(e, c) && AllDead(c, e.plan, dead) && Valid(c.links, c.payload, payload)
  }

  lemma NextIsLive(e: Engine, c: Catalog, dead: DeadSet, live: set<string>, n: string, payload: Json, routed: RoutedRun,
                   next: string)
    requires Analysed(e, c, dead, payload) && Graphs.Closed(LiveGraph(e.plan, dead), live)
    requires Routed(e.plan, n) && n in live && AllMade(e, routed.records) && LeftAt(e, n, payload, routed)
    requires Following(routed) == Some(next)
    ensures next in live
  {
    var flow, context := e.plan.At(n), WorkflowContext(payload, e.metadata, routed.records);
    var status, issues :| SelectTarget(e, flow, status, issues, context) == Ok(routed.outcome.value.transition);
    BoundaryCovered(e, c, payload, routed.records);
    ReviewAuthored(e, e.plan.At(n), issues, context);
    ForwardIsLive(e, c, dead, n, context);
    assert Edge(LiveGraph(e.plan, dead), n, next);
  }

  ghost predicate StaysLive(e: Engine, live: set<string>, n: string, before: FlowRecords, routed: RoutedRun) {
    && AllMade(e, routed.records) && SameDead(live, before, routed.records)
    && ActiveOnly(routed, n)
    && match Following(routed)
       case None => true
       case Some(next) => next in live
  }

  lemma StaysWhen(e: Engine, c: Catalog, dead: DeadSet, live: set<string>, n: string, payload: Json,
                  records: FlowRecords, routed: RoutedRun)
    requires Analysed(e, c, dead, payload) && LiveSet(e.plan, dead, live)
    requires Routed(e.plan, n) && n in live && AllMade(e, routed.records) && LeftAt(e, n, payload, routed)
    requires ActiveOnly(routed, n) && Untouched(n, RetryFlowOf(e.plan.At(n)), records, routed.records)
    ensures StaysLive(e, live, n, records, routed)
  {
    var retry := RetryFlowOf(e.plan.At(n));
    assert retry.Some? ==> HasRetry(e.plan, n, retry.value);
    if Following(routed).Some? {
      NextIsLive(e, c, dead, live, n, payload, routed, Following(routed).value);
    }
  }

  // Every live routed flow leads to live flows only.
  ghost predicate Preserves(e: Engine, live: set<string>, payload: Json) {
    forall n, records, w {:trigger RunRouted(e, e.plan.At(n), payload, records, None, w)}
      | Routed(e.plan, n) && n in live && AllMade(e, records) ::
      StaysLive(e, live, n, records, RunRouted(e, e.plan.At(n), payload, records, None, w))
  }

  lemma LiveIsPreserved(e: Engine, c: Catalog, dead: DeadSet, live: set<string>, payload: Json)
    requires Analysed(e, c, dead, payload) && LiveSet(e.plan, dead, live) && Filed(e.plan)
    ensures Preserves(e, live, payload)
  {
    forall n, records, w | Routed(e.plan, n) && n in live && AllMade(e, records)
      ensures StaysLive(e, live, n, records, RunRouted(e, e.plan.At(n), payload, records, None, w))
    {
      var flow := e.plan.At(n);
      var routed := RunRouted(e, flow, payload, records, None, w);
      RoutedMakes(e, n, payload, records, w);
      RoutedSelects(e, n, payload, records, w);
      ActiveIsCurrent(e, flow, payload, records, w);
      RoutedTouches(e, flow, payload, records, None, w);
      StaysWhen(e, c, dead, live, n, payload, records, routed);
    }
  }

  ghost predicate DroveLive(live: set<string>, before: FlowRecords, d: Drive) {
    SameDead(live, before, d.records) && Stayed(live, d.transitions) && (d.active.Some? ==> d.active.value in live)
  }

  lemma {:induction false} DriveStaysLive(e: Engine, live: set<string>, payload: Json, current: string,
                                          visited: set<string>, records: FlowRecords, ts: seq<TransitionRecord>,
                                          w: World)
    requires Preserves(e, live, payload)
    requires current in live && AllMade(e, records) && Stayed(live, ts)
    ensures DroveLive(live, records, DriveFrom(e, payload, current, visited, records, ts, w))
    decreases if |visited| < |e.plan.order| then |e.plan.order| - |visited| else 0
  {
    if Enters(e, current, visited, w) {
      var routed := RunRouted(e, e.plan.At(current), payload, records, None, w.Next());
      assert StaysLive(e, live, current, records, routed);
      if Following(routed).Some? {
        var t, next := routed.outcome.value.transition, Following(routed).value;
        DriveGoesOn(e, payload, current, visited, records, ts, w, routed, t, next);
        DriveStaysLive(e, live, payload, next, visited + {current}, routed.records, ts + [t], routed.world);
      }
    }
  }

  // ---- Dead flows never run ------------------------------------------------------------------------

  lemma InitialMade(e: Engine)
    ensures AllMade(e, InitialRecords(e.plan))
  {
  }

  ghost function LiveFlows(plan: Plan, dead: DeadSet): set<string> {
    set n | n in Universe(LiveGraph(plan, dead), Members(LiveStarts(plan, dead))) && Live(plan, dead, n)
  }

  lemma LiveFlowsKnown(plan: Plan, dead: DeadSet, n: string)
    ensures n in LiveFlows(plan, dead) <==> Live(plan, dead, n)
  {
    var g, roots := LiveGraph(plan, dead), Members(LiveStarts(plan, dead));
    if Live(plan, dead, n) {
      FromStaysInside(g, Universe(g, roots), roots, n);
    }
  }

  lemma LiveFlowsClosed(plan: Plan, dead: DeadSet)
    ensures LiveSet(plan, dead, LiveFlows(plan, dead))
  {
    var g, roots, live := LiveGraph(plan, dead), Members(LiveStarts(plan, dead)), LiveFlows(plan, dead);
    forall a, b | a in live && Edge(g, a, b) ensures b in live {
      FromExtend(g, roots, a, b);
      LiveFlowsKnown(plan, dead, b);
    }
    forall n, retry | n in live && HasRetry(plan, n, retry) ensures retry in live {
      var links := LiveLinks(plan.At(n), dead);
      assert links[|links| - 1] == retry;
      assert Edge(g, n, retry);
    }
  }

  // What a run shows of a flow that never ran.
  ghost predicate NeverRan(plan: Plan, n: string, r: RunResult) {
    && (r.start.Some? ==> r.start.value.flow != n)
    && (forall k | 0 <= k < |r.transitions| :: r.transitions[k].target != ToFlow(n))
    && (n in r.records ==> n in plan.flows && r.records[n] == SkippedFlow(plan.At(n)))
  }

  lemma CrashStaysLive(e: Engine, live: set<string>, payload: Json, exn: Exn, start: Option<StartRecord>, d: Drive)
    requires DroveLive(live, InitialRecords(e.plan), d)
    ensures var r := Crash(e, payload, exn, d.records, d.active, d.transitions, start, d.world);
            SameDead(live, InitialRecords(e.plan), r.records) && Stayed(live, r.transitions) && r.start == start
  {
  }

  lemma FinishStaysLive(e: Engine, live: set<string>, payload: Json, start: StartRecord, d: Drive, status: Status,
                        error: Option<Failure>)
    requires DroveLive(live, InitialRecords(e.plan), d)
    ensures var r := Finish(e, payload, status, error, d.records, d.transitions, start, d.world);
            SameDead(live, InitialRecords(e.plan), r.records) && Stayed(live, r.transitions) && r.start == Some(start)
  {
    FinishTrail(e, payload, start, d, status, error);
  }

  // A flow the compiler rejects as reachable only through dead entries would never have
  // run: no run starts at it or moves to it, and its record stays skipped.
  lemma DeadFlowsNeverRun(e: Engine, c: Catalog, dead: DeadSet, payload: Json, w: World, n: string)
    requires Analysed(e, c, dead, payload) && Filed(e.plan) && !Live(e.plan, dead, n)
    ensures NeverRan(e.plan, n, Run(e, payload, w))
  {
    var live, records := LiveFlows(e.plan, dead), InitialRecords(e.plan);
    LiveFlowsKnown(e.plan, dead, n);
    LiveFlowsClosed(e.plan, dead);
    LiveIsPreserved(e, c, dead, live, payload);
    InitialMade(e);
    StartIsLive(e, c, dead, payload);
    var selected := SelectStart(e, payload);
    if selected.Ok? {
      var start := selected.value;
      LiveFlowsKnown(e.plan, dead, start.flow);
      DriveStaysLive(e, live, payload, start.flow, {}, records, [], w);
      var d := DriveFrom(e, payload, start.flow, {}, records, [], w);
      if d.outcome.Err? {
        CrashStaysLive(e, live, payload, d.outcome.error, Some(start), d);
      } else {
        FinishStaysLive(e, live, payload, start, d, d.outcome.value.0, d.outcome.value.1);
      }
    }
  }

  // Where the compiler finds every routed value a string with a case or null, no run takes
  // the default target for a string or fails because the value is neither.
  lemma CasesAreExhaustive(e: Engine, c: Catalog, payload: Json, records: FlowRecords, n: string, binding: Binding,
                           cases: seq<Case>, default: Target, covers: seq<string>)
    requires AllMade(e, records) && Conforms(e, c) && Valid(c.links, c.payload, payload) && n in e.plan.flows
    requires e.plan.At(n).transition == Some(Cases(binding, cases, default, covers))
    requires Authored(binding) && NarrowBinding(binding)
    requires Exhaustive(c.links, binding, cases, BoundaryResolver(c, e.plan))
    ensures var context := WorkflowContext(payload, e.metadata, records);
            DefaultForNull(ForwardTarget(e, e.plan.At(n), context), ResolveBinding(binding, context),
                           Overlong(binding, context))
  {
    var context := WorkflowContext(payload, e.metadata, records);
    BoundaryCovered(e, c, payload, records);
    ExhaustiveCases(c.links, e, e.plan.At(n), binding, cases, default, covers, BoundaryResolver(c, e.plan), context);
  }

  // ---- Every transition is selected over produced records --------------------------------------

  // The transition is what its flow selects at a boundary over these records.
  ghost predicate SelectedOver(e: Engine, payload: Json, t: TransitionRecord, records: FlowRecords) {
    && t.source in e.plan.flows && AllMade(e, records)
    && exists issues ::
      SelectTarget(e, e.plan.At(t.source), t.reason, issues, WorkflowContext(payload, e.metadata, records)) == Ok(t)
  }

  ghost predicate Selected(e: Engine, payload: Json, t: TransitionRecord) {
    exists records :: SelectedOver(e, payload, t, records)
  }

  ghost predicate AllSelected(e: Engine, payload: Json, ts: seq<TransitionRecord>) {
    forall t | t in ts :: Selected(e, payload, t)
  }

  // A boundary reports why it was selected.
  predicate Reports(e: Engine, flow: Flow, issues: seq<Issue>, context: Json, selected: Result<TransitionRecord, Exn>) {
    match selected
    case Err(_) => true
    case Ok(t) => t.source == flow.name && selected == SelectTarget(e, flow, t.reason, issues, context)
  }

  ghost predicate MovesOver(e: Engine, payload: Json, routed: RoutedRun) {
    match routed.outcome
    case Ok(Next(t)) => SelectedOver(e, payload, t, routed.records)
    case _ => true
  }

  lemma SelectedAt(e: Engine, n: string, payload: Json, routed: RoutedRun)
    requires WellNamed(e.plan) && n in e.plan.flows && AllMade(e, routed.records) && LeftAt(e, n, payload, routed)
    ensures MovesOver(e, payload, routed)
  {
    match routed.outcome
    case Ok(Next(t)) =>
      var context := WorkflowContext(payload, e.metadata, routed.records);
      var status, issues :| SelectTarget(e, e.plan.At(n), status, issues, context) == Ok(t);
      assert Reports(e, e.plan.At(n), issues, context, SelectTarget(e, e.plan.At(n), status, issues, context));
    case _ =>
  }

  lemma {:induction false} DriveSelects(e: Engine, payload: Json, current: string, visited: set<string>,
                                        records: FlowRecords, ts: seq<TransitionRecord>, w: World)
    requires WellNamed(e.plan) && AllMade(e, records) && AllSelected(e, payload, ts)
    ensures var d := DriveFrom(e, payload, current, visited, records, ts, w);
            AllMade(e, d.records) && AllSelected(e, payload, d.transitions)
    decreases if |visited| < |e.plan.order| then |e.plan.order| - |visited| else 0
  {
    if Enters(e, current, visited, w) {
      var routed := RunRouted(e, e.plan.At(current), payload, records, None, w.Next());
      RoutedMakes(e, current, payload, records, w.Next());
      RoutedSelects(e, current, payload, records, w.Next());
      SelectedAt(e, current, payload, RunRouted(e, e.plan.At(current), payload, records, None, w.Next()));
      if Following(routed).Some? {
        var t, next := routed.outcome.value.transition, Following(routed).value;
        DriveGoesOn(e, payload, current, visited, records, ts, w, routed, t, next);
        DriveSelects(e, payload, next, visited + {current}, routed.records, ts + [t], routed.world);
      }
    }
  }

  // ---- The run's transitions ---------------------------------------------------------------------------------

  lemma CrashMakes(e: Engine, payload: Json, exn: Exn, records: FlowRecords, active: Option<string>,
                   ts: seq<TransitionRecord>, start: Option<StartRecord>, w: World)
    requires AllMade(e, records)
    ensures var r := Crash(e, payload, exn, records, active, ts, start, w); AllMade(e, r.records) && r.transitions == ts
  {
    if active.Some? && active.value in records && active.value in e.plan.flows {
      assert MadeAt(e, records, active.value);
      RecordPut(e, records, active.value, Crash(e, payload, exn, records, active, ts, start, w).records[active.value]);
    }
  }

  lemma FinishMakes(e: Engine, payload: Json, status: Status, error: Option<Failure>, records: FlowRecords,
                    ts: seq<TransitionRecord>, start: StartRecord, w: World)
    requires AllMade(e, records)
    ensures var r := Finish(e, payload, status, error, records, ts, start, w);
            AllMade(e, r.records) && r.transitions == ts
  {
  }

  // Every transition of a run is selected over produced records, and the run leaves such.
  lemma RunSelects(e: Engine, payload: Json, w: World)
    requires WellNamed(e.plan)
    ensures var r := Run(e, payload, w); AllMade(e, r.records) && AllSelected(e, payload, r.transitions)
  {
    var records, selected := InitialRecords(e.plan), SelectStart(e, payload);
    InitialMade(e);
    if selected.Err? {
      CrashMakes(e, payload, selected.error, records, None, [], None, w);
    } else {
      var start := selected.value;
      DriveSelects(e, payload, start.flow, {}, records, [], w);
      var d := DriveFrom(e, payload, start.flow, {}, records, [], w);
      match d.outcome
      case Err(exn) => CrashMakes(e, payload, exn, d.records, d.active, d.transitions, Some(start), d.world);
      case Ok((status, error)) => FinishMakes(e, payload, status, error, d.records, d.transitions, start, d.world);
    }
  }

  // ---- Covered, and exhausted ------------------------------------------------------------------------

  // The static scope of the workflow boundary covers this context.
  ghost predicate CoveredOver(e: Engine, c: Catalog, payload: Json, records: FlowRecords) {
    Fitting(c.links, BoundaryResolver(c, e.plan), WorkflowContext(payload, e.metadata, records))
  }

  ghost predicate SelectedCovered(e: Engine, c: Catalog, payload: Json, t: TransitionRecord) {
    exists records :: SelectedOver(e, payload, t, records) && CoveredOver(e, c, payload, records)
  }

  // Every transition of every run is selected in a context the static scope covers, and the
  // context of the workflow output is covered too.
  lemma RunCovered(e: Engine, c: Catalog, payload: Json, w: World)
    requires WellNamed(e.plan) && Conforms(e, c) && Valid(c.links, c.payload, payload)
    ensures var r := Run(e, payload, w);
            CoveredOver(e, c, payload, r.records) && forall t | t in r.transitions :: SelectedCovered(e, c, payload, t)
  {
    RunSelects(e, payload, w);
    var r := Run(e, payload, w);
    BoundaryCovered(e, c, payload, r.records);
    forall t | t in r.transitions ensures SelectedCovered(e, c, payload, t) {
      var records :| SelectedOver(e, payload, t, records);
      BoundaryCovered(e, c, payload, records);
    }
  }

  // The flow has a case transition whose cases the compiler found exhaustive.
  ghost predicate CasesExhaustive(e: Engine, c: Catalog, n: string) {
    n in e.plan.flows
    && match e.plan.At(n).transition
       case Some(Cases(binding, cases, _, _)) =>
         Authored(binding) && NarrowBinding(binding) && Exhaustive(c.links, binding, cases, BoundaryResolver(c, e.plan))
       case _ => false
  }

  // The transition leads to the default, and at its boundary the routed value was null.
  ghost predicate DefaultOnNull(e: Engine, payload: Json, t: TransitionRecord) {
    match e.plan.At(t.source).transition
    case Some(Cases(binding, _, default, _)) =>
      t.target == default
      && exists records :: SelectedOver(e, payload, t, records)
                           && ResolveBinding(binding, WorkflowContext(payload, e.metadata, records)) == Ok(Null)
    case _ => false
  }

  // A run that leaves a flow with exhaustive cases by its default found null there, and no
  // such transition is taken for a text.
  lemma DefaultIsForNull(e: Engine, c: Catalog, payload: Json, w: World, t: TransitionRecord)
    requires WellNamed(e.plan) && Conforms(e, c) && Valid(c.links, c.payload, payload)
    requires t in Run(e, payload, w).transitions && t.reason == Completed && t.selectedCase.None?
    requires CasesExhaustive(e, c, t.source)
    ensures DefaultOnNull(e, payload, t)
  {
    RunSelects(e, payload, w);
    NullSelectsDefault(e, c, payload, t);
  }

  lemma NullSelectsDefault(e: Engine, c: Catalog, payload: Json, t: TransitionRecord)
    requires WellNamed(e.plan) && Conforms(e, c) && Valid(c.links, c.payload, payload)
    requires Selected(e, payload, t) && t.reason == Completed && t.selectedCase.None? && CasesExhaustive(e, c, t.source)
    ensures DefaultOnNull(e, payload, t)
  {
    var records :| SelectedOver(e, payload, t, records);
    match e.plan.At(t.source).transition
    case Some(Cases(binding, cases, default, covers)) =>
      CasesAreExhaustive(e, c, payload, records, t.source, binding, cases, default, covers);
    case _ =>
  }

  // ---- Two engines that differ in other flows only ------------------------------------------

  predicate StepInside(step: Step, live: set<string>) {
    forall n | n in step.Targets() :: n in live
  }

  predicate RetryInside(repeat: Repeat, live: set<string>) {
    repeat.retryFlow.Some? ==> repeat.Retry() in live
  }

  predicate FlowInside(flow: Flow, live: set<string>) {
    (forall step | step in flow.steps :: StepInside(step, live)) && RetryInside(flow.Repeating(), live)
  }

  // The same flow of both engines, which calls such flows only.
  predicate Shared(e: Engine, e': Engine, live: set<string>, n: string) {
    && (n in e'.plan.flows <==> n in e.plan.flows)
    && (n in e.plan.flows ==> e'.plan.At(n) == e.plan.At(n) && FlowInside(e.plan.At(n), live))
  }

  // The engines differ in their plans only, and their plans in the other flows only.
  ghost predicate Twins(e: Engine, e': Engine, live: set<string>) {
    && e' == e.(plan := e'.plan)
    && forall n {:trigger Shared(e, e', live, n)} | n in live :: Shared(e, e', live, n)
  }

  lemma AbortSame(e: Engine, e': Engine, live: set<string>, p: Progress, exn: Exn, active: Option<Active>,
                  issues: seq<Issue>)
    requires Twins(e, e', live)
    ensures Abort(e', p, exn, active, issues) == Abort(e, p, exn, active, issues)
  {
  }

  lemma ProjectSame(e: Engine, e': Engine, live: set<string>, flow: Flow, payload: Json, p: Progress, status: Status,
                    issues: seq<Issue>)
    requires Twins(e, e', live)
    ensures Project(e', flow, payload, p, status, issues) == Project(e, flow, payload, p, status, issues)
  {
  }

  lemma PrepareSame(e: Engine, e': Engine, live: set<string>, flow: Flow, repeat: Repeat, item: Option<Object>,
                    scope: Json, issues: seq<Issue>, records: FlowRecords, w: World)
    requires Twins(e, e', live)
    ensures Prepare(e', flow, repeat, item, scope, issues, records, w)
            == Prepare(e, flow, repeat, item, scope, issues, records, w)
  {
  }

  lemma AfterRetrySame(e: Engine, e': Engine, live: set<string>, flow: Flow, repeat: Repeat, retry: Flow,
                       item: Option<Object>, scope: Json, issues: seq<Issue>, records: FlowRecords, run: FlowRun)
    requires Twins(e, e', live)
    ensures AfterRetry(e', flow, repeat, retry, item, scope, issues, records, run)
            == AfterRetry(e, flow, repeat, retry, item, scope, issues, records, run)
  {
    PrepareSame(e, e', live, flow, repeat, item, scope, issues,
                records[retry.name := RetryRecord(run.record, RunsOf(records, retry.name))], run.world);
  }

  // ---- Flows and steps --------------------------------------------------------------------------

  lemma {:induction false} FlowSame(e: Engine, e': Engine, live: set<string>, flow: Flow, payload: Json, w: World,
                                    depth: int)
    requires Twins(e, e', live) && FlowInside(flow, live)
    ensures ExecuteFlow(e', flow, payload, w, depth) == ExecuteFlow(e, flow, payload, w, depth)
    decreases LIMIT - depth, 2, |flow.steps| + 1
  {
    StepsSame(e, e', live, flow, payload, 0, Progress(SkippedSteps(flow.steps), NO_USAGE, w), depth);
  }

  lemma {:induction false} StepsSame(e: Engine, e': Engine, live: set<string>, flow: Flow, payload: Json, k: nat,
                                     p: Progress, depth: int)
    requires Twins(e, e', live) && FlowInside(flow, live)
    ensures RunSteps(e', flow, payload, k, p, depth) == RunSteps(e, flow, payload, k, p, depth)
    decreases LIMIT - depth, 2, |flow.steps| - k
  {
    if k >= |flow.steps| {
      ProjectSame(e, e', live, flow, payload, p, Completed, []);
    } else {
      assert flow.steps[k] in flow.steps;
      EnterSame(e, e', live, flow.steps[k], payload, p.(world := p.world.Next()), depth);
      assert Guard(e', flow.steps[k], Context(e', payload, p)) == Guard(e, flow.steps[k], Context(e, payload, p));
      match RunStep(e, flow.steps[k], payload, p, depth)
      case Interrupted(exn, active, p') => AbortSame(e, e', live, p', exn, active, []);
      case Bypassed(p') => StepsSame(e, e', live, flow, payload, k + 1, p', depth);
      case Ran(record, issues, p') =>
        ProjectSame(e, e', live, flow, payload, p', NeedsReview, issues);
        StepsSame(e, e', live, flow, payload, k + 1, p', depth);
    }
  }

  lemma {:induction false} EnterSame(e: Engine, e': Engine, live: set<string>, step: Step, payload: Json, p: Progress,
                                     depth: int)
    requires Twins(e, e', live) && StepInside(step, live)
    ensures EnterStep(e', step, payload, p, depth) == EnterStep(e, step, payload, p, depth)
    decreases LIMIT - depth, 1, 0
  {
    var p1 := p.(world := p.world.(consumed := p.world.consumed + 1));
    var inputs := ResolveAll(step.Arguments(), Context(e, payload, p));
    if inputs.Ok? {
      if step.Collection? {
        CollectionSame(e, e', live, step, inputs.value, p1.world, depth);
        assert RunCollection(e', step, inputs.value, p1, depth) == RunCollection(e, step, inputs.value, p1, depth);
      } else {
      }
    }
  }

  // ---- Collections ---------------------------------------------------------------------------------

  predicate EntriesInside(entries: seq<Entry>, live: set<string>) {
    forall k | 0 <= k < |entries| :: entries[k].item.flow in live
  }

  // Both check the same items.
  lemma {:induction false} CheckSame(e: Engine, e': Engine, live: set<string>, step: Step, raw: seq<Json>,
                                     items: seq<Item>, seen: set<string>, w: World)
    requires Twins(e, e', live) && StepInside(step, live)
    ensures CheckItems(e', step, raw, items, seen, w) == CheckItems(e, step, raw, items, seen, w)
    decreases |raw| - |items|
  {
    if |items| < |raw| {
      var read := ReadItem(step, raw[|items|], seen);
      if read.Some? {
        assert Shared(e, e', live, read.value.flow);
        CheckSame(e, e', live, step, raw, items + [read.value], seen + {read.value.id}, w.Next());
      }
    }
  }

  lemma {:induction false} CollectionSame(e: Engine, e': Engine, live: set<string>, step: Step, inputs: Object,
                                          w: World, depth: int)
    requires Twins(e, e', live) && StepInside(step, live)
    ensures ExecuteCollection(e', step, inputs, w, depth) == ExecuteCollection(e, step, inputs, w, depth)
    decreases LIMIT - depth, 0, 0
  {
    if depth < LIMIT && ItemsOnly(step, inputs) {
      CheckSame(e, e', live, step, RawItems(inputs), [], {}, w);
      ItemsChecked(e, step, RawItems(inputs), [], {}, w);
      var (checked, w1) := CheckItems(e, step, RawItems(inputs), [], {}, w);
      if checked.Ok? {
        var batch := EmptyBatch(e.plan, checked.value);
        forall k | 0 <= k < |batch.entries| ensures batch.entries[k].item.flow in live {
          assert ItemFits(e, step, checked.value[k]);
        }
        var entries := EmptyBatch(e.plan, checked.value).entries;
        forall k | 0 <= k < |checked.value| ensures EmptyBatch(e'.plan, checked.value).entries[k] == entries[k] {
          assert entries[k].item == checked.value[k] && Shared(e, e', live, checked.value[k].flow);
        }
        assert EmptyBatch(e'.plan, checked.value).entries == entries;
        ItemsSame(e, e', live, 0, batch, w1, depth + 1);
      }
    }
  }

  lemma {:induction false} ItemsSame(e: Engine, e': Engine, live: set<string>, k: nat, batch: Batch, w: World,
                                     depth: int)
    requires Twins(e, e', live) && EntriesInside(batch.entries, live)
    ensures RunItems(e', k, batch, w, depth) == RunItems(e, k, batch, w, depth)
    decreases LIMIT - depth, 6, |batch.entries| - k
  {
    if k < |batch.entries| {
      var item := batch.entries[k].item;
      assert Shared(e, e', live, item.flow);
      ItemSame(e, e', live, e.plan.At(item.flow), item.payload, w, depth);
      var run := RunItem(e, e.plan.At(item.flow), item.payload, w, depth);
      if run.outcome.Ok? {
        ItemsSame(e, e', live, k + 1, Entered(batch, k, run.outcome.value), run.world, depth);
      }
    }
  }

  lemma {:induction false} ItemSame(e: Engine, e': Engine, live: set<string>, flow: Flow, payload: Object, w: World,
                                    depth: int)
    requires Twins(e, e', live) && FlowInside(flow, live)
    ensures RunItem(e', flow, payload, w, depth) == RunItem(e, flow, payload, w, depth)
    decreases LIMIT - depth, 5, 0
  {
    match flow.repeat
    case None => FlowSame(e, e', live, flow, Obj(payload), w, depth);
    case Some(repeat) =>
      LoopSame(e, e', live, flow, repeat, Some(payload), Obj(payload), Obj(payload), [], map[], w, depth);
  }

  // ---- Repeats ----------------------------------------------------------------------------------------

  lemma {:induction false} RetrySame(e: Engine, e': Engine, live: set<string>, flow: Flow, repeat: Repeat, retry: Flow,
                                     item: Option<Object>, scope: Json, issues: seq<Issue>, records: FlowRecords,
                                     w: World, depth: int)
    requires Twins(e, e', live) && FlowInside(retry, live)
    ensures RunRetry(e', flow, repeat, retry, item, scope, issues, records, w, depth)
            == RunRetry(e, flow, repeat, retry, item, scope, issues, records, w, depth)
    decreases LIMIT - depth, 3, 0
  {
    var input := FlowInput(e, retry.name, repeat.retryFlowInput, WorkflowContext(scope, e.metadata, records));
    assert FlowInput(e', retry.name, repeat.retryFlowInput, WorkflowContext(scope, e'.metadata, records)) == input;
    if input.Ok? {
      FlowSame(e, e', live, retry, Obj(input.value), w, depth);
      AfterRetrySame(e, e', live, flow, repeat, retry, item, scope, issues, records,
                     ExecuteFlow(e, retry, Obj(input.value), w, depth));
    }
  }

  lemma {:induction false} GoOnSame(e: Engine, e': Engine, live: set<string>, flow: Flow, repeat: Repeat,
                                       item: Option<Object>, scope: Json, run: FlowRun, records: FlowRecords,
                                       depth: int)
    requires Twins(e, e', live) && RetryInside(repeat, live)
    ensures GoOn(e', flow, repeat, item, scope, run, records, depth)
            == GoOn(e, flow, repeat, item, scope, run, records, depth)
    decreases LIMIT - depth, 3, 1
  {
    match repeat.retryFlow
    case None => PrepareSame(e, e', live, flow, repeat, item, scope, run.issues, records, run.world);
    case Some(name) =>
      assert Shared(e, e', live, name);
      if name in e.plan.flows {
        RetrySame(e, e', live, flow, repeat, e.plan.At(name), item, scope, run.issues, records, run.world, depth);
      }
  }

  lemma {:induction false} LoopSame(e: Engine, e': Engine, live: set<string>, flow: Flow, repeat: Repeat,
                                    item: Option<Object>, scope: Json, input: Json, attempts: seq<FlowRecord>,
                                    records: FlowRecords, w: World, depth: int)
    requires Twins(e, e', live) && FlowInside(flow, live) && RetryInside(repeat, live)
    ensures Attempts(e', flow, repeat, item, scope, input, attempts, records, w, depth)
            == Attempts(e, flow, repeat, item, scope, input, attempts, records, w, depth)
    decreases LIMIT - depth, 4, repeat.maxAttempts - |attempts|, 0
  {
    if |attempts| < repeat.maxAttempts {
      FlowSame(e, e', live, flow, input, w, depth);
      var run := ExecuteFlow(e, flow, input, w, depth);
      var attempts' := attempts + [run.record];
      var records' := records[flow.name := run.record.(attempts := attempts')];
      GoOnSame(e, e', live, flow, repeat, item, scope, run, records', depth);
      DecideIs(e, flow, repeat, item, scope, run, |attempts'|, records', depth);
      DecideIs(e', flow, repeat, item, scope, run, |attempts'|, records', depth);
      ProceedSame(e, e', live, flow, repeat, item, scope, run.record, attempts',
                  Decide(e, flow, repeat, item, scope, run, |attempts'|, records', depth), depth);
    }
  }

  lemma {:induction false} ProceedSame(e: Engine, e': Engine, live: set<string>, flow: Flow, repeat: Repeat,
                                       item: Option<Object>, scope: Json, run: FlowRecord, attempts: seq<FlowRecord>,
                                       decided: Decided, depth: int)
    requires Twins(e, e', live) && FlowInside(flow, live) && RetryInside(repeat, live)
    ensures Proceed(e', flow, repeat, item, scope, run, attempts, decided, depth)
            == Proceed(e, flow, repeat, item, scope, run, attempts, decided, depth)
    decreases LIMIT - depth, 4, repeat.maxAttempts - |attempts|, 1
  {
    match decided.outcome
    case Err(_) =>
    case Ok(Halt(_)) =>
    case Ok(Again(next)) =>
      LoopSame(e, e', live, flow, repeat, item, scope, Obj(next), attempts,
               decided.records[flow.name := run.(attempts := attempts)], decided.world, depth);
  }

  // ---- Routed flows and the run -------------------------------------------------------------------------

  lemma {:induction false} EntrySame(e: Engine, e': Engine, live: set<string>, entries: seq<RouteEntry>, k: nat,
                                     context: Json)
    requires Twins(e, e', live) && k <= |entries|
    ensures SelectEntry(e', entries, k, context) == SelectEntry(e, entries, k, context)
    decreases |entries| - k
  {
    if k < |entries| {
      EntrySame(e, e', live, entries, k + 1, context);
    }
  }

  lemma TargetSame(e: Engine, e': Engine, live: set<string>, flow: Flow, status: Status, issues: seq<Issue>,
                   context: Json)
    requires Twins(e, e', live)
    ensures SelectTarget(e', flow, status, issues, context) == SelectTarget(e, flow, status, issues, context)
  {
    if flow.onUnresolved.Some? && flow.onUnresolved.value.ReviewConditional? {
      EntrySame(e, e', live, flow.onUnresolved.value.entries, 0, context);
    }
    if flow.transition.Some? && flow.transition.value.Conditional? {
      EntrySame(e, e', live, flow.transition.value.entries, 0, context);
    }
    assert ReviewTarget(e', flow, issues, context) == ReviewTarget(e, flow, issues, context);
    assert ForwardTarget(e', flow, context) == ForwardTarget(e, flow, context);
  }

  lemma LeaveSame(e: Engine, e': Engine, live: set<string>, flow: Flow, payload: Json, record: FlowRecord,
                  failure: Option<Failure>, issues: seq<Issue>, records: FlowRecords, w: World)
    requires Twins(e, e', live)
    ensures Leave(e', flow, payload, record, failure, issues, records, w)
            == Leave(e, flow, payload, record, failure, issues, records, w)
  {
    TargetSame(e, e', live, flow, record.status, issues, WorkflowContext(payload, e.metadata, records));
  }

  lemma RoutedSame(e: Engine, e': Engine, live: set<string>, flow: Flow, payload: Json, records: FlowRecords,
                   active: Option<string>, w: World)
    requires Twins(e, e', live) && FlowInside(flow, live)
    ensures RunRouted(e', flow, payload, records, active, w) == RunRouted(e, flow, payload, records, active, w)
  {
    var input := FlowInput(e, flow.name, flow.input, WorkflowContext(payload, e.metadata, records));
    assert FlowInput(e', flow.name, flow.input, WorkflowContext(payload, e'.metadata, records)) == input;
    if input.Ok? {
      match flow.repeat
      case None =>
        FlowSame(e, e', live, flow, Obj(input.value), w.Next(), 0);
        var run := ExecuteFlow(e, flow, Obj(input.value), w.Next(), 0);
        LeaveSame(e, e', live, flow, payload, run.record, None, run.issues, records[flow.name := run.record],
                  run.world);
      case Some(repeat) =>
        LoopSame(e, e', live, flow, repeat, None, payload, Obj(input.value), [], records, w.Next(), 0);
        var loop := Attempts(e, flow, repeat, None, payload, Obj(input.value), [], records, w.Next(), 0);
        if loop.outcome.Ok? {
          LeaveSame(e, e', live, flow, payload, loop.last, loop.outcome.value.failure, loop.outcome.value.issues,
                    loop.records, loop.world);
        }
    }
  }

  lemma {:induction false} DriveSame(e: Engine, e': Engine, live: set<string>, payload: Json, current: string,
                                     visited: set<string>, records: FlowRecords, ts: seq<TransitionRecord>, w: World)
    requires Twins(e, e', live) && e'.plan.order == e.plan.order
    requires Preserves(e, live, payload) && current in live && AllMade(e, records)
    ensures DriveFrom(e', payload, current, visited, records, ts, w)
            == DriveFrom(e, payload, current, visited, records, ts, w)
    decreases if |visited| < |e.plan.order| then |e.plan.order| - |visited| else 0
  {
    assert Shared(e, e', live, current);
    var flow := e.plan.At(current);
    var routed := RunRouted(e, flow, payload, records, None, w.Next());
    RoutedSame(e, e', live, flow, payload, records, None, w.Next());
    if Enters(e, current, visited, w) && Following(routed).Some? {
      assert StaysLive(e, live, current, records, routed);
      var t, next := routed.outcome.value.transition, Following(routed).value;
      DriveGoesOn(e, payload, current, visited, records, ts, w, routed, t, next);
      DriveGoesOn(e', payload, current, visited, records, ts, w, routed, t, next);
      DriveSame(e, e', live, payload, next, visited + {current}, routed.records, ts + [t], routed.world);
    } else {
      DriveStopsSame(e, e', live, payload, current, visited, records, ts, w);
    }
  }

  // A flow that is not entered, or that leads to no other, ends both drives alike.
  lemma DriveStopsSame(e: Engine, e': Engine, live: set<string>, payload: Json, current: string, visited: set<string>,
                       records: FlowRecords, ts: seq<TransitionRecord>, w: World)
    requires Twins(e, e', live) && e'.plan.order == e.plan.order && Shared(e, e', live, current)
    requires Enters(e, current, visited, w) ==> Following(RoutedAt(e, current, payload, records, w)).None?
    requires RoutedAt(e', current, payload, records, w) == RoutedAt(e, current, payload, records, w)
    ensures DriveFrom(e', payload, current, visited, records, ts, w)
            == DriveFrom(e, payload, current, visited, records, ts, w)
  {
  }

  // What the drive asks of the flow it enters.
  function RoutedAt(e: Engine, current: string, payload: Json, records: FlowRecords, w: World): RoutedRun {
    RunRouted(e, e.plan.At(current), payload, records, None, w.Next())
  }

  // ---- Any other flows in their place ---------------------------------------------------------------------

  // The plans agree but for flows that are not live; those start with the same records.
  ghost predicate DifferInDead(plan: Plan, plan': Plan, dead: DeadSet) {
    && plan'.order == plan.order && plan'.start == plan.start && plan'.output == plan.output
    && InitialRecords(plan') == InitialRecords(plan)
    && forall n | Live(plan, dead, n) ::
         (n in plan'.flows <==> n in plan.flows) && (n in plan.flows ==> plan'.At(n) == plan.At(n))
  }

  lemma {:induction false} CalledIsLinked(steps: seq<Step>, step: Step, n: string)
    requires step in steps && n in step.Targets()
    ensures n in CalledFlows(steps)
  {
    if steps[0] != step {
      assert step in steps[1..];
      CalledIsLinked(steps[1..], step, n);
    }
  }

  lemma LiveTwins(e: Engine, e': Engine, dead: DeadSet)
    requires e' == e.(plan := e'.plan) && DifferInDead(e.plan, e'.plan, dead)
    ensures Twins(e, e', LiveFlows(e.plan, dead))
  {
    var live := LiveFlows(e.plan, dead);
    LiveFlowsClosed(e.plan, dead);
    forall n | n in live ensures Shared(e, e', live, n) {
      LiveFlowsKnown(e.plan, dead, n);
      if n in e.plan.flows {
        var flow := e.plan.At(n);
        forall step, m | step in flow.steps && m in step.Targets() ensures m in live {
          CalledIsLinked(flow.steps, step, m);
          assert m in LiveLinks(flow, dead);
          assert Edge(LiveGraph(e.plan, dead), n, m);
        }
        if flow.repeat.Some? && flow.Repeating().retryFlow.Some? {
          assert HasRetry(e.plan, n, flow.Repeating().Retry());
        }
      }
    }
  }

  lemma StartSame(e: Engine, e': Engine, live: set<string>, payload: Json)
    requires Twins(e, e', live) && e'.plan.start == e.plan.start
    ensures SelectStart(e', payload) == SelectStart(e, payload)
  {
    if e.plan.start.StartRoute? {
      EntrySame(e, e', live, e.plan.start.entries, 0, StartContext(payload, e.metadata));
    }
  }

  lemma CrashSame(e: Engine, e': Engine, live: set<string>, payload: Json, exn: Exn, records: FlowRecords,
                  active: Option<string>, ts: seq<TransitionRecord>, start: Option<StartRecord>, w: World)
    requires Twins(e, e', live) && e'.plan.order == e.plan.order && (active.Some? ==> active.value in live)
    ensures Crash(e', payload, exn, records, active, ts, start, w)
            == Crash(e, payload, exn, records, active, ts, start, w)
  {
    if active.Some? {
      assert Shared(e, e', live, active.value);
    }
  }

  // The output of a run that ends without an exception.
  function OutputOf(e: Engine, payload: Json, status: Status, records: FlowRecords): Result<Json, ErrorCode> {
    if status != Failed && e.plan.output.Some?
    then ResolveBinding(e.plan.output.value, WorkflowContext(payload, e.metadata, records)) else Ok(payload)
  }

  // How the run ends with this output.
  function Closing(e: Engine, output: Result<Json, ErrorCode>, payload: Json, status: Status, error: Option<Failure>,
                   records: FlowRecords, ts: seq<TransitionRecord>, start: StartRecord, w: World): RunResult {
    match output
    case Err(code) => Crash(e, payload, Error(code), records, None, ts, Some(start), w)
    case Ok(value) =>
      if e.expired(w.tick) then Crash(e, payload, Error(RunTimeout), records, None, ts, Some(start), w.Next())
      else
        RunResult(status, value, records, Total(RecordedUsage(e.plan.order, records)), error, ts, Some(start), w.Next())
  }

  lemma FinishCloses(e: Engine, payload: Json, status: Status, error: Option<Failure>, records: FlowRecords,
                     ts: seq<TransitionRecord>, start: StartRecord, w: World)
    ensures Finish(e, payload, status, error, records, ts, start, w)
            == Closing(e, OutputOf(e, payload, status, records), payload, status, error, records, ts, start, w)
  {
  }

  lemma ClosingSame(e: Engine, e': Engine, live: set<string>, output: Result<Json, ErrorCode>, payload: Json,
                    status: Status, error: Option<Failure>, records: FlowRecords, ts: seq<TransitionRecord>,
                    start: StartRecord, w: World)
    requires Twins(e, e', live) && e'.plan.order == e.plan.order
    ensures Closing(e', output, payload, status, error, records, ts, start, w)
            == Closing(e, output, payload, status, error, records, ts, start, w)
  {
    match output
    case Err(code) => CrashSame(e, e', live, payload, Error(code), records, None, ts, Some(start), w);
    case Ok(_) => CrashSame(e, e', live, payload, Error(RunTimeout), records, None, ts, Some(start), w.Next());
  }

  lemma FinishSame(e: Engine, e': Engine, live: set<string>, payload: Json, status: Status, error: Option<Failure>,
                   records: FlowRecords, ts: seq<TransitionRecord>, start: StartRecord, w: World)
    requires Twins(e, e', live) && e'.plan.order == e.plan.order && e'.plan.output == e.plan.output
    ensures Finish(e', payload, status, error, records, ts, start, w)
            == Finish(e, payload, status, error, records, ts, start, w)
  {
    FinishCloses(e, payload, status, error, records, ts, start, w);
    FinishCloses(e', payload, status, error, records, ts, start, w);
    ClosingSame(e, e', live, OutputOf(e, payload, status, records), payload, status, error, records, ts, start, w);
  }

  // No run depends on what a flow that is not live does: with any other flows in their place
  // every run makes the same calls, spends the same usage and leaves the same result.
  lemma DeadFlowsDoNotMatter(e: Engine, e': Engine, c: Catalog, dead: DeadSet, payload: Json, w: World)
    requires Analysed(e, c, dead, payload) && Filed(e.plan)
    requires e' == e.(plan := e'.plan) && DifferInDead(e.plan, e'.plan, dead)
    ensures Run(e', payload, w) == Run(e, payload, w)
  {
    var live, records := LiveFlows(e.plan, dead), InitialRecords(e.plan);
    LiveTwins(e, e', dead);
    LiveFlowsClosed(e.plan, dead);
    LiveIsPreserved(e, c, dead, live, payload);
    InitialMade(e);
    StartSame(e, e', live, payload);
    StartIsLive(e, c, dead, payload);
    var selected := SelectStart(e, payload);
    if selected.Ok? {
      LiveFlowsKnown(e.plan, dead, selected.value.flow);
      DriveEndsSame(e, e', live, payload, selected.value, records, w);
    } else {
      CrashSame(e, e', live, payload, selected.error, records, None, [], None, w);
    }
  }

  lemma DriveEndsSame(e: Engine, e': Engine, live: set<string>, payload: Json, start: StartRecord, records: FlowRecords,
                      w: World)
    requires Twins(e, e', live) && e'.plan.order == e.plan.order && e'.plan.output == e.plan.output
    requires Preserves(e, live, payload) && start.flow in live && AllMade(e, records)
    requires records == InitialRecords(e.plan) == InitialRecords(e'.plan)
    requires SelectStart(e, payload) == SelectStart(e', payload) == Ok(start)
    ensures Run(e', payload, w) == Run(e, payload, w)
  {
    DriveSame(e, e', live, payload, start.flow, {}, records, [], w);
    DriveStaysLive(e, live, payload, start.flow, {}, records, [], w);
    var d := DriveFrom(e, payload, start.flow, {}, records, [], w);
    match d.outcome
    case Err(exn) => CrashSame(e, e', live, payload, exn, d.records, d.active, d.transitions, Some(start), d.world);
    case Ok((status, error)) => FinishSame(e, e', live, payload, status, error, d.records, d.transitions, start,
                                           d.world);
  }

  // ---- A branch that is found dead ----------------------------------------------------------------------

  // A pointer the analysis takes to a schema that names its values.
  predicate Declares(c: Catalog, plan: Plan, pointer: string, view: View, values: seq<Json>) {
    && BoundaryResolver(c, plan)(pointer) == Of(Schematic(view))
    && Choices(Resolved(c.links, view).schema) == [] && NamedValues(Resolved(c.links, view).schema) == Some(values)
  }

  // Every pointer along declared properties and items of the payload schema is one.
  lemma DeclaredIsRead(c: Catalog, plan: Plan, pointer: string, path: seq<string>, views: seq<View>, values: seq<Json>)
    requires Pointers.Tokens(pointer) == ["payload"] + path
    requires Passes(c.links, path, views) && views[0] == c.payload
    requires var schema := Resolved(c.links, views[|path|]).schema;
             Choices(schema) == [] && NamedValues(schema) == Some(values)
    ensures Declares(c, plan, pointer, views[|path|], values)
  {
    PayloadIsRead(c, plan, pointer, path);
    DeclaredPath(c.links, path, views);
  }

  // A condition that asks for a value the schema does not name is false.
  lemma UndeclaredIsFalse(c: Catalog, plan: Plan, pointer: string, view: View, values: seq<Json>, operand: Json,
                          matcher: Matcher)
    requires Declares(c, plan, pointer, view, values) && values != []
    requires operand != Null && forall value | value in values :: !JsonEqual(value, operand)
    ensures Settled(c.links, Leaf(Pointer(pointer, None), Equals(operand)), BoundaryResolver(c, plan), matcher, false)
  {
    var static_ := Of(Schematic(view));
    NamedArePossible(c.links, view, values);
    assert values[0] in values && Possible(c.links, static_, values[0]);
  }

  // An entry with such a condition is dead.
  lemma UndeclaredIsDead(c: Catalog, plan: Plan, source: string, k: nat, pointer: string, view: View,
                         values: seq<Json>, operand: Json)
    requires Declares(c, plan, pointer, view, values) && values != []
    requires k < |RouteOf(plan, source)|
    requires RouteOf(plan, source)[k].condition == Some(Leaf(Pointer(pointer, None), Equals(operand)))
    requires operand != Null && forall value | value in values :: !JsonEqual(value, operand)
    ensures DeadAt(c, plan, source, k)
  {
    var resolve, matcher: Matcher := BoundaryResolver(c, plan), (_, _) => false;
    UndeclaredIsFalse(c, plan, pointer, view, values, operand, matcher);
    assert SettledEntry(c.links, RouteOf(plan, source)[k], resolve, matcher, false);
    SettledIsDead(c.links, RouteOf(plan, source), resolve, matcher, k);
  }

  // A start route that asks for such a value first and otherwise starts another flow, which
  // ends the run.
  predicate Branching(plan: Plan, pointer: string, operand: Json, asked: string, other: string) {
    && plan.start == StartRoute([RouteEntry(ToFlow(asked), Some(Leaf(Pointer(pointer, None), Equals(operand)))),
                                 RouteEntry(ToFlow(other), None)])
    && asked != other && other in plan.flows && plan.At(other).name == other && asked in plan.flows
    && Simple(plan.At(other), ToOutcome(EndCompleted))
  }

  lemma OnlyOtherIsLive(plan: Plan, dead: DeadSet, pointer: string, operand: Json, asked: string, other: string)
    requires Branching(plan, pointer, operand, asked, other) && ("", 0) in dead && ("", 1) !in dead
    ensures Live(plan, dead, other) && !Live(plan, dead, asked)
  {
    var entries := plan.start.entries;
    assert LiveEntries(entries, "", dead, 1) == LiveEntries(entries, "", dead, 0) + [] == [];
    assert LiveStarts(plan, dead) == [] + [other] == [other];
    var g, roots := LiveGraph(plan, dead), Members([other]);
    SimpleLinks(plan.At(other), ToOutcome(EndCompleted));
    assert CalledFlows(plan.At(other).steps) == [] + CalledFlows(plan.At(other).steps[1..]) == [];
    assert ForwardTargets(plan.At(other)) == [ToOutcome(EndCompleted)] && g[other] == [];
    FromRoot(g, roots, other);
    if ReachFrom(g, roots, asked) {
      SinkReaches(g, other, asked);
    }
  }

  // The compiler finds the branch dead and rejects the flow it leads to.
  lemma BranchIsRejected(c: Catalog, plan: Plan, dead: DeadSet, pointer: string, view: View, values: seq<Json>,
                         operand: Json, asked: string, other: string)
    requires AllDead(c, plan, dead) && Declares(c, plan, pointer, view, values) && values != []
    requires Branching(plan, pointer, operand, asked, other)
    requires operand != Null && forall value | value in values :: !JsonEqual(value, operand)
    ensures ("", 0) in dead && ("", 1) !in dead && Live(plan, dead, other) && !Live(plan, dead, asked)
  {
    UndeclaredIsDead(c, plan, "", 0, pointer, view, values, operand);
    var resolve := BoundaryResolver(c, plan);
    if DeadAt(c, plan, "", 1) {
      var matcher: Matcher := (_, _) => false;
      UndeclaredIsFalse(c, plan, pointer, view, values, operand, matcher);
      SettledIsTrue(c.links, plan.start.entries[0].condition.value, resolve, matcher, false);
    }
    OnlyOtherIsLive(plan, dead, pointer, operand, asked, other);
  }
}
