/**
 The codes a failure can carry, and what route selection does: the first entry that holds, an
 authored target, and no failure but at a pointer that is too long.
 */
module Routing {
  import opened Foundations
  import opened Json
  import opened Bindings
  import opened Conditions
  import opened Records
  import opened Engine
  import opened Plans

  // Adapters never report this code of their own accord.
  ghost predicate Silent(e: Engine, code: ErrorCode) {
    && (forall tick, step, inputs {:trigger e.execute(tick, step, inputs)} ::
          var reply := e.execute(tick, step, inputs).reply;
          reply.Raised? && reply.exn.Service? ==> reply.exn.code != code)
    && forall name, inputs {:trigger e.validate(name, inputs)} ::
      var rejected := e.validate(name, inputs);
      rejected.Some? && rejected.value.Service? ==> rejected.value.code != code
  }

  predicate Reports(exn: Exn, code: ErrorCode) {
    exn.Service? && exn.code == code
  }

  predicate FailsWith(failure: Option<Failure>, code: ErrorCode) {
    failure.Some? && failure.value.code == code
  }

  predicate DataError(code: ErrorCode) {
    code == InvalidConfiguration || code == InvalidInput || code == MissingBinding
  }

  // Recording a failure invents only timeouts and dependency failures.
  lemma RecordedCode(e: Engine, exn: Exn, w: World)
    ensures var (failure, w') := RecordFailure(e, exn, w);
            && (Reports(exn, failure.code)
                || failure.code == RunTimeout || failure.code == RequestTimeout || failure.code == DependencyFailure)
            && w'.consumed == w.consumed && w'.spent == w.spent
  {
  }

  lemma {:induction false} LookupErrors(members: seq<string>, context: Json)
    ensures var r := LookupAll(members, context); r.Err? ==> r.error == InvalidConfiguration
  {
    if members != [] {
      LookupErrors(members[1..], context);
    }
  }

  lemma {:induction false} BindingErrors(binding: Binding, context: Json)
    ensures var r := ResolveBinding(binding, context); r.Err? ==> DataError(r.error)
    decreases binding, 0
  {
    match binding
    case Literal(_) =>
    case Pointer(_, _) =>
    case FirstOf(members, _) => LookupErrors(members, context);
    case Fields(fields) => ArgumentErrors(fields, 0, map[], context);
  }

  lemma {:induction false} ArgumentErrors(pairs: seq<Named>, k: nat, values: Object, context: Json)
    requires k <= |pairs|
    ensures var r := ResolveFrom(pairs, k, values, context); r.Err? ==> DataError(r.error)
    decreases pairs, |pairs| - k
  {
    if k < |pairs| && pairs[k].name !in values {
      BindingErrors(pairs[k].binding, context);
      var value := ResolveBinding(pairs[k].binding, context);
      if value.Ok? {
        ArgumentErrors(pairs, k + 1, values[pairs[k].name := value.value], context);
      }
    }
  }

  lemma InputErrors(e: Engine, name: string, bindings: seq<Named>, context: Json)
    ensures var r := FlowInput(e, name, bindings, context);
            r.Err? ==> (r.error.Service? && DataError(r.error.code))
                       || exists inputs :: e.validate(name, inputs) == Some(r.error)
  {
    ArgumentErrors(bindings, 0, map[], context);
    var inputs := ResolveAll(bindings, context);
    if inputs.Ok? && e.validate(name, inputs.value).Some? {
      assert FlowInput(e, name, bindings, context) == Err(e.validate(name, inputs.value).value);
    }
  }

  lemma {:induction false} ConditionErrors(condition: Condition, context: Json, matcher: Matcher)
    ensures var r := Evaluate(condition, context, matcher); r.Err? ==> DataError(r.error)
    decreases condition, 0
  {
    match condition
    case Leaf(source, _) =>
      if source.FirstOf? {
        LookupErrors(source.members, context);
      }
    case All(operands) => OperandErrors(operands, 0, context, matcher);
    case AnyOf(operands) => OperandErrors(operands, 0, context, matcher);
    case Not(operand) => ConditionErrors(operand, context, matcher);
  }

  lemma {:induction false} OperandErrors(operands: seq<Condition>, k: nat, context: Json, matcher: Matcher)
    requires k <= |operands|
    ensures var r := EvaluateAll(operands, k, context, matcher); r.Err? ==> DataError(r.error)
    ensures var r := EvaluateAny(operands, k, context, matcher); r.Err? ==> DataError(r.error)
    decreases operands, |operands| - k
  {
    if k < |operands| {
      ConditionErrors(operands[k], context, matcher);
      OperandErrors(operands, k + 1, context, matcher);
    }
  }

  // The recorded failure: the exception's own code, or one that recording invents.
  predicate CrashedWith(exn: Exn, failure: Option<Failure>) {
    match failure
    case None => false
    case Some(f) =>
      Reports(exn, f.code) || f.code == RunTimeout || f.code == RequestTimeout || f.code == DependencyFailure
  }

  lemma CrashCode(e: Engine, payload: Json, exn: Exn, records: FlowRecords, active: Option<string>,
                  transitions: seq<TransitionRecord>, start: Option<StartRecord>, w: World)
    ensures var r := Crash(e, payload, exn, records, active, transitions, start, w);
            && r.world.consumed == w.consumed && r.world.spent == w.spent
            && r.status == Failed && CrashedWith(exn, r.error)
  {
    RecordedCode(e, exn, w);
  }

  lemma {:induction false} EntryAuthored(e: Engine, entries: seq<RouteEntry>, k: nat, context: Json)
    requires k <= |entries|
    ensures var r := SelectEntry(e, entries, k, context);
            r.Ok? ==> k <= r.value.1 < |entries| && r.value.0 == entries[r.value.1].target
                      && r.value.0 in EntryTargets(entries)
    decreases |entries| - k
  {
    if k < |entries| {
      assert EntryTargets(entries)[k] == entries[k].target;
      EntryAuthored(e, entries, k + 1, context);
    }
  }

  // Selection comes to a condition with a pointer that is too long.
  predicate OverlongRoute(e: Engine, entries: seq<RouteEntry>, from: nat, context: Json) {
    exists k | from <= k < |entries| ::
      && entries[k].condition.Some? && OverlongCondition(entries[k].condition.value, context, e.matcher)
      && forall j | from <= j < k ::
        entries[j].condition.Some? && Evaluate(entries[j].condition.value, context, e.matcher) == Ok(false)
  }

  lemma ShortRouteNeverOverlong(e: Engine, entries: seq<RouteEntry>, context: Json)
    requires ShortRoute(entries)
    ensures !OverlongRoute(e, entries, 0, context)
  {
    forall k | 0 <= k < |entries| && entries[k].condition.Some?
      ensures !OverlongCondition(entries[k].condition.value, context, e.matcher)
    {
      ShortConditionNeverOverlong(entries[k].condition.value, context, e.matcher);
    }
  }

  lemma OverlongRouteNext(e: Engine, entries: seq<RouteEntry>, k: nat, context: Json)
    requires k < |entries| && entries[k].condition.Some?
    ensures OverlongRoute(e, entries, k, context) <==>
            OverlongCondition(entries[k].condition.value, context, e.matcher)
            || (Evaluate(entries[k].condition.value, context, e.matcher) == Ok(false)
                && OverlongRoute(e, entries, k + 1, context))
  {
  }

  // With a final otherwise entry and authored conditions, selection fails only at a
  // pointer that is too long, and it picks the first entry whose condition holds.
  lemma {:induction false} EntrySelected(e: Engine, entries: seq<RouteEntry>, k: nat, context: Json)
    requires RouteShape(entries) && k < |entries|
    ensures var r := SelectEntry(e, entries, k, context);
            && (r.Err? <==> OverlongRoute(e, entries, k, context))
            && (r.Err? ==> r.error == Error(InvalidConfiguration))
            && (r.Ok? ==>
                  && k <= r.value.1 < |entries|
                  && (entries[r.value.1].condition.None?
                      || Evaluate(entries[r.value.1].condition.value, context, e.matcher) == Ok(true))
                  && (forall j | k <= j < r.value.1 :: entries[j].condition.Some?
                        && Evaluate(entries[j].condition.value, context, e.matcher) == Ok(false)))
    decreases |entries| - k
  {
    if entries[k].condition.Some? {
      FailsIffOverlong(entries[k].condition.value, context, e.matcher);
      OverlongRouteNext(e, entries, k, context);
      if Evaluate(entries[k].condition.value, context, e.matcher) == Ok(false) {
        EntrySelected(e, entries, k + 1, context);
      }
    }
  }

  lemma {:induction false} CaseAuthored(cases: seq<Case>, key: string)
    ensures var found := FindCase(cases, key);
            found.Some? ==> exists k :: 0 <= k < |cases| && cases[k].key == key && cases[k].target == found.value
    ensures FindCase(cases, key).None? <==> forall k | 0 <= k < |cases| :: cases[k].key != key
  {
    if cases != [] && cases[0].key != key {
      CaseAuthored(cases[1..], key);
      if FindCase(cases[1..], key).Some? {
        var k :| 0 <= k < |cases[1..]| && cases[1..][k].key == key
            && cases[1..][k].target == FindCase(cases, key).value;
        assert cases[k + 1].target == FindCase(cases, key).value;
      }
      assert FindCase(cases, key) == FindCase(cases[1..], key);
      assert forall k | 1 <= k < |cases| :: cases[k] == cases[1..][k - 1];
    }
  }

  lemma {:induction false} IssueAuthored(issues: seq<IssueTarget>, issue: Issue)
    ensures var found := FindIssue(issues, issue);
            found.Some? ==> exists k :: 0 <= k < |issues| && issues[k].issue == issue && issues[k].target == found.value
  {
    if issues != [] && issues[0].issue != issue {
      IssueAuthored(issues[1..], issue);
      if FindIssue(issues[1..], issue).Some? {
        var k :| 0 <= k < |issues[1..]| && issues[1..][k].issue == issue
                 && issues[1..][k].target == FindIssue(issues, issue).value;
        assert issues[k + 1].target == FindIssue(issues, issue).value;
      }
    }
  }

  lemma SelectedIssueTarget(default: Target, routes: seq<IssueTarget>, reported: seq<Issue>)
    ensures SelectByIssue(default, routes, reported).0 in ReviewTargets(ByIssue(default, routes))
  {
    var targets := ReviewTargets(ByIssue(default, routes));
    assert targets[0] == default;
    if reported != [] {
      IssueAuthored(routes, reported[0]);
      var found := FindIssue(routes, reported[0]);
      if found.Some? {
        var k :| 0 <= k < |routes| && routes[k].target == found.value;
        assert targets[k + 1] == found.value;
      }
    }
  }

  // ---- What cases and issues select ---------------------------------------------------------

  function CaseTransition(flow: Flow, target: Target, key: Option<string>): TransitionRecord {
    TransitionRecord(flow.name, Completed, target, KindCases, None, key, None)
  }

  // A string leads to the target authored for it and shows its case, and to the default without
  // one; null leads to the default; anything else fails.
  predicate CaseRouted(flow: Flow, cases: seq<Case>, default: Target, value: Result<Json, ErrorCode>,
                       selected: Result<TransitionRecord, Exn>) {
    match value
    case Err(code) => selected == Err(Error(code))
    case Ok(Null) => selected == Ok(CaseTransition(flow, default, None))
    case Ok(Str(s)) =>
      if exists k | 0 <= k < |cases| :: cases[k].key == s
      then exists k | 0 <= k < |cases| ::
        cases[k].key == s && selected == Ok(CaseTransition(flow, cases[k].target, Some(s)))
      else selected == Ok(CaseTransition(flow, default, None))
    case _ => selected == Err(Error(InvalidInput))
  }

  lemma CaseSelected(e: Engine, flow: Flow, binding: Binding, cases: seq<Case>, default: Target, covers: seq<string>,
                     context: Json)
    requires flow.transition == Some(Cases(binding, cases, default, covers))
    ensures CaseRouted(flow, cases, default, ResolveBinding(binding, context), ForwardTarget(e, flow, context))
  {
    var value := ResolveBinding(binding, context);
    if value.Ok? && value.value.Str? {
      CaseAuthored(cases, value.value.s);
    }
  }

  // Every issue has at most one route.
  predicate OneRouteEach(routes: seq<IssueTarget>) {
    forall j, k | 0 <= j < k < |routes| :: routes[j].issue != routes[k].issue
  }

  predicate OwnRoute(routes: seq<IssueTarget>, issue: Issue, target: Target) {
    exists k | 0 <= k < |routes| :: routes[k] == IssueTarget(issue, target)
  }

  predicate Unrouted(routes: seq<IssueTarget>, issue: Issue) {
    forall k | 0 <= k < |routes| :: routes[k].issue != issue
  }

  // Where an issue alone leads: along its own route, or to the default without one.
  predicate LeadsTo(routes: seq<IssueTarget>, default: Target, issue: Issue, target: Target) {
    OwnRoute(routes, issue, target) || (Unrouted(routes, issue) && target == default)
  }

  lemma {:induction false} IssueFound(routes: seq<IssueTarget>, issue: Issue)
    requires OneRouteEach(routes)
    ensures forall target :: FindIssue(routes, issue) == Some(target) <==> OwnRoute(routes, issue, target)
    ensures FindIssue(routes, issue).None? <==> Unrouted(routes, issue)
  {
    if routes != [] && routes[0].issue != issue {
      var rest := routes[1..];
      IssueFound(rest, issue);
      assert forall k | 1 <= k < |routes| :: routes[k] == rest[k - 1];
      forall target | OwnRoute(rest, issue, target) ensures OwnRoute(routes, issue, target) {
        var k :| 0 <= k < |rest| && rest[k] == IssueTarget(issue, target);
        assert routes[k + 1] == IssueTarget(issue, target);
      }
    }
  }

  lemma IssueLeads(routes: seq<IssueTarget>, default: Target, issue: Issue, target: Target)
    requires OneRouteEach(routes)
    ensures LeadsTo(routes, default, issue, target) <==> IssueOr(routes, default, issue) == target
  {
    IssueFound(routes, issue);
    if target == default && OwnRoute(routes, issue, target) {
      assert FindIssue(routes, issue) == Some(target);
    }
  }

  // All reported issues lead to the target.
  predicate Agreed(routes: seq<IssueTarget>, default: Target, reported: seq<Issue>, target: Target) {
    reported != [] && forall issue | issue in reported :: LeadsTo(routes, default, issue, target)
  }

  // The issue shown is the first reported one with a route of its own to the target.
  predicate ShowsIssue(routes: seq<IssueTarget>, reported: seq<Issue>, target: Target, shown: Option<Issue>) {
    match shown
    case None => forall issue | issue in reported :: !OwnRoute(routes, issue, target)
    case Some(issue) =>
      && OwnRoute(routes, issue, target)
      && exists k | 0 <= k < |reported| ::
           reported[k] == issue && forall j | 0 <= j < k :: !OwnRoute(routes, reported[j], target)
  }

  lemma {:induction false} IssueShown(routes: seq<IssueTarget>, reported: seq<Issue>, target: Target)
    requires OneRouteEach(routes)
    ensures ShowsIssue(routes, reported, target, SelectingIssue(routes, reported, target))
  {
    if reported != [] {
      IssueFound(routes, reported[0]);
      if FindIssue(routes, reported[0]) != Some(target) {
        var rest := reported[1..];
        IssueShown(routes, rest, target);
        var shown := SelectingIssue(routes, rest, target);
        if shown.Some? {
          var k :| 0 <= k < |rest| && rest[k] == shown.value
                   && forall j | 0 <= j < k :: !OwnRoute(routes, rest[j], target);
          assert reported[k + 1] == shown.value;
          assert forall j | 1 <= j < k + 1 :: reported[j] == rest[j - 1];
        }
      }
    }
  }

  // Issues that agree select where they lead, and show which of them did; no issue, or issues
  // that lead apart, select the default and show none.
  lemma IssuesSelect(default: Target, routes: seq<IssueTarget>, reported: seq<Issue>, target: Target)
    requires OneRouteEach(routes)
    ensures Agreed(routes, default, reported, target) ==>
              var (selected, shown) := SelectByIssue(default, routes, reported);
              selected == target && ShowsIssue(routes, reported, target, shown)
    ensures (forall t :: !Agreed(routes, default, reported, t)) ==>
              SelectByIssue(default, routes, reported) == (default, None)
  {
    if reported != [] {
      var first := IssueOr(routes, default, reported[0]);
      forall issue, t ensures LeadsTo(routes, default, issue, t) <==> IssueOr(routes, default, issue) == t {
        IssueLeads(routes, default, issue, t);
      }
      IssueShown(routes, reported, first);
      assert reported[0] in reported && LeadsTo(routes, default, reported[0], first);
      if forall k | 0 <= k < |reported| :: IssueOr(routes, default, reported[k]) == first {
        assert Agreed(routes, default, reported, first);
      } else {
        var k :| 0 <= k < |reported| && IssueOr(routes, default, reported[k]) != first;
        assert reported[k] in reported;
      }
    }
  }

  predicate AuthoredOnReview(flow: Flow, selected: Result<TransitionRecord, Exn>) {
    match selected
    case Err(_) => true
    case Ok(t) =>
      && t.source == flow.name && t.reason == NeedsReview && t.target != ToOutcome(EndCompleted)
      && (t.target in UnresolvedTargets(flow)
          || (flow.onUnresolved.None? && t.target == ToOutcome(EndNeedsReview)))
  }

  predicate AuthoredForward(flow: Flow, selected: Result<TransitionRecord, Exn>) {
    match selected
    case Err(_) => true
    case Ok(t) => t.source == flow.name && t.reason == Completed && t.target in ForwardTargets(flow)
  }

  // A review leads to a target of the review route, or ends the run in review when
  // the flow has none; it never completes the run.
  lemma ReviewAuthored(e: Engine, flow: Flow, issues: seq<Issue>, context: Json)
    ensures AuthoredOnReview(flow, ReviewTarget(e, flow, issues, context))
  {
    match flow.onUnresolved
    case None =>
    case Some(ReviewDirect(_)) =>
    case Some(ByIssue(default, routes)) =>
      SelectedIssueTarget(default, routes, issues);
    case Some(ReviewConditional(entries)) =>
      EntryAuthored(e, entries, 0, context);
  }

  // A completed flow leads to a target of its transition.
  lemma ForwardAuthored(e: Engine, flow: Flow, context: Json)
    ensures AuthoredForward(flow, ForwardTarget(e, flow, context))
  {
    if flow.transition.Some? {
      match flow.transition.value
      case Direct(_) =>
      case Cases(binding, cases, default, _) =>
        var targets := ForwardTargets(flow);
        assert targets[0] == default;
        var value := ResolveBinding(binding, context);
        if value.Ok? && value.value.Str? {
          CaseAuthored(cases, value.value.s);
          var found := FindCase(cases, value.value.s);
          if found.Some? {
            var k :| 0 <= k < |cases| && cases[k].key == value.value.s && cases[k].target == found.value;
            assert targets[k + 1] == found.value;
          }
        }
      case Conditional(entries) =>
        EntryAuthored(e, entries, 0, context);
    }
  }

  predicate AuthoredTarget(flow: Flow, status: Status, selected: Result<TransitionRecord, Exn>) {
    match selected
    case Err(_) => true
    case Ok(t) =>
      && t.source == flow.name && t.reason == (if status == NeedsReview then NeedsReview else Completed)
      && match t.target
         case ToFlow(n) =>
           n in FlowNames(FlowTargets(flow)) && (status == NeedsReview ==> n in FlowNames(UnresolvedTargets(flow)))
         case ToOutcome(_) => flow.onUnresolved.None? || exists other :: other in FlowTargets(flow) && other.ToOutcome?
  }

  // Either way the selected flow is a routed successor.
  lemma TargetAuthored(e: Engine, flow: Flow, status: Status, issues: seq<Issue>, context: Json)
    ensures AuthoredTarget(flow, status, SelectTarget(e, flow, status, issues, context))
  {
    ReviewAuthored(e, flow, issues, context);
    ForwardAuthored(e, flow, context);
    var r := SelectTarget(e, flow, status, issues, context);
    if r.Ok? {
      assert r.value.target in UnresolvedTargets(flow) || r.value.target in ForwardTargets(flow)
             || flow.onUnresolved.None?;
      assert forall t :: t in FlowTargets(flow) <==> t in ForwardTargets(flow) || t in UnresolvedTargets(flow);
    }
  }

  predicate StartsAt(plan: Plan, start: Result<StartRecord, Exn>) {
    match start
    case Err(_) => true
    case Ok(record) => record.flow in StartCandidates(plan.start)
  }

  lemma StartAuthored(e: Engine, payload: Json)
    ensures StartsAt(e.plan, SelectStart(e, payload))
  {
    if e.plan.start.StartRoute? {
      EntryAuthored(e, e.plan.start.entries, 0, StartContext(payload, e.metadata));
    }
  }
}
