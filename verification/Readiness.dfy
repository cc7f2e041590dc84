/** What a context holds when a required binding is evaluated, and why the binding resolves. */
module Readiness {
  import opened Foundations
  import opened Json
  import opened Pointers
  import opened Bindings
  import opened Plans
  import opened Records
  import opened Engine
  import opened Acceptance
  import opened Availability

  // ---- Data below a record ----------------------------------------------------------

  // The tail of a pointer selects a value; a first_of member must not be null.
  predicate Leads(tail: seq<string>, value: Json, strict: bool) {
    var found := Walk(tail, value);
    found.Some? && (strict ==> found.value != Null)
  }

  // Whose payload a context shows: the run's, or the validated input of a flow.
  datatype Scope = RunPayload(payload: Json) | InputOf(flow: string)

  predicate Accepted(e: Engine, name: string, payload: Json) {
    payload.Obj? && e.validate(name, payload.fields).None?
  }

  predicate InScope(e: Engine, scope: Scope, payload: Json) {
    match scope
    case RunPayload(run) => payload == run
    case InputOf(name) => Accepted(e, name, payload)
  }

  // Every payload the input contract lets through has the value.
  ghost predicate PayloadLeads(e: Engine, scope: Scope, tail: seq<string>, strict: bool) {
    forall payload {:trigger InScope(e, scope, payload)} | InScope(e, scope, payload) :: Leads(tail, payload, strict)
  }

  // A result the step produced: returned by the executor with its selection, or a
  // collection's ledger.
  ghost predicate Supplied(e: Engine, step: Step, result: Json, selection: Option<Selection>) {
    if step.Collection? then selection.None? && exists entries :: IsLedger(entries, result)
    else exists tick, inputs {:trigger e.execute(tick, step, inputs)} ::
      Supplies(e.execute(tick, step, inputs).reply, result, selection)
  }

  predicate Supplies(reply: Reply, result: Json, selection: Option<Selection>) {
    reply.Returned? && reply.outcome.result == result && reply.outcome.selection == selection
  }

  predicate IsLedger(entries: seq<Entry>, value: Json) {
    value == Ledger(entries)
  }

  // A result the flow projected: its accepted payload, or its output in a context of
  // records its steps produced.
  ghost predicate Delivered(e: Engine, flow: Flow, value: Json) {
    match flow.output
    case None => Accepted(e, flow.name, value)
    case Some(output) => exists payload, records :: IsProjection(e, flow, output, payload, records, value)
  }

  ghost predicate IsProjection(e: Engine, flow: Flow, output: Binding, payload: Json, records: StepRecords,
                               value: Json) {
    && Accepted(e, flow.name, payload) && StepsProduced(e, flow.steps, records)
    && ResolveBinding(output, FlowContext(payload, e.metadata, records)) == Ok(value)
  }

  // ---- What records can hold -----------------------------------------------------------

  // Some visit of the step leaves the record, over a payload in scope.
  ghost predicate StepLeaves(e: Engine, scope: Scope, step: Step, record: StepRecord) {
    exists payload, p, depth: int {:trigger RunStep(e, step, payload, p, depth)} ::
      InScope(e, scope, payload) && Leaves(RunStep(e, step, payload, p, depth), record)
  }

  predicate Leaves(run: StepRun, record: StepRecord) {
    run.Ran? && run.record == record
  }

  // The record of a step a flow went past: it completed, or a conditional one was skipped.
  // The flow output is projected also after a step that stopped for review.
  ghost predicate StepDone(e: Engine, scope: Scope, step: Step, record: StepRecord, reviewed: bool) {
    || (StepLeaves(e, scope, step, record)
        && (record.status == Completed || (reviewed && record.status == NeedsReview)))
    || (step.guard.Some? && record == SkippedStep(step))
  }

  // Some execution of the flow leaves the record, over an input its contract accepts.
  ghost predicate Executed(e: Engine, flow: Flow, run: FlowRecord) {
    exists payload, w, depth: int {:trigger ExecuteFlow(e, flow, payload, w, depth)} ::
      Accepted(e, flow.name, payload) && ExecuteFlow(e, flow, payload, w, depth).record == run
  }

  ghost predicate Ended(e: Engine, flow: Flow, run: FlowRecord) {
    Executed(e, flow, run) && run.status != Failed
  }

  // Finished attempts: only the last may have stopped for review.
  ghost predicate AllEnded(e: Engine, flow: Flow, attempts: seq<FlowRecord>) {
    && (forall run | run in attempts :: Ended(e, flow, run))
    && EarlierCompleted(attempts)
  }

  predicate EarlierCompleted(attempts: seq<FlowRecord>) {
    forall k | 0 <= k < |attempts| - 1 :: attempts[k].status == Completed
  }

  // The record shows the result and the error of its last attempt.
  predicate ShowsLast(record: FlowRecord) {
    && record.attempts != []
    && var last := record.attempts[|record.attempts| - 1];
    record.result == last.result && record.error == last.error
  }

  // Flows whose record keeps its runs: repeated flows and retry flows.
  ghost predicate KeepsRuns(plan: Plan, n: string) {
    n in plan.flows && (plan.At(n).repeat.Some? || exists a :: HasRetry(plan, a, n))
  }

  // The record of a flow the run went past.
  ghost predicate FlowLeaves(e: Engine, plan: Plan, n: string, record: FlowRecord) {
    && n in plan.flows
    && if KeepsRuns(plan, n) then ShowsLast(record) && AllEnded(e, plan.At(n), record.attempts)
       else Ended(e, plan.At(n), record)
  }

  // ---- Pointers whose record suffices --------------------------------------------------

  ghost predicate StepLeadsTo(e: Engine, scope: Scope, step: Step, reviewed: bool, tail: seq<string>, strict: bool) {
    forall record {:trigger StepDone(e, scope, step, record, reviewed)} | StepDone(e, scope, step, record, reviewed) ::
      Leads(tail, StepData(record), strict)
  }

  // Whatever record the step leaves, the pointer leads somewhere in it.
  ghost predicate StepSure(e: Engine, scope: Scope, steps: seq<Step>, reviewed: bool, tokens: seq<string>,
                           strict: bool) {
    |tokens| < 2
    || forall step | step in steps && step.name == Second(tokens) ::
         StepLeadsTo(e, scope, step, reviewed, After(tokens, 2), strict)
  }

  // The same for the record of a flow.
  ghost predicate RecordSure(e: Engine, plan: Plan, tokens: seq<string>, strict: bool) {
    |tokens| < 2
    || forall record {:trigger FlowLeaves(e, plan, Second(tokens), record)}
         | FlowLeaves(e, plan, Second(tokens), record) ::
         Leads(After(tokens, 2), FlowData(record), strict)
  }

  // A pointer that reads no record is backed when every payload in scope, or the metadata,
  // has its value.
  ghost predicate Backed(e: Engine, scope: Scope, tokens: seq<string>, strict: bool) {
    tokens == []
    || (Heads(tokens, "payload") && PayloadLeads(e, scope, After(tokens, 1), strict))
    || (Heads(tokens, "metadata") && Leads(After(tokens, 1), Obj(e.metadata), strict))
  }

  ghost predicate Sure(e: Engine, scope: Scope, site: Site, tokens: seq<string>, strict: bool) {
    Backed(e, scope, tokens, strict)
    || (Heads(tokens, "steps") && (site.InFlow? || site.AtOutput?)
        && StepSure(e, scope, site.Steps(), site.AtOutput?, tokens, strict))
    || (Heads(tokens, "flows") && (site.AtBoundary? || site.AtItem?)
        && RecordSure(e, site.Plan(), tokens, strict))
  }

  // ---- Contexts ----------------------------------------------------------------------

  // What a site sees of its steps: every earlier one is done; for an output the first one.
  ghost predicate StepsSeen(e: Engine, scope: Scope, site: Site, records: StepRecords) {
    match site
    case InFlow(steps, prior) => forall n | n in prior :: StepSeen(e, scope, steps, n, records, false)
    case AtOutput(steps) => forall n | FirstNamed(steps, n) :: StepSeen(e, scope, steps, n, records, true)
    case _ => false
  }

  predicate FirstNamed(steps: seq<Step>, n: string) {
    steps != [] && steps[0].name == n
  }

  ghost predicate StepSeen(e: Engine, scope: Scope, steps: seq<Step>, n: string, records: StepRecords, reviewed: bool) {
    n in records
    && exists step :: step in steps && step.name == n && StepDone(e, scope, step, StepAt(records, n), reviewed)
  }

  ghost predicate RecordReady(e: Engine, plan: Plan, records: FlowRecords, n: string) {
    n in records && FlowLeaves(e, plan, n, FlowAt(records, n))
  }

  ghost predicate RecordsReady(e: Engine, plan: Plan, records: FlowRecords, available: set<string>) {
    forall n | n in available :: RecordReady(e, plan, records, n)
  }

  // A context a binding at this site may be resolved in: a payload in scope, and every record
  // the compiler counts on, as its step or flow may leave it.
  ghost predicate Ready(e: Engine, scope: Scope, site: Site, context: Json) {
    if site.InFlow? || site.AtOutput? then
      exists payload, records {:trigger FlowContext(payload, e.metadata, records)} ::
        InScope(e, scope, payload) && context == FlowContext(payload, e.metadata, records)
        && StepsSeen(e, scope, site, records)
    else
      exists payload, records {:trigger WorkflowContext(payload, e.metadata, records)} ::
        InScope(e, scope, payload) && context == WorkflowContext(payload, e.metadata, records)
        && RecordsReady(e, site.Plan(), records, site.Counted())
  }

  // Every available and sure pointer leads somewhere in such a context.
  lemma ReadyLeads(e: Engine, scope: Scope, site: Site, context: Json, tokens: seq<string>, strict: bool)
    requires Ready(e, scope, site, context) && Available(site, tokens) && Sure(e, scope, site, tokens, strict)
    ensures Leads(tokens, context, strict)
  {
    if site.InFlow? || site.AtOutput? {
      var payload, records :|
        InScope(e, scope, payload) && context == FlowContext(payload, e.metadata, records)
        && StepsSeen(e, scope, site, records);
      if Backed(e, scope, tokens, strict) {
        BackedLeads(e, scope, payload, context, tokens, strict);
      } else {
        StepsLead(e, scope, payload, site.Steps(), records, site.AtOutput?, tokens, strict);
      }
    } else {
      var payload, records :|
        InScope(e, scope, payload) && context == WorkflowContext(payload, e.metadata, records)
        && RecordsReady(e, site.Plan(), records, site.Counted());
      if Backed(e, scope, tokens, strict) {
        BackedLeads(e, scope, payload, context, tokens, strict);
      } else {
        RecordLeads(e, site.Plan(), payload, records, tokens, strict);
      }
    }
  }

  // The data side of a required binding; its availability is the compiler's side.  Of a
  // first_of some member must be there and not null, not always the same one.
  ghost predicate DataSure(e: Engine, scope: Scope, site: Site, binding: Binding)
    decreases binding
  {
    match binding
    case Literal(_) => true
    case Pointer(pointer, default) => default.Some? || Sure(e, scope, site, Tokens(pointer), false)
    case FirstOf(members, default) => default.Some? || SomeMemberSure(e, scope, site, members)
    case Fields(fields) => forall k | 0 <= k < |fields| :: DataSure(e, scope, site, fields[k].binding)
  }

  ghost predicate SomeMemberSure(e: Engine, scope: Scope, site: Site, members: seq<string>) {
    forall context {:trigger Ready(e, scope, site, context)} | Ready(e, scope, site, context) ::
      exists m :: m in members && Leads(Tokens(m), context, true)
  }

  ghost predicate DataSureAll(e: Engine, scope: Scope, site: Site, pairs: seq<Named>) {
    forall pair | pair in pairs :: DataSure(e, scope, site, pair.binding)
  }

  // One available member that is always there suffices.
  lemma OneMemberSuffices(e: Engine, scope: Scope, site: Site, members: seq<string>, member: string)
    requires member in members && Available(site, Tokens(member)) && Sure(e, scope, site, Tokens(member), true)
    ensures SomeMemberSure(e, scope, site, members)
  {
    forall context | Ready(e, scope, site, context)
      ensures exists m :: m in members && Leads(Tokens(m), context, true)
    {
      ReadyLeads(e, scope, site, context, Tokens(member), true);
    }
  }

  lemma {:induction false} ReadyResolves(e: Engine, scope: Scope, site: Site, context: Json, binding: Binding)
    requires Ready(e, scope, site, context) && Required(site, binding) && DataSure(e, scope, site, binding)
    ensures Resolvable(binding, context)
    decreases binding
  {
    match binding
    case Literal(_) =>
    case Pointer(pointer, default) =>
      if default.None? {
        ReadyLeads(e, scope, site, context, Tokens(pointer), false);
      }
    case FirstOf(members, default) =>
      if default.None? {
        var m :| m in members && Leads(Tokens(m), context, true);
        assert Present(m, context);
      }
    case Fields(fields) =>
      forall k | 0 <= k < |fields| ensures Resolvable(fields[k].binding, context) {
        ReadyResolves(e, scope, site, context, fields[k].binding);
      }
  }

  lemma ReadyResolvesAll(e: Engine, scope: Scope, site: Site, context: Json, pairs: seq<Named>)
    requires Ready(e, scope, site, context) && RequiredAll(site, pairs) && DataSureAll(e, scope, site, pairs)
    ensures AllResolvable(pairs, context)
  {
    forall k | 0 <= k < |pairs| ensures Resolvable(pairs[k].binding, context) {
      ReadyResolves(e, scope, site, context, pairs[k].binding);
    }
  }

  // ---- Walking through the projections ----------------------------------------------------

  lemma WalkField(tokens: seq<string>, fields: Object, strict: bool)
    requires tokens != [] && tokens[0] in fields
    ensures Leads(tokens, Obj(fields), strict) == Leads(tokens[1..], fields[tokens[0]], strict)
  {
  }

  // ---- Inside a flow -------------------------------------------------------------------------

  predicate Recorded(steps: seq<Step>, records: StepRecords) {
    forall j | 0 <= j < |steps| :: steps[j].name in records
  }

  // What a flow's records hold while it goes on: each step's own clean record, with a
  // result the step produced.
  ghost predicate StepsProduced(e: Engine, steps: seq<Step>, records: StepRecords) {
    && Recorded(steps, records) && records.Keys == Names(steps)
    && forall step {:trigger StepProduced(e, step, records)} | step in steps :: StepProduced(e, step, records)
  }

  // A record without a result shows no selection either.
  ghost predicate Sourced(e: Engine, step: Step, record: StepRecord) {
    match record.result
    case None => record.selection.None?
    case Some(result) => Supplied(e, step, result, record.selection)
  }

  ghost predicate StepProduced(e: Engine, step: Step, records: StepRecords) {
    step.name in records ==> Clean(step, StepAt(records, step.name)) && Sourced(e, step, StepAt(records, step.name))
  }

  // After k steps: each left its record, and only the last may have stopped for review.
  ghost predicate StepsDone(e: Engine, scope: Scope, steps: seq<Step>, records: StepRecords, k: int, reviewed: bool) {
    forall j {:trigger steps[j]} | 0 <= j < |steps| && j < k ::
      steps[j].name in records && StepDone(e, scope, steps[j], StepAt(records, steps[j].name), reviewed && j + 1 == k)
  }

  ghost predicate StepsReady(e: Engine, scope: Scope, steps: seq<Step>, records: StepRecords, k: int, reviewed: bool) {
    && StepsProduced(e, steps, records) && StepsDone(e, scope, steps, records, k, reviewed)
    && StepsAhead(steps, records, k)
  }

  // The steps from number k on have not run.
  predicate StepsAhead(steps: seq<Step>, records: StepRecords, k: int) {
    forall j {:trigger steps[j]} | 0 <= j < |steps| && k <= j ::
      steps[j].name in records && records[steps[j].name] == SkippedStep(steps[j])
  }

  lemma StepsLead(e: Engine, scope: Scope, payload: Json, steps: seq<Step>, records: StepRecords, reviewed: bool,
                  tokens: seq<string>, strict: bool)
    requires Heads(tokens, "steps") && StepSure(e, scope, steps, reviewed, tokens, strict)
    requires |tokens| >= 2 ==> StepSeen(e, scope, steps, Second(tokens), records, reviewed)
    ensures Leads(tokens, FlowContext(payload, e.metadata, records), strict)
  {
    var context := FlowContext(payload, e.metadata, records);
    WalkField(tokens, context.fields, strict);
    if |tokens| >= 2 {
      var table := map n | n in records :: StepData(records[n]);
      var step :| step in steps && step.name == tokens[1]
                  && StepDone(e, scope, step, StepAt(records, tokens[1]), reviewed);
      assert StepLeadsTo(e, scope, step, reviewed, tokens[2..], strict);
      WalkField(tokens[1..], table, strict);
      assert tokens[1..][1..] == tokens[2..];
    }
  }

  predicate ShowsPayload(context: Json, payload: Json, metadata: Object) {
    && context.Obj? && "payload" in context.fields && "metadata" in context.fields
    && context.fields["payload"] == payload && context.fields["metadata"] == Obj(metadata)
  }

  lemma BackedLeads(e: Engine, scope: Scope, payload: Json, context: Json, tokens: seq<string>, strict: bool)
    requires InScope(e, scope, payload) && Backed(e, scope, tokens, strict)
    requires ShowsPayload(context, payload, e.metadata)
    ensures Leads(tokens, context, strict)
  {
    if tokens != [] {
      WalkField(tokens, context.fields, strict);
    }
  }

  // After k steps the context of the next one is ready.
  lemma FlowReady(e: Engine, flow: Flow, payload: Json, records: StepRecords, k: nat)
    requires Accepted(e, flow.name, payload) && k <= |flow.steps|
    requires StepsReady(e, InputOf(flow.name), flow.steps, records, k, false)
    ensures Ready(e, InputOf(flow.name), InFlow(flow.steps, NamesBefore(flow.steps, k)),
                  FlowContext(payload, e.metadata, records))
  {
    var steps, scope := flow.steps, InputOf(flow.name);
    forall n | n in NamesBefore(steps, k) ensures StepSeen(e, scope, steps, n, records, false) {
      var j :| 0 <= j < k && steps[..k][j].name == n;
      assert steps[j] in steps && steps[j].name == n;
    }
    assert StepsSeen(e, scope, InFlow(steps, NamesBefore(steps, k)), records);
  }

  // After at least one step the context of the output is ready, also after a review.
  lemma OutputReady(e: Engine, flow: Flow, payload: Json, records: StepRecords, k: nat, reviewed: bool)
    requires Accepted(e, flow.name, payload) && k > 0 && flow.steps != []
    requires StepsReady(e, InputOf(flow.name), flow.steps, records, k, reviewed)
    ensures Ready(e, InputOf(flow.name), AtOutput(flow.steps), FlowContext(payload, e.metadata, records))
  {
    var steps, scope := flow.steps, InputOf(flow.name);
    assert StepDone(e, scope, steps[0], StepAt(records, steps[0].name), reviewed && 1 == k);
    assert StepDone(e, scope, steps[0], StepAt(records, steps[0].name), true);
    assert StepsSeen(e, scope, AtOutput(steps), records);
  }

  // ---- At a boundary ---------------------------------------------------------------------------

  lemma RecordLeads(e: Engine, plan: Plan, payload: Json, records: FlowRecords, tokens: seq<string>, strict: bool)
    requires Heads(tokens, "flows") && RecordSure(e, plan, tokens, strict)
    requires |tokens| >= 2 ==> RecordReady(e, plan, records, Second(tokens))
    ensures Leads(tokens, WorkflowContext(payload, e.metadata, records), strict)
  {
    var context := WorkflowContext(payload, e.metadata, records);
    WalkField(tokens, context.fields, strict);
    if |tokens| >= 2 {
      var table := map n | n in records :: FlowData(records[n]);
      WalkField(tokens[1..], table, strict);
      assert tokens[1..][1..] == tokens[2..];
      assert Leads(tokens[2..], FlowData(records[tokens[1]]), strict);
    }
  }

  // The boundary context over the records the compiler counts on is ready.
  lemma BoundaryReady(e: Engine, scope: Scope, site: Site, payload: Json, records: FlowRecords)
    requires site.AtBoundary? || site.AtItem?
    requires InScope(e, scope, payload) && RecordsReady(e, site.Plan(), records, site.Counted())
    ensures Ready(e, scope, site, WorkflowContext(payload, e.metadata, records))
  {
  }
}
