/**
 What required pointers below a record need of the data.  Record fields that every record of
 a step or flow has need nothing: status, kind, the result itself, the first attempt with its
 number, status and result.  Values below a result or a selection are there when whatever the
 executor returns, or the flow delivers, has them.
 */
module RecordFields {
  import opened Foundations
  import opened Json
  import opened Pointers
  import opened Plans
  import opened Records
  import opened Engine
  import opened Availability
  import opened Readiness
  import opened Production
  import Accounting
  import opened Bindings

  // ---- Steps ----------------------------------------------------------------------------

  // What the executor may return and the engine keeps.
  predicate Keeps(step: Step, outcome: StepOutcome) {
    step.Operation? && ValidOutcome(outcome, step) && Fits(outcome.result, 0, MAX_JSON_DEPTH)
  }

  // The executor's outcome that a record shows.
  ghost predicate Shows(e: Engine, step: Step, record: StepRecord, outcome: StepOutcome) {
    && (exists tick, inputs {:trigger e.execute(tick, step, inputs)} ::
          e.execute(tick, step, inputs).reply == Returned(outcome))
    && Keeps(step, outcome) && record.result == Some(outcome.result) && record.selection == outcome.selection
    && (record.status == NeedsReview <==> outcome.needsReview)
  }

  // A result with its origin: an outcome of the executor, or a ledger.
  ghost predicate Finished(e: Engine, step: Step, record: StepRecord) {
    && record.collection == step.Collection?
    && match record.result
       case None => false
       case Some(result) =>
         if step.Collection? then exists entries :: IsLedger(entries, result)
         else exists outcome :: Shows(e, step, record, outcome)
  }

  // A step that did not fail has a result: an outcome of the executor, or a ledger.
  lemma LeftShape(e: Engine, scope: Scope, step: Step, record: StepRecord)
    requires StepLeaves(e, scope, step, record) && record.status != Failed
    ensures Finished(e, step, record)
  {
    var payload, p, depth: int :| InScope(e, scope, payload) && Leaves(RunStep(e, step, payload, p, depth), record);
    var p1 := p.(world := p.world.Next());
    assert RunStep(e, step, payload, p, depth) == EnterStep(e, step, payload, p1, depth);
    var p2 := p1.(world := p1.world.(consumed := p1.world.consumed + 1));
    var inputs := ResolveAll(step.Arguments(), Context(e, payload, p1)).value;
    EnterRuns(e, step, payload, p1, p2, inputs, depth);
    if step.Collection? {
      CollectionMakes(e, step, inputs, p2.world, depth);
    } else {
      var reply := e.execute(p2.world.tick, step, inputs).reply;
      if reply.Returned? {
        assert RunOperation(e, step, inputs, p2).Ran? ==>
            Shows(e, step, RunOperation(e, step, inputs, p2).record, reply.outcome);
      }
    }
  }

  // The data shows the value under the key.
  predicate Shown(data: Json, key: string, value: Option<Json>) {
    data.Obj? && (value.Some? ==> key in data.fields && data.fields[key] == value.value)
  }

  predicate ShownSome(data: Json, key: string) {
    data.Obj? && key in data.fields && data.fields[key] != Null
  }

  lemma DataFields(record: StepRecord)
    ensures ShownSome(StepData(record), "status") && Shown(StepData(record), "result", record.result)
    ensures record.collection ==> ShownSome(StepData(record), "kind")
    ensures Shown(StepData(record), "selection", SelectionValue(record.selection))
  {
    PartFields(record.result, KindValue(record.collection), SelectionValue(record.selection), record.partialResult,
               ErrorValue(record.error), Str(StatusText(record.status)));
  }

  lemma PartFields(result: Option<Json>, kind: Option<Json>, selection: Option<Json>, partial: Option<Json>,
                   error: Option<Json>, status: Json)
    ensures var fields := map["status" := status] + Optional("result", result) + Optional("kind", kind)
                          + Optional("selection", selection) + Optional("partial_result", partial)
                          + Optional("error", error);
            && Shown(Obj(fields), "status", Some(status)) && Shown(Obj(fields), "result", result)
            && Shown(Obj(fields), "kind", kind) && Shown(Obj(fields), "selection", selection)
  {
  }

  lemma FieldLeads(fields: Object, key: string, tail: seq<string>, strict: bool)
    requires key in fields
    ensures Leads([key] + tail, Obj(fields), strict) == Leads(tail, fields[key], strict)
  {
    WalkField([key] + tail, fields, strict);
    assert ([key] + tail)[1..] == tail;
  }

  // The record itself, its status, the kind of a collection and, unless the step is
  // conditional, its result need no data.
  lemma StepFieldsAreSure(e: Engine, scope: Scope, step: Step, reviewed: bool)
    ensures StepLeadsTo(e, scope, step, reviewed, [], true)
    ensures StepLeadsTo(e, scope, step, reviewed, ["status"], true)
    ensures step.Collection? ==> StepLeadsTo(e, scope, step, reviewed, ["kind"], true)
    ensures step.guard.None? ==> StepLeadsTo(e, scope, step, reviewed, ["result"], false)
    ensures step.guard.None? && step.Collection? ==> StepLeadsTo(e, scope, step, reviewed, ["result", "items"], true)
  {
    forall record | StepDone(e, scope, step, record, reviewed)
      ensures Leads([], StepData(record), true) && Leads(["status"], StepData(record), true)
      ensures step.Collection? ==> Leads(["kind"], StepData(record), true)
      ensures step.guard.None? ==> Leads(["result"], StepData(record), false)
      ensures step.guard.None? && step.Collection? ==> Leads(["result", "items"], StepData(record), true)
    {
      if StepLeaves(e, scope, step, record) && record.status != Failed {
        LeftShape(e, scope, step, record);
      }
      FieldsLead(step, record);
    }
  }

  ghost predicate ShowsLedger(step: Step, record: StepRecord) {
    step.Collection? ==>
      match record.result
      case None => true
      case Some(result) => exists entries :: IsLedger(entries, result)
  }

  lemma FieldsLead(step: Step, record: StepRecord)
    requires record.collection == step.Collection? && ShowsLedger(step, record)
    ensures Leads([], StepData(record), true) && Leads(["status"], StepData(record), true)
    ensures step.Collection? ==> Leads(["kind"], StepData(record), true)
    ensures record.result.Some? ==> Leads(["result"], StepData(record), false)
    ensures record.result.Some? && step.Collection? ==> Leads(["result", "items"], StepData(record), true)
  {
    DataFields(record);
    var fields := StepData(record).fields;
    assert ["status"] + [] == ["status"] && ["kind"] + [] == ["kind"] && ["result"] + [] == ["result"];
    FieldLeads(fields, "status", [], true);
    if step.Collection? {
      FieldLeads(fields, "kind", [], true);
    }
    if record.result.Some? {
      FieldLeads(fields, "result", [], false);
      if step.Collection? {
        assert ["result"] + ["items"] == ["result", "items"] && ["items"] + [] == ["items"];
        FieldLeads(fields, "result", ["items"], true);
        FieldLeads(record.result.value.fields, "items", [], true);
      }
    }
  }

  predicate ReturnsValue(step: Step, reply: Reply, tail: seq<string>, strict: bool) {
    match reply
    case Returned(outcome) => Keeps(step, outcome) ==> Leads(tail, outcome.result, strict)
    case _ => true
  }

  predicate SelectsValue(step: Step, reply: Reply, tail: seq<string>, strict: bool) {
    match reply
    case Returned(outcome) =>
      Keeps(step, outcome) && !outcome.needsReview ==>
        outcome.selection.Some? && Leads(tail, SelectionValue(outcome.selection).value, strict)
    case _ => true
  }

  // Below the result of an operation: what every outcome has that the engine keeps.
  lemma ResultIsSure(e: Engine, scope: Scope, step: Step, reviewed: bool, tail: seq<string>, strict: bool)
    requires step.Operation? && step.guard.None?
    requires forall tick, inputs {:trigger e.execute(tick, step, inputs)} ::
               ReturnsValue(step, e.execute(tick, step, inputs).reply, tail, strict)
    ensures StepLeadsTo(e, scope, step, reviewed, ["result"] + tail, strict)
  {
    forall record | StepDone(e, scope, step, record, reviewed)
      ensures Leads(["result"] + tail, StepData(record), strict) {
      LeftShape(e, scope, step, record);
      DataFields(record);
      FieldLeads(StepData(record).fields, "result", tail, strict);
    }
  }

  // Below the selection of a decision: what every outcome selects that needs no review.
  lemma SelectionIsSure(e: Engine, scope: Scope, step: Step, tail: seq<string>, strict: bool)
    requires step.Operation? && step.guard.None?
    requires forall tick, inputs {:trigger e.execute(tick, step, inputs)} ::
               SelectsValue(step, e.execute(tick, step, inputs).reply, tail, strict)
    ensures StepLeadsTo(e, scope, step, false, ["selection"] + tail, strict)
  {
    forall record | StepDone(e, scope, step, record, false)
      ensures Leads(["selection"] + tail, StepData(record), strict) {
      LeftShape(e, scope, step, record);
      DataFields(record);
      FieldLeads(StepData(record).fields, "selection", tail, strict);
    }
  }

  // ---- Flows ---------------------------------------------------------------------------------

  lemma {:induction false} StepsDeliver(e: Engine, flow: Flow, payload: Json, k: nat, p: Progress, depth: int)
    ensures var record := RunSteps(e, flow, payload, k, p, depth).record;
            record.status != Failed ==> record.result.Some?
    decreases |flow.steps| - k
  {
    if k < |flow.steps| {
      var ran := RunStep(e, flow.steps[k], payload, p, depth);
      StepsDeliver(e, flow, payload, k + 1, ran.progress, depth);
    }
  }

  // Every execution of the flow that does not fail delivers a result with the value.
  ghost predicate Delivers(e: Engine, flow: Flow, tail: seq<string>, strict: bool) {
    forall run {:trigger Ended(e, flow, run)} | Ended(e, flow, run) ::
        LeadsFrom(run.result, tail, strict)
  }

  predicate LeadsFrom(result: Option<Json>, tail: seq<string>, strict: bool) {
    result.Some? && Leads(tail, result.value, strict)
  }

  lemma AttemptFields(record: FlowRecord, index: nat)
    ensures var data := AttemptData(record, index);
            ShownSome(data, "attempt") && ShownSome(data, "status") && Shown(data, "result", record.result)
  {
  }

  lemma FlowFields(record: FlowRecord)
    ensures Shown(FlowData(record), "result", record.result)
    ensures Shown(FlowData(record), "attempts", AttemptsData(record.attempts))
  {
  }

  function FirstEntry(record: FlowRecord): Json {
    if record.attempts == [] then Null else AttemptData(record.attempts[0], 1)
  }

  // A tail of the first attempt's entry.
  lemma AttemptLeads(record: FlowRecord, tail: seq<string>, strict: bool)
    requires record.attempts != []
    ensures Leads(["attempts", "0"] + tail, FlowData(record), strict) == Leads(tail, FirstEntry(record), strict)
  {
    FlowFields(record);
    assert ["attempts", "0"] + tail == ["attempts"] + (["0"] + tail);
    FieldLeads(FlowData(record).fields, "attempts", ["0"] + tail, strict);
    SelectsItem(AttemptsData(record.attempts).value.items, "0");
    assert ParseIndex("0") == 0;
    assert (["0"] + tail)[1..] == tail;
  }

  // The result, and where runs are kept the attempts and the first attempt's number, status
  // and result, need no data.
  lemma RecordFieldsAreSure(e: Engine, plan: Plan, n: string)
    requires n in plan.flows
    ensures RecordSure(e, plan, ["flows", n] + ["result"], false)
    ensures KeepsRuns(plan, n) ==>
              && RecordSure(e, plan, ["flows", n] + ["attempts"], true)
              && RecordSure(e, plan, ["flows", n] + ["attempts", "0"], true)
              && RecordSure(e, plan, ["flows", n] + ["attempts", "0", "attempt"], true)
              && RecordSure(e, plan, ["flows", n] + ["attempts", "0", "status"], true)
              && RecordSure(e, plan, ["flows", n] + ["attempts", "0", "result"], false)
  {
    forall run | Ended(e, plan.At(n), run) ensures LeadsFrom(run.result, [], false) {
      var payload, w, depth: int :|
        Accepted(e, plan.At(n).name, payload) && ExecuteFlow(e, plan.At(n), payload, w, depth).record == run;
      StepsDeliver(e, plan.At(n), payload, 0, Progress(SkippedSteps(plan.At(n).steps), Accounting.NO_USAGE, w), depth);
    }
    assert ["result"] + [] == ["result"] && ["attempts", "0", "result"] + [] == ["attempts", "0", "result"];
    DeliveredIsSure(e, plan, n, [], false);
    if KeepsRuns(plan, n) {
      forall record | FlowLeaves(e, plan, n, record)
        ensures Leads(["attempts"], FlowData(record), true) && Leads(["attempts", "0"], FlowData(record), true)
        ensures Leads(["attempts", "0", "attempt"], FlowData(record), true)
        ensures Leads(["attempts", "0", "status"], FlowData(record), true)
      {
        AttemptEntryLeads(record);
      }
      SureAt(e, plan, n, ["attempts"], true);
      SureAt(e, plan, n, ["attempts", "0"], true);
      SureAt(e, plan, n, ["attempts", "0", "attempt"], true);
      SureAt(e, plan, n, ["attempts", "0", "status"], true);
    }
  }

  lemma AttemptEntryLeads(record: FlowRecord)
    requires record.attempts != []
    ensures Leads(["attempts"], FlowData(record), true) && Leads(["attempts", "0"], FlowData(record), true)
    ensures Leads(["attempts", "0", "attempt"], FlowData(record), true)
    ensures Leads(["attempts", "0", "status"], FlowData(record), true)
  {
    var first := AttemptData(record.attempts[0], 1);
    FlowFields(record);
    AttemptFields(record.attempts[0], 1);
    assert ["attempts"] + [] == ["attempts"] && ["attempts", "0"] + [] == ["attempts", "0"];
    assert ["attempt"] + [] == ["attempt"] && ["status"] + [] == ["status"];
    assert ["attempts", "0"] + ["attempt"] == ["attempts", "0", "attempt"];
    assert ["attempts", "0"] + ["status"] == ["attempts", "0", "status"];
    FieldLeads(FlowData(record).fields, "attempts", [], true);
    AttemptLeads(record, [], true);
    AttemptLeads(record, ["attempt"], true);
    AttemptLeads(record, ["status"], true);
    FieldLeads(first.fields, "attempt", [], true);
    FieldLeads(first.fields, "status", [], true);
  }

  lemma SureAt(e: Engine, plan: Plan, n: string, tail: seq<string>, strict: bool)
    requires forall record {:trigger FlowLeaves(e, plan, n, record)} | FlowLeaves(e, plan, n, record) ::
               Leads(tail, FlowData(record), strict)
    ensures RecordSure(e, plan, ["flows", n] + tail, strict)
  {
    assert (["flows", n] + tail)[2..] == tail && (["flows", n] + tail)[1] == n;
  }

  // Below a result, of the record or of its first attempt: what every execution of the flow
  // delivers that does not fail.
  lemma DeliveredIsSure(e: Engine, plan: Plan, n: string, tail: seq<string>, strict: bool)
    requires n in plan.flows && Delivers(e, plan.At(n), tail, strict)
    ensures RecordSure(e, plan, ["flows", n] + (["result"] + tail), strict)
    ensures KeepsRuns(plan, n) ==> RecordSure(e, plan, ["flows", n] + (["attempts", "0", "result"] + tail), strict)
  {
    forall record | FlowLeaves(e, plan, n, record)
      ensures Leads(["result"] + tail, FlowData(record), strict)
      ensures KeepsRuns(plan, n) ==> Leads(["attempts", "0", "result"] + tail, FlowData(record), strict)
    {
      FlowFields(record);
      if KeepsRuns(plan, n) {
        var first := record.attempts[0];
        assert Ended(e, plan.At(n), first);
        assert Ended(e, plan.At(n), record.attempts[|record.attempts| - 1]);
        assert ["attempts", "0", "result"] + tail == ["attempts", "0"] + (["result"] + tail);
        AttemptLeads(record, ["result"] + tail, strict);
        AttemptFields(first, 1);
        FieldLeads(AttemptData(first, 1).fields, "result", tail, strict);
      }
      FieldLeads(FlowData(record).fields, "result", tail, strict);
    }
    SureAt(e, plan, n, ["result"] + tail, strict);
    if KeepsRuns(plan, n) {
      SureAt(e, plan, n, ["attempts", "0", "result"] + tail, strict);
    }
  }

  // ---- Pointers that ask nothing of the data --------------------------------------------------

  // The whole payload or metadata, a step's record with its status or result, a flow's result.
  predicate Whole(tokens: seq<string>) {
    || tokens == [] || tokens == ["payload"] || tokens == ["metadata"]
    || tokens == ["steps", Second(tokens)] || tokens == ["steps", Second(tokens), "status"]
    || tokens == ["steps", Second(tokens), "result"] || tokens == ["flows", Second(tokens), "result"]
  }

  // Whatever is required in the binding is such a pointer.
  predicate Plain(binding: Binding) {
    match binding
    case Literal(_) => true
    case Pointer(pointer, default) => default.Some? || Whole(Tokens(pointer))
    case FirstOf(_, default) => default.Some?
    case Fields(fields) => forall field | field in fields :: Plain(field.binding)
  }

  lemma WholeIsSure(e: Engine, scope: Scope, site: Site, tokens: seq<string>)
    requires Whole(tokens) && Known(site, tokens) && Available(site, tokens)
    ensures Sure(e, scope, site, tokens, false)
  {
    if Heads(tokens, "steps") {
      forall step | step in site.Steps() && step.name == Second(tokens)
        ensures StepLeadsTo(e, scope, step, site.AtOutput?, After(tokens, 2), false)
      {
        StepFieldsAreSure(e, scope, step, site.AtOutput?);
        assert After(tokens, 2) in {[], ["status"], ["result"]};
        assert step.guard.Some? ==> step.name in ConditionalNames(site.Steps());
      }
    } else if Heads(tokens, "flows") && Second(tokens) in site.Plan().flows {
      RecordFieldsAreSure(e, site.Plan(), Second(tokens));
      assert tokens == ["flows", Second(tokens)] + ["result"];
    }
  }

  // A required plain binding is backed by whatever the executor and the input contracts deliver.
  lemma {:induction false} PlainIsSure(e: Engine, scope: Scope, site: Site, binding: Binding)
    requires Plain(binding) && Required(site, binding)
    ensures DataSure(e, scope, site, binding)
    decreases binding
  {
    match binding
    case Literal(_) =>
    case Pointer(pointer, default) =>
      if default.None? {
        WholeIsSure(e, scope, site, Tokens(pointer));
      }
    case FirstOf(_, _) =>
    case Fields(fields) =>
      forall k | 0 <= k < |fields| ensures DataSure(e, scope, site, fields[k].binding) {
        PlainIsSure(e, scope, site, fields[k].binding);
      }
  }

  predicate PlainAll(pairs: seq<Named>) {
    forall pair | pair in pairs :: Plain(pair.binding)
  }

  lemma PlainIsSureAll(e: Engine, scope: Scope, site: Site, pairs: seq<Named>)
    requires PlainAll(pairs) && RequiredAll(site, pairs)
    ensures DataSureAll(e, scope, site, pairs)
  {
    forall pair | pair in pairs ensures DataSure(e, scope, site, pair.binding) {
      PlainIsSure(e, scope, site, pair.binding);
    }
  }
}
