/**
 What static analysis knows of results: every ledger is valid for the schema of collection
 results, and whatever a flow delivers is covered by its static result.
 */
module StaticResults {
  import opened Foundations
  import opened Json
  import opened Accounting
  import opened Plans
  import opened Records
  import opened Engine
  import opened StaticSchemas
  import opened StaticScopes
  import opened Bindings
  import opened Availability
  import opened Readiness
  import opened Production
  import opened StaticValues
  import opened StaticConditions

  function ListOf(items: Schema): Schema {
    Node(None, Some(OneType(KArray)), None, None, None, None, false, false, None, false, None, None, Some(items), None)
  }

  const STOPS: seq<string> := ["until", "exhausted", "continue_when", "review", "failure"]

  const REPEAT := Node(None, Some(OneType(KObject)), None, None, None, None, false, false,
                       Some(map["stopped_by" := OneOfTexts(STOPS)]), false, None, None, None, None)

  // The fields of one item's entry; child results keep their own types.
  const ENTRY: map<string, Schema> := map[
    "id" := Typed(KString), "flow" := Typed(KString), "status" := Typed(KString), "steps" := Typed(KObject),
    "result" := OPEN, "usage" := Typed(KObject), "elapsed_seconds" := Typed(KNumber), "error" := Typed(KObject),
    "attempt_count" := Typed(KInteger), "attempts" := Typed(KArray), "attempts_usage" := Typed(KObject),
    "attempts_elapsed_seconds" := Typed(KNumber), "repeat" := REPEAT, "retry" := Typed(KObject)]

  // `collection_result_schema`.
  const LEDGER := Record(map["items" := ListOf(Record(ENTRY))])

  // ---- One entry -------------------------------------------------------------------------

  // The facts about the entry's table that its proofs use.
  predicate Listed(entry: map<string, Schema>, key: string, schema: Schema) {
    key in entry && entry[key] == schema
  }

  predicate RunListed(entry: map<string, Schema>) {
    && Listed(entry, "status", Typed(KString)) && Listed(entry, "result", OPEN)
       && Listed(entry, "usage", Typed(KObject))
    && Listed(entry, "error", Typed(KObject)) && Listed(entry, "steps", Typed(KObject))
  }

  predicate FlowListed(entry: map<string, Schema>) {
    && Listed(entry, "attempt_count", Typed(KInteger)) && Listed(entry, "attempts", Typed(KArray))
    && Listed(entry, "attempts_usage", Typed(KObject)) && Listed(entry, "repeat", REPEAT)
  }

  predicate ItemListed(entry: map<string, Schema>) {
    Listed(entry, "id", Typed(KString)) && Listed(entry, "flow", Typed(KString))
        && Listed(entry, "retry", Typed(KObject))
  }

  lemma EntryListed()
    ensures RunListed(ENTRY) && FlowListed(ENTRY) && ItemListed(ENTRY)
  {
  }

  ghost predicate EntryFields(links: Links, home: string, entry: map<string, Schema>, fields: Object) {
    FieldsValid(links, home, entry, fields)
  }

  lemma Joined(links: Links, home: string, entry: map<string, Schema>, one: Object, other: Object)
    requires EntryFields(links, home, entry, one) && EntryFields(links, home, entry, other)
    ensures EntryFields(links, home, entry, one + other)
  {
  }

  lemma OneField(links: Links, home: string, entry: map<string, Schema>, key: string, value: Option<Json>)
    requires value.Some? ==> key in entry && Valid(links, View(entry[key], home), value.value)
    ensures EntryFields(links, home, entry, Optional(key, value))
  {
  }

  // A field that may be absent and otherwise has its declared type.
  lemma TypedField(links: Links, home: string, entry: map<string, Schema>, key: string, kind: Kind, value: Option<Json>)
    requires Listed(entry, key, Typed(kind)) && (value.Some? ==> OfKind(kind, value.value))
    ensures EntryFields(links, home, entry, Optional(key, value))
  {
    OneField(links, home, entry, key, value);
  }

  lemma ObjectField(links: Links, home: string, entry: map<string, Schema>, key: string, value: Option<Json>)
    requires Listed(entry, key, Typed(KObject)) && (value.Some? ==> value.value.Obj?)
    ensures EntryFields(links, home, entry, Optional(key, value))
  {
    TypedField(links, home, entry, key, KObject, value);
  }

  lemma ListField(links: Links, home: string, entry: map<string, Schema>, key: string, value: Option<Json>)
    requires Listed(entry, key, Typed(KArray)) && (value.Some? ==> value.value.Arr?)
    ensures EntryFields(links, home, entry, Optional(key, value))
  {
    TypedField(links, home, entry, key, KArray, value);
  }

  lemma UsageIsObject(value: Option<Json>, record: FlowRecord)
    requires value == (if record.attempts == [] then None else UsageValue(record.TotalUsage()))
    ensures value.Some? ==> value.value.Obj?
  {
  }

  lemma RunEntry(links: Links, home: string, entry: map<string, Schema>, record: FlowRecord)
    requires RunListed(entry)
    ensures EntryFields(links, home, entry, RunFields(record))
  {
    var status := Some(Str(StatusText(record.status)));
    var steps := Some(Obj(map n | n in record.steps :: StepValue(record.steps[n])));
    TypedField(links, home, entry, "status", KString, status);
    if record.result.Some? {
      OpenIsValid(links, home, record.result.value);
    }
    OneField(links, home, entry, "result", record.result);
    TypedField(links, home, entry, "usage", KObject, UsageValue(record.usage));
    TypedField(links, home, entry, "error", KObject, ErrorValue(record.error));
    TypedField(links, home, entry, "steps", KObject, steps);
    RunParts(links, home, entry, record, Optional("status", status), Optional("steps", steps));
  }

  lemma RunParts(links: Links, home: string, entry: map<string, Schema>, record: FlowRecord, head: Object, tail: Object)
    requires head == map["status" := Str(StatusText(record.status))]
    requires tail == map["steps" := Obj(map n | n in record.steps :: StepValue(record.steps[n]))]
    requires EntryFields(links, home, entry, head) && EntryFields(links, home, entry, tail)
    requires EntryFields(links, home, entry, Optional("result", record.result))
    requires EntryFields(links, home, entry, Optional("usage", UsageValue(record.usage)))
    requires EntryFields(links, home, entry, Optional("error", ErrorValue(record.error)))
    ensures EntryFields(links, home, entry, RunFields(record))
  {
    var f1 := head + Optional("result", record.result);
    Joined(links, home, entry, head, Optional("result", record.result));
    var f2 := f1 + Optional("usage", UsageValue(record.usage));
    Joined(links, home, entry, f1, Optional("usage", UsageValue(record.usage)));
    var f3 := f2 + Optional("error", ErrorValue(record.error));
    Joined(links, home, entry, f2, Optional("error", ErrorValue(record.error)));
    Joined(links, home, entry, f3, tail);
  }

  function RepeatValue(stop: Option<Stop>): Option<Json> {
    if stop.None? then None else Some(Obj(map["stopped_by" := Str(StopText(stop.value))]))
  }

  lemma RepeatValid(links: Links, home: string, entry: map<string, Schema>, stop: Option<Stop>)
    requires Listed(entry, "repeat", REPEAT)
    ensures EntryFields(links, home, entry, Optional("repeat", RepeatValue(stop)))
  {
    if stop.Some? {
      var k := match stop.value case ByUntil => 0 case ByExhaustion => 1 case ByContinueWhen => 2 case ByReview =>
          3 case ByFailure => 4;
      assert StopText(stop.value) == STOPS[k];
      TextsValid(links, home, STOPS, k);
      var value := RepeatValue(stop).value;
      assert OfKind(KObject, value);
      assert Valid(links, View(REPEAT, home), value);
    }
    OneField(links, home, entry, "repeat", RepeatValue(stop));
  }

  lemma JoinedFour(links: Links, home: string, entry: map<string, Schema>, a: Object, b: Object, c: Object, d: Object)
    requires EntryFields(links, home, entry, a) && EntryFields(links, home, entry, b)
    requires EntryFields(links, home, entry, c) && EntryFields(links, home, entry, d)
    ensures EntryFields(links, home, entry, a + b + c + d)
  {
    Joined(links, home, entry, a, b);
    Joined(links, home, entry, a + b, c);
    Joined(links, home, entry, a + b + c, d);
  }

  lemma CountEntry(links: Links, home: string, entry: map<string, Schema>, record: FlowRecord)
    requires RunListed(entry) && FlowListed(entry)
    ensures EntryFields(links, home, entry, RunFields(record) + map["attempt_count" := Int(record.AttemptCount())])
  {
    var count := Some(Int(record.AttemptCount()));
    RunEntry(links, home, entry, record);
    assert OfKind(KInteger, count.value);
    TypedField(links, home, entry, "attempt_count", KInteger, count);
    Joined(links, home, entry, RunFields(record), Optional("attempt_count", count));
  }

  lemma FlowEntry(links: Links, home: string, entry: map<string, Schema>, record: FlowRecord)
    requires RunListed(entry) && FlowListed(entry)
    ensures EntryFields(links, home, entry, FlowFields(record))
  {
    var usage := if record.attempts == [] then None else UsageValue(record.TotalUsage());
    var head := RunFields(record) + map["attempt_count" := Int(record.AttemptCount())];
    CountEntry(links, home, entry, record);
    ListField(links, home, entry, "attempts", AttemptsValue(record.attempts));
    UsageIsObject(usage, record);
    ObjectField(links, home, entry, "attempts_usage", usage);
    RepeatValid(links, home, entry, record.stoppedBy);
    JoinedFour(links, home, entry, head, Optional("attempts", AttemptsValue(record.attempts)),
               Optional("attempts_usage", usage), Optional("repeat", RepeatValue(record.stoppedBy)));
  }

  lemma NameEntry(links: Links, home: string, entry: map<string, Schema>, id: string, flow: string)
    requires ItemListed(entry)
    ensures EntryFields(links, home, entry, map["id" := Str(id), "flow" := Str(flow)])
  {
    TextValid(links, home, id);
    TextValid(links, home, flow);
  }

  lemma EntryValid(links: Links, home: string, entry: map<string, Schema>, id: string, flow: string, record: FlowRecord,
                   retry: Option<FlowRecord>)
    requires RunListed(entry) && FlowListed(entry) && ItemListed(entry)
    ensures Valid(links, View(Record(entry), home), ItemEntry(id, flow, record, retry))
  {
    var names: Object := map["id" := Str(id), "flow" := Str(flow)];
    var again := if retry.None? then None else Some(Obj(FlowFields(retry.value)));
    NameEntry(links, home, entry, id, flow);
    FlowEntry(links, home, entry, record);
    ObjectField(links, home, entry, "retry", again);
    JoinedThree(links, home, entry, names, FlowFields(record), Optional("retry", again));
    FieldsMakeRecord(links, home, entry, names + FlowFields(record) + Optional("retry", again));
  }

  lemma JoinedThree(links: Links, home: string, entry: map<string, Schema>, a: Object, b: Object, c: Object)
    requires EntryFields(links, home, entry, a) && EntryFields(links, home, entry, b)
             && EntryFields(links, home, entry, c)
    ensures EntryFields(links, home, entry, a + b + c)
  {
    Joined(links, home, entry, a, b);
    Joined(links, home, entry, a + b, c);
  }

  // ---- The ledger ----------------------------------------------------------------------------

  // Every ledger is valid against the collection result schema, whatever its items did.
  lemma LedgerValid(links: Links, home: string, entries: seq<Entry>)
    ensures Valid(links, View(LEDGER, home), Ledger(entries))
  {
    var ledger := Ledger(entries);
    var list := ledger.fields["items"];
    forall k | 0 <= k < |list.items| ensures Valid(links, View(Record(ENTRY), home), list.items[k]) {
      EntryListed();
      EntryValid(links, home, ENTRY, entries[k].item.id, entries[k].item.flow, entries[k].record, entries[k].retry);
    }
    assert OfKind(KArray, list);
    assert Valid(links, View(ListOf(Record(ENTRY)), home), list);
    RecordValid(links, home, map["items" := ListOf(Record(ENTRY))], ledger.fields);
  }

  // The schemas of a workflow: its payload's, the declared flow inputs' and step results'.
  datatype Catalog = Catalog(links: Links, payload: View, inputs: map<string, View>,
                             results: map<(string, string), View>)

  // `FlowScope.step_result`.
  function StepResult(c: Catalog, flow: Flow, step: Step): View {
    if step.Collection? then View(LEDGER, "")
    else if (flow.name, step.name) in c.results then c.results[(flow.name, step.name)]
    else View(OPEN, "")
  }

  function InputView(c: Catalog, name: string, otherwise: Schema): View {
    if name in c.inputs then c.inputs[name] else View(otherwise, "")
  }

  function ScopeInside(c: Catalog, flow: Flow): FlowScope {
    FlowScope(flow.steps, InputView(c, flow.name, OPEN),
              map n | n in Names(flow.steps) && StepNamed(flow.steps, n).Some? ::
                StepResult(c, flow, StepNamed(flow.steps, n).value))
  }

  // `WorkflowScope.flow_result`, before any flow is known to have completed.
  function FlowResult(c: Catalog, flow: Flow): Static {
    if flow.output.None? then Of(Schematic(InputView(c, flow.name, Typed(KObject))))
    else BindingStatic(c.links, flow.output.value, FlowResolver(c.links, ScopeInside(c, flow)))
  }

  // ---- What validators and adapters promise -------------------------------------------

  // Accepted inputs are valid, and executors return results of their steps' schemas.
  ghost predicate StepConforms(e: Engine, c: Catalog, flow: Flow, step: Step) {
    step.Operation? ==>
      forall tick, inputs {:trigger e.execute(tick, step, inputs)} ::
        ReplyConforms(c, flow, step, e.execute(tick, step, inputs).reply)
  }

  ghost predicate ReplyConforms(c: Catalog, flow: Flow, step: Step, reply: Reply) {
    match reply
    case Returned(outcome) =>
      Valid(c.links, StepResult(c, flow, step), outcome.result) && MayChoose(step, outcome.selection)
    case _ => true
  }

  predicate MayChoose(step: Step, selection: Option<Selection>) {
    match selection
    case None => true
    case Some(chosen) => Chooses(step, chosen)
  }

  ghost predicate InputConforms(e: Engine, c: Catalog, name: string) {
    name in c.inputs ==>
      forall payload {:trigger Accepted(e, name, payload)} | Accepted(e, name, payload) ::
          Valid(c.links, InputView(c, name, OPEN), payload)
  }

  ghost predicate FlowConforms(e: Engine, c: Catalog, flow: Flow) {
    && InputConforms(e, c, flow.name)
    && forall step | step in flow.steps :: StepConforms(e, c, flow, step)
  }

  ghost predicate OutputReadable(flow: Flow) {
    match flow.output
    case None => true
    case Some(output) => Authored(output) && NarrowBinding(output)
  }

  // ---- Results are covered ----------------------------------------------------------------

  lemma SuppliedValid(e: Engine, c: Catalog, flow: Flow, step: Step, value: Json, selection: Option<Selection>)
    requires Supplied(e, step, value, selection) && StepConforms(e, c, flow, step)
    ensures Valid(c.links, StepResult(c, flow, step), value)
    ensures MayChoose(step, selection)
  {
    if step.Collection? {
      var entries :| IsLedger(entries, value);
      LedgerValid(c.links, "", entries);
    } else {
      var tick, inputs :| Supplies(e.execute(tick, step, inputs).reply, value, selection);
    }
  }

  lemma {:induction false} StepFound(steps: seq<Step>, n: string)
    requires n in Names(steps)
    ensures StepNamed(steps, n).Some?
    ensures exists j :: 0 <= j < |steps| && steps[j] == StepNamed(steps, n).value && steps[j].name == n
  {
    var k :| 0 <= k < |steps| && steps[k].name == n;
    var last, rest := steps[|steps| - 1], steps[..|steps| - 1];
    if last.name != n {
      assert rest[k].name == n;
      StepFound(rest, n);
      var j :| 0 <= j < |rest| && rest[j] == StepNamed(rest, n).value && rest[j].name == n;
      assert steps[j] == rest[j];
    }
  }

  lemma ProducedFits(e: Engine, c: Catalog, flow: Flow, records: StepRecords)
    requires StepsProduced(e, flow.steps, records) && FlowConforms(e, c, flow)
    ensures RecordsFit(c.links, ScopeInside(c, flow), records)
  {
    var scope := ScopeInside(c, flow);
    forall n | n in records ensures RecordFits(c.links, scope, n, records[n]) {
      assert n in Names(flow.steps);
      StepFound(flow.steps, n);
      var j :| 0 <= j < |flow.steps| && flow.steps[j] == StepNamed(flow.steps, n).value && flow.steps[j].name == n;
      assert StepProduced(e, flow.steps[j], records);
      if records[n].result.Some? {
        SuppliedValid(e, c, flow, flow.steps[j], records[n].result.value, records[n].selection);
      }
    }
  }

  lemma InputFits(e: Engine, c: Catalog, name: string, payload: Json, otherwise: Schema)
    requires Accepted(e, name, payload) && InputConforms(e, c, name)
             && (otherwise == OPEN || otherwise == Typed(KObject))
    ensures Valid(c.links, InputView(c, name, otherwise), payload)
  {
    if name !in c.inputs {
      OpenIsValid(c.links, "", payload);
      assert OfKind(KObject, payload);
    }
  }

  // Whatever a flow delivers, by its projected output or its payload, is covered by its
  // static result.
  lemma DeliveredCovered(e: Engine, c: Catalog, flow: Flow, value: Json)
    requires Delivered(e, flow, value) && FlowConforms(e, c, flow) && OutputReadable(flow)
    ensures Covers(c.links, FlowResult(c, flow), value)
  {
    if flow.output.None? {
      InputFits(e, c, flow.name, value, Typed(KObject));
      ViewCovers(c.links, InputView(c, flow.name, Typed(KObject)), value);
    } else {
      var payload, records :| IsProjection(e, flow, flow.output.value, payload, records, value);
      var scope := ScopeInside(c, flow);
      InputFits(e, c, flow.name, payload, OPEN);
      ProducedFits(e, c, flow, records);
      FlowScopeFits(c.links, scope, payload, e.metadata, records);
      BindingCovers(c.links, flow.output.value, FlowResolver(c.links, scope),
                    FlowContext(payload, e.metadata, records));
    }
  }

  // ---- At the workflow boundary --------------------------------------------------------------

  function BoundaryScope(c: Catalog, plan: Plan): WorkflowScope {
    WorkflowScope(c.payload, map n | n in plan.flows :: FlowResult(c, plan.At(n)))
  }

  function BoundaryResolver(c: Catalog, plan: Plan): Resolver {
    WorkflowResolver(c.links, BoundaryScope(c, plan))
  }

  ghost predicate Conforms(e: Engine, c: Catalog) {
    forall n {:trigger e.plan.At(n)} | n in e.plan.flows ::
      FlowConforms(e, c, e.plan.At(n)) && OutputReadable(e.plan.At(n))
  }

  lemma MadeFits(e: Engine, c: Catalog, flow: Flow, record: FlowRecord)
    requires RecordMade(e, flow, record) && FlowConforms(e, c, flow) && OutputReadable(flow)
    ensures FlowRecordFits(c.links, FlowResult(c, flow), record)
  {
    if record.result.Some? {
      DeliveredCovered(e, c, flow, record.result.value);
    }
    forall k | 0 <= k < |record.attempts| ensures ResultFits(c.links, FlowResult(c, flow), record.attempts[k].result) {
      assert Made(e, flow, record.attempts[k]);
      if record.attempts[k].result.Some? {
        DeliveredCovered(e, c, flow, record.attempts[k].result.value);
      }
    }
  }

  // Every boundary of a run sees a context its static scope covers.
  lemma BoundaryCovered(e: Engine, c: Catalog, payload: Json, records: FlowRecords)
    requires AllMade(e, records) && Conforms(e, c) && Valid(c.links, c.payload, payload)
    ensures Fitting(c.links, BoundaryResolver(c, e.plan), WorkflowContext(payload, e.metadata, records))
  {
    var scope := BoundaryScope(c, e.plan);
    forall n | n in records && n in scope.results ensures FlowRecordFits(c.links, scope.results[n], records[n]) {
      assert MadeAt(e, records, n);
      MadeFits(e, c, e.plan.At(n), records[n]);
    }
    WorkflowScopeFits(c.links, scope, payload, e.metadata, records);
  }
}
