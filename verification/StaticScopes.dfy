/** The static scopes of flows and of the workflow boundary cover the contexts of a run. */
module StaticScopes {
  import opened Foundations
  import opened Json
  import opened JsonEquality
  import opened Pointers
  import opened Plans
  import opened Records
  import opened StaticSchemas
  import opened StaticValues
  import opened StaticConditions

  // ---- Known record shapes ------------------------------------------------------------

  function Typed(kind: Kind): Schema {
    Node(None, Some(OneType(kind)), None, None, None, None, false, false, None, false, None, None, None, None)
  }

  function OneOfTexts(texts: seq<string>): Schema {
    var values := seq(|texts|, k requires 0 <= k < |texts| => Str(texts[k]));
    Node(None, Some(OneType(KString)), None, Some(values), None, None, false, false, None, false, None, None, None,
         None)
  }

  function OnlyText(text: string): Schema {
    Node(None, None, Some(Str(text)), None, None, None, false, false, None, false, None, None, None, None)
  }

  // An object with exactly these optional properties.
  function Record(properties: map<string, Schema>): Schema {
    Node(None, Some(OneType(KObject)), None, None, None, None, false, false, Some(properties), false, Some(Never), None,
         None, None)
  }

  const STATUSES: seq<string> := ["completed", "needs_review", "failed", "cancelled", "skipped"]

  // `_selection_schema`: the category ids of a single-choice decision are enumerated.
  function CategorySchema(ids: Option<seq<string>>): Schema {
    Record(map["id" := if ids.Some? then OneOfTexts(ids.value) else Typed(KString), "description" := Typed(KString)])
  }

  function SelectionSchema(ids: Option<seq<string>>): Schema {
    Record(map["origin" := OneOfTexts(["model", "fallback"]), "category" := CategorySchema(ids)])
  }

  // The steps whose record has a selection property.
  predicate SelectsOne(step: Step) {
    step.Operation? && (step.kind == Handler || (step.kind.Decision? && step.kind.categories.Some?))
  }

  function Categories(step: Step): Option<seq<string>> {
    if step.Operation? && step.kind.Decision? then step.kind.categories else None
  }

  const ERROR := Record(map["code" := Typed(KString), "message" := Typed(KString), "retryable" := Typed(KBoolean)])

  predicate AllowedFields(properties: map<string, Schema>, fields: Object) {
    fields.Keys <= properties.Keys
  }

  // A record is valid when every field it has is.
  lemma RecordValid(links: Links, home: string, properties: map<string, Schema>, fields: Object)
    requires AllowedFields(properties, fields)
    requires forall name | name in fields :: Valid(links, View(properties[name], home), fields[name])
    ensures Valid(links, View(Record(properties), home), Obj(fields))
  {
    assert OfKind(KObject, Obj(fields));
  }

  lemma TextValid(links: Links, home: string, text: string)
    ensures Valid(links, View(Typed(KString), home), Str(text))
  {
    assert OfKind(KString, Str(text));
  }

  lemma TextsValid(links: Links, home: string, texts: seq<string>, k: nat)
    requires k < |texts|
    ensures Valid(links, View(OneOfTexts(texts), home), Str(texts[k]))
  {
    var schema := OneOfTexts(texts);
    assert OfKind(KString, Str(texts[k]));
    assert JsonEqual(schema.enum_.value[k], Str(texts[k]));
  }

  lemma StatusValid(links: Links, home: string, status: Status)
    ensures Valid(links, View(OneOfTexts(STATUSES), home), Str(StatusText(status)))
  {
    var k := match status case Completed => 0 case NeedsReview => 1 case Failed => 2 case Skipped => 4;
    assert StatusText(status) == STATUSES[k];
    TextsValid(links, home, STATUSES, k);
  }

  lemma OptionalField(fields: Object, key: string, value: Option<Json>)
    ensures (fields + Optional(key, value)).Keys == fields.Keys + (if value.Some? then {key} else {})
    ensures forall name | name in fields + Optional(key, value) ::
              (fields + Optional(key, value))[name] == (if value.Some? && name == key then value.value
                                                        else fields[name])
  {
  }

  lemma CategoryValid(links: Links, home: string, ids: Option<seq<string>>, category: Category)
    requires ids.Some? ==> category.id in ids.value
    ensures var description := if category.description.Some? then Some(Str(category.description.value)) else None;
            Valid(links, View(CategorySchema(ids), home),
                  Obj(map["id" := Str(category.id)] + Optional("description", description)))
  {
    var description := if category.description.Some? then Some(Str(category.description.value)) else None;
    var base: Object := map["id" := Str(category.id)];
    OptionalField(base, "description", description);
    if ids.Some? {
      var k :| 0 <= k < |ids.value| && ids.value[k] == category.id;
      TextsValid(links, home, ids.value, k);
    } else {
      TextValid(links, home, category.id);
    }
    if category.description.Some? {
      TextValid(links, home, category.description.value);
    }
    RecordValid(links, home,
                map["id" := if ids.Some? then OneOfTexts(ids.value)
                    else Typed(KString), "description" := Typed(KString)],
                base + Optional("description", description));
  }

  lemma SelectionValid(links: Links, home: string, ids: Option<seq<string>>, selection: Selection)
    requires ids.Some? ==> selection.category.id in ids.value
    ensures Valid(links, View(SelectionSchema(ids), home), SelectionValue(Some(selection)).value)
  {
    CategoryValid(links, home, ids, selection.category);
    TextsValid(links, home, ["model", "fallback"], if selection.origin == FromModel then 0 else 1);
    RecordValid(links, home,
                map["origin" := OneOfTexts(["model", "fallback"]), "category" := CategorySchema(ids)],
                SelectionValue(Some(selection)).value.fields);
  }

  // Every field is a known property with a valid value.
  ghost predicate FieldsValid(links: Links, home: string, properties: map<string, Schema>, fields: Object) {
    forall name | name in fields :: name in properties && Valid(links, View(properties[name], home), fields[name])
  }

  lemma FieldAdded(links: Links, home: string, properties: map<string, Schema>, fields: Object, key: string,
                   value: Option<Json>)
    requires FieldsValid(links, home, properties, fields)
    requires value.Some? ==> key in properties && Valid(links, View(properties[key], home), value.value)
    ensures FieldsValid(links, home, properties, fields + Optional(key, value))
  {
    OptionalField(fields, key, value);
  }

  lemma FieldsMakeRecord(links: Links, home: string, properties: map<string, Schema>, fields: Object)
    requires FieldsValid(links, home, properties, fields)
    ensures Valid(links, View(Record(properties), home), Obj(fields))
  {
    RecordValid(links, home, properties, fields);
  }

  // Step record fields a later binding can read: error and partial_result exist only on
  // failure, which stops the flow.
  function StepProperties(step: Step): map<string, Schema> {
    map["status" := OneOfTexts(STATUSES), "result" := OPEN]
    + (if step.Collection? then map["kind" := OnlyText("flow_collection")] else map[])
    + if SelectsOne(step) then map["selection" := SelectionSchema(Categories(step))] else map[]
  }

  predicate KnownProperties(properties: map<string, Schema>, step: Step) {
    && "status" in properties && properties["status"] == OneOfTexts(STATUSES)
    && "result" in properties && properties["result"] == OPEN
    && (step.Collection? ==> "kind" in properties && properties["kind"] == OnlyText("flow_collection"))
    && (SelectsOne(step) ==>
          "selection" in properties && properties["selection"] == SelectionSchema(Categories(step)))
  }

  lemma StepPropertiesKnown(step: Step)
    ensures KnownProperties(StepProperties(step), step)
  {
  }

  function ResultFields(record: StepRecord): Object {
    map["status" := Str(StatusText(record.status))] + Optional("result", record.result)
  }

  function KindFields(record: StepRecord): Object {
    ResultFields(record) + Optional("kind", KindValue(record.collection))
  }

  function CleanFields(record: StepRecord): Object {
    KindFields(record) + Optional("selection", SelectionValue(record.selection))
  }

  lemma ResultFieldsValid(links: Links, home: string, properties: map<string, Schema>, step: Step, record: StepRecord)
    requires KnownProperties(properties, step)
    ensures FieldsValid(links, home, properties, ResultFields(record))
  {
    StatusValid(links, home, record.status);
    if record.result.Some? {
      OpenIsValid(links, home, record.result.value);
    }
    FieldAdded(links, home, properties, map["status" := Str(StatusText(record.status))], "result", record.result);
  }

  lemma KindFieldsValid(links: Links, home: string, properties: map<string, Schema>, step: Step, record: StepRecord)
    requires KnownProperties(properties, step) && record.collection == step.Collection?
    ensures FieldsValid(links, home, properties, KindFields(record))
  {
    ResultFieldsValid(links, home, properties, step, record);
    assert Valid(links, View(OnlyText("flow_collection"), home), Str("flow_collection"));
    FieldAdded(links, home, properties, ResultFields(record), "kind", KindValue(record.collection));
  }

  lemma CleanFieldsValid(links: Links, home: string, properties: map<string, Schema>, step: Step, record: StepRecord)
    requires KnownProperties(properties, step) && Clean(step, record) && Choosing(step, record)
    ensures FieldsValid(links, home, properties, CleanFields(record))
  {
    KindFieldsValid(links, home, properties, step, record);
    if record.selection.Some? {
      SelectionValid(links, home, Categories(step), record.selection.value);
    }
    FieldAdded(links, home, properties, KindFields(record), "selection", SelectionValue(record.selection));
  }

  lemma CleanData(step: Step, record: StepRecord)
    requires Clean(step, record)
    ensures StepData(record) == Obj(CleanFields(record))
  {
    assert CleanFields(record) + map[] + map[] == CleanFields(record);
  }

  // The selection is one the step's adapter reports.
  predicate Choosing(step: Step, record: StepRecord) {
    record.selection.Some? ==> Chooses(step, record.selection.value)
  }

  lemma StepRecordValid(links: Links, home: string, step: Step, record: StepRecord)
    requires Clean(step, record) && Choosing(step, record)
    ensures Valid(links, View(Record(StepProperties(step)), home), StepData(record))
  {
    StepPropertiesKnown(step);
    CleanFieldsValid(links, home, StepProperties(step), step, record);
    FieldsMakeRecord(links, home, StepProperties(step), CleanFields(record));
    CleanData(step, record);
  }

  // ---- Inside a flow --------------------------------------------------------------------

  // The views of a flow's payload and step results.
  datatype FlowScope = FlowScope(steps: seq<Step>, payload: View, results: map<string, View>)

  function StepNamed(steps: seq<Step>, name: string): Option<Step> {
    if steps == [] then None
    else if steps[|steps| - 1].name == name then Some(steps[|steps| - 1])
    else StepNamed(steps[..|steps| - 1], name)
  }

  function Root(schema: Schema): Static {
    Of(Schematic(View(schema, "")))
  }

  // The view that says nothing.
  const ANYTHING := View(OPEN, "")

  lemma Unsplit(links: Links, view: View)
    requires Expand(links, view, 0) == [view]
    ensures Alternatives(links, [Schematic(view)]) == [Schematic(view)]
  {
    assert [Schematic(view)][..0] == [];
    assert Schemas([view]) == [Schematic(view)];
  }

  // A view that is not split, and its child.
  lemma ViewBelow(links: Links, view: View, child: View, token: string)
    requires Expand(links, view, 0) == [view] && Child(links, view, token) == Some(child)
    ensures Below(links, Of(Schematic(view)), token) == Of(Schematic(child))
  {
    Unsplit(links, view);
    var children := ChildrenOf(links, [Schematic(view)], token);
    assert children == [Of(Schematic(child))] && children[..0] == [];
    assert UnionFrom([]) == Static([], false, false) && [] + [Schematic(child)] == [Schematic(child)];
    assert UnionFrom(children) == Of(Schematic(child));
  }

  lemma OpenBelow(links: Links, token: string)
    ensures Below(links, Root(OPEN), token) == Root(OPEN)
  {
    assert Resolved(links, ANYTHING) == ANYTHING && Expand(links, ANYTHING, 0) == [ANYTHING];
    ViewBelow(links, ANYTHING, ANYTHING, token);
  }

  // Below a view that says nothing every path stays open.
  lemma {:induction false} OpenPath(links: Links, tokens: seq<string>)
    ensures PointerFrom(links, Root(OPEN), tokens) == Root(OPEN)
    decreases |tokens|
  {
    if tokens != [] {
      OpenBelow(links, tokens[0]);
      OpenPath(links, tokens[1..]);
    }
  }

  // `FlowScope.__call__`.
  function FlowStatic(links: Links, scope: FlowScope, pointer: string): Static {
    var parts := Tokens(pointer);
    if parts == [] then Root(Typed(KObject))
    else if parts[0] == "payload" then PointerFrom(links, Of(Schematic(scope.payload)), parts[1..])
    else if parts[0] == "metadata" then PointerFrom(links, Root(Typed(KObject)), parts[1..])
    else if parts[0] == "steps" then
      if |parts| == 1 then Root(Typed(KObject))
      else
        var step := StepNamed(scope.steps, parts[1]);
        if step.None? then Static([], true, false)
        else if |parts| >= 3 && parts[2] == "result" && parts[1] in scope.results
        then PointerFrom(links, Of(Schematic(scope.results[parts[1]])), parts[3..])
        else PointerFrom(links, Root(Record(StepProperties(step.value))), parts[2..])
    else Root(OPEN)
  }

  function FlowResolver(links: Links, scope: FlowScope): Resolver {
    pointer => FlowStatic(links, scope, pointer)
  }

  // The steps' records as the schemas describe them.
  ghost predicate RecordFits(links: Links, scope: FlowScope, name: string, record: StepRecord) {
    && StepNamed(scope.steps, name).Some? && Clean(StepNamed(scope.steps, name).value, record)
    && Choosing(StepNamed(scope.steps, name).value, record)
    && (record.result.Some? && name in scope.results ==> Valid(links, scope.results[name], record.result.value))
  }

  ghost predicate RecordsFit(links: Links, scope: FlowScope, records: StepRecords) {
    forall n {:trigger RecordFits(links, scope, n, records[n])} | n in records ::
        RecordFits(links, scope, n, records[n])
  }

  lemma RootCovers(links: Links, schema: Schema, value: Json)
    requires Valid(links, View(schema, ""), value)
    ensures Covers(links, Root(schema), value)
  {
    assert CoversOne(links, Root(schema).alternatives[0], value);
  }

  lemma ViewCovers(links: Links, view: View, value: Json)
    requires Valid(links, view, value)
    ensures Covers(links, Of(Schematic(view)), value)
  {
    assert CoversOne(links, Of(Schematic(view)).alternatives[0], value);
  }

  lemma ObjectCovered(links: Links, value: Json)
    requires value.Obj?
    ensures Covers(links, Root(Typed(KObject)), value)
  {
    assert OfKind(KObject, value);
    RootCovers(links, Typed(KObject), value);
  }

  lemma OpenCovers(links: Links, value: Json)
    ensures Covers(links, Root(OPEN), value)
  {
    OpenIsValid(links, "", value);
    RootCovers(links, OPEN, value);
  }

  // What a pointer finds in one step's record.
  lemma StepFits(links: Links, scope: FlowScope, name: string, record: StepRecord, tail: seq<string>)
    requires RecordFits(links, scope, name, record) && AllNarrow(tail)
    ensures var found := Walk(tail, StepData(record));
            var step := StepNamed(scope.steps, name).value;
            found.Some? ==>
              && Covers(links, PointerFrom(links, Root(Record(StepProperties(step))), tail), found.value)
              && (tail != [] && tail[0] == "result" && name in scope.results ==>
                    Covers(links, PointerFrom(links, Of(Schematic(scope.results[name])), tail[1..]), found.value))
  {
    var step := StepNamed(scope.steps, name).value;
    StepRecordValid(links, "", step, record);
    RootCovers(links, Record(StepProperties(step)), StepData(record));
    PointerCovers(links, Root(Record(StepProperties(step))), StepData(record), tail);
    if tail != [] && tail[0] == "result" && name in scope.results && Walk(tail, StepData(record)).Some? {
      CleanData(step, record);
      WalkInto(tail, CleanFields(record));
      ResultSelected(record);
      ViewCovers(links, scope.results[name], record.result.value);
      PointerCovers(links, Of(Schematic(scope.results[name])), record.result.value, tail[1..]);
    }
  }

  lemma ResultSelected(record: StepRecord)
    requires "result" in CleanFields(record)
    ensures record.result.Some? && CleanFields(record)["result"] == record.result.value
  {
  }

  // The step's part of a flow pointer.
  lemma StepsFit(links: Links, scope: FlowScope, records: StepRecords, pointer: string, payload: Json, metadata: Object)
    requires RecordsFit(links, scope, records) && NarrowPointer(pointer)
    requires Tokens(pointer) != [] && Tokens(pointer)[0] == "steps"
    ensures var found := Walk(Tokens(pointer), FlowContext(payload, metadata, records));
            found.Some? ==> Covers(links, FlowStatic(links, scope, pointer), found.value)
  {
    var parts := Tokens(pointer);
    var table := map n | n in records :: StepData(records[n]);
    WalkInto(parts, FlowContext(payload, metadata, records).fields);
    if |parts| == 1 {
      ObjectCovered(links, Obj(table));
    } else {
      WalkInto(parts[1..], table);
      assert parts[1..][1..] == parts[2..];
      if parts[1] in records {
        assert RecordFits(links, scope, parts[1], records[parts[1]]);
        StepFits(links, scope, parts[1], records[parts[1]], parts[2..]);
        assert |parts| >= 3 ==> parts[2..][1..] == parts[3..] && parts[2..][0] == parts[2];
      }
    }
  }

  lemma HeadFits(links: Links, view: View, value: Json, tail: seq<string>)
    requires Valid(links, view, value) && AllNarrow(tail)
    ensures var found := Walk(tail, value); found.Some? ==>
              Covers(links, PointerFrom(links, Of(Schematic(view)), tail), found.value)
  {
    ViewCovers(links, view, value);
    PointerCovers(links, Of(Schematic(view)), value, tail);
  }

  // The parts of a pointer both scopes share: payload, metadata, and the rest unknown.
  lemma SharedFits(links: Links, view: View, payload: Json, metadata: Object, context: Object, parts: seq<string>)
    requires Valid(links, view, payload) && parts != [] && AllNarrow(parts) && Walk(parts, Obj(context)).Some?
    requires "payload" in context && context["payload"] == payload
    requires "metadata" in context && context["metadata"] == Obj(metadata)
    ensures var found := Walk(parts, Obj(context)).value;
            && (parts[0] == "payload" ==> Covers(links, PointerFrom(links, Of(Schematic(view)), parts[1..]), found))
            && (parts[0] == "metadata" ==> Covers(links, PointerFrom(links, Root(Typed(KObject)), parts[1..]), found))
            && Covers(links, Root(OPEN), found)
  {
    WalkInto(parts, context);
    OpenCovers(links, Walk(parts, Obj(context)).value);
    if parts[0] == "payload" {
      HeadFits(links, view, payload, parts[1..]);
    } else if parts[0] == "metadata" {
      assert OfKind(KObject, Obj(metadata));
      HeadFits(links, View(Typed(KObject), ""), Obj(metadata), parts[1..]);
    }
  }

  // Whatever a pointer finds inside a flow is covered by its static value.
  lemma FlowScopeFits(links: Links, scope: FlowScope, payload: Json, metadata: Object, records: StepRecords)
    requires Valid(links, scope.payload, payload)
    requires RecordsFit(links, scope, records)
    ensures Fitting(links, FlowResolver(links, scope), FlowContext(payload, metadata, records))
  {
    var context := FlowContext(payload, metadata, records);
    forall pointer: string | NarrowPointer(pointer)
      ensures var found := Walk(Tokens(pointer), context);
              found.Some? ==> Covers(links, FlowStatic(links, scope, pointer), found.value)
    {
      var parts := Tokens(pointer);
      if parts == [] {
        ObjectCovered(links, context);
      } else if parts[0] == "steps" {
        StepsFit(links, scope, records, pointer, payload, metadata);
      } else if Walk(parts, context).Some? {
        SharedFits(links, scope.payload, payload, metadata, context.fields, parts);
      }
    }
  }

  // ---- At the workflow boundary -----------------------------------------------------------------

  // The view of the payload and the static result of every flow.
  datatype WorkflowScope = WorkflowScope(payload: View, results: map<string, Static>)

  function AttemptStatics(result: Static): map<string, Static> {
    map[
      "attempt" := Root(Typed(KInteger)),
      "status" := Root(OneOfTexts(STATUSES)),
      "result" := Static(result.alternatives, true, false),
      "error" := Static([Schematic(View(ERROR, ""))], true, true)]
  }

  // Bindable attempt entries; only a failed attempt has an error.
  function AttemptsStatic(result: Static): Static {
    Of(Repeated(Of(Projected(AttemptStatics(result)))))
  }

  // `WorkflowScope.__call__`.
  function WorkflowStatic(links: Links, scope: WorkflowScope, pointer: string): Static {
    var parts := Tokens(pointer);
    if parts == [] then Root(Typed(KObject))
    else if parts[0] == "payload" then PointerFrom(links, Of(Schematic(scope.payload)), parts[1..])
    else if parts[0] == "metadata" then PointerFrom(links, Root(Typed(KObject)), parts[1..])
    else if parts[0] == "flows" && |parts| >= 3 && parts[1] in scope.results then
      if parts[2] == "result" then PointerFrom(links, scope.results[parts[1]], parts[3..])
      else if parts[2] == "attempts" then PointerFrom(links, AttemptsStatic(scope.results[parts[1]]), parts[3..])
      else Root(OPEN)
    else Root(OPEN)
  }

  function WorkflowResolver(links: Links, scope: WorkflowScope): Resolver {
    pointer => WorkflowStatic(links, scope, pointer)
  }

  ghost predicate ResultFits(links: Links, static_: Static, result: Option<Json>) {
    result.Some? ==> Covers(links, static_, result.value)
  }

  ghost predicate FlowRecordFits(links: Links, static_: Static, record: FlowRecord) {
    && ResultFits(links, static_, record.result)
    && forall k {:trigger record.attempts[k]} | 0 <= k < |record.attempts| ::
         ResultFits(links, static_, record.attempts[k].result)
  }

  ghost predicate FlowRecordsFit(links: Links, scope: WorkflowScope, records: FlowRecords) {
    forall n {:trigger FlowRecordFits(links, scope.results[n], records[n])} | n in records && n in scope.results ::
      FlowRecordFits(links, scope.results[n], records[n])
  }

  lemma ErrorCovered(links: Links, failure: Failure)
    ensures Covers(links, Static([Schematic(View(ERROR, ""))], true, true), ErrorValue(Some(failure)).value)
  {
    var value := ErrorValue(Some(failure)).value;
    TextValid(links, "", CodeText(failure.code));
    TextValid(links, "", MessageText(failure.code));
    assert OfKind(KBoolean, Bool(failure.retryable));
    RecordValid(links, "", map["code" := Typed(KString), "message" := Typed(KString), "retryable" := Typed(KBoolean)],
                value.fields);
    assert CoversOne(links, Static([Schematic(View(ERROR, ""))], true, true).alternatives[0], value);
  }

  lemma SameAlternatives(links: Links, one: Static, other: Static, value: Json)
    requires one.alternatives == other.alternatives && Covers(links, one, value)
    ensures Covers(links, other, value)
  {
  }

  lemma AttemptStaticsKnown(result: Static)
    ensures var statics := AttemptStatics(result);
            && "attempt" in statics && statics["attempt"] == Root(Typed(KInteger))
            && "status" in statics && statics["status"] == Root(OneOfTexts(STATUSES))
            && "result" in statics && statics["result"] == Static(result.alternatives, true, false)
            && "error" in statics && statics["error"] == Static([Schematic(View(ERROR, ""))], true, true)
  {
  }

  ghost predicate FieldsCovered(links: Links, statics: map<string, Static>, fields: Object) {
    forall name | name in fields :: name in statics && Covers(links, statics[name], fields[name])
  }

  lemma CoverAdded(links: Links, statics: map<string, Static>, fields: Object, key: string, value: Option<Json>)
    requires FieldsCovered(links, statics, fields)
    requires value.Some? ==> key in statics && Covers(links, statics[key], value.value)
    ensures FieldsCovered(links, statics, fields + Optional(key, value))
  {
    OptionalField(fields, key, value);
  }

  function AttemptHead(record: FlowRecord, index: nat): Object {
    map["attempt" := Int(index), "status" := Str(StatusText(record.status))]
  }

  lemma HeadCovered(links: Links, statics: map<string, Static>, record: FlowRecord, index: nat)
    requires "attempt" in statics && statics["attempt"] == Root(Typed(KInteger))
    requires "status" in statics && statics["status"] == Root(OneOfTexts(STATUSES))
    ensures FieldsCovered(links, statics, AttemptHead(record, index))
  {
    assert OfKind(KInteger, Int(index));
    RootCovers(links, Typed(KInteger), Int(index));
    StatusValid(links, "", record.status);
    RootCovers(links, OneOfTexts(STATUSES), Str(StatusText(record.status)));
  }

  // One attempt entry is covered: its number, status, result and error.
  lemma AttemptCovered(links: Links, result: Static, record: FlowRecord, index: nat)
    requires ResultFits(links, result, record.result)
    ensures Covers(links, Of(Projected(AttemptStatics(result))), AttemptData(record, index))
  {
    var statics := AttemptStatics(result);
    AttemptStaticsKnown(result);
    HeadCovered(links, statics, record, index);
    if record.result.Some? {
      SameAlternatives(links, result, statics["result"], record.result.value);
    }
    if record.error.Some? {
      ErrorCovered(links, record.error.value);
    }
    CoverAdded(links, statics, AttemptHead(record, index), "result", record.result);
    CoverAdded(links, statics, AttemptHead(record, index) + Optional("result", record.result), "error",
               ErrorValue(record.error));
    assert CoversOne(links, Of(Projected(statics)).alternatives[0], AttemptData(record, index));
  }

  lemma AttemptsCovered(links: Links, result: Static, attempts: seq<FlowRecord>)
    requires attempts != []
    requires forall k {:trigger attempts[k]} | 0 <= k < |attempts| :: ResultFits(links, result, attempts[k].result)
    ensures Covers(links, AttemptsStatic(result), AttemptsData(attempts).value)
  {
    var value := AttemptsData(attempts).value;
    var items := Of(Projected(AttemptStatics(result)));
    AttemptStaticsKnown(result);
    forall k | 0 <= k < |value.items| ensures Covers(links, items, value.items[k]) {
      AttemptCovered(links, result, attempts[k], k + 1);
    }
    assert CoversOne(links, AttemptsStatic(result).alternatives[0], value);
  }

  // What a pointer finds in one flow's record.
  lemma RecordPointer(links: Links, result: Static, record: FlowRecord, tail: seq<string>)
    requires FlowRecordFits(links, result, record) && tail != [] && AllNarrow(tail)
    ensures var found := Walk(tail, FlowData(record));
            && (found.Some? && tail[0] == "result" ==>
                Covers(links, PointerFrom(links, result, tail[1..]), found.value))
            && (found.Some? && tail[0] == "attempts" ==>
                Covers(links, PointerFrom(links, AttemptsStatic(result), tail[1..]), found.value))
  {
    WalkInto(tail, FlowData(record).fields);
    FlowDataParts(record);
    if tail[0] == "result" && record.result.Some? {
      PointerCovers(links, result, record.result.value, tail[1..]);
    }
    if tail[0] == "attempts" && record.attempts != [] {
      AttemptsCovered(links, result, record.attempts);
      PointerCovers(links, AttemptsStatic(result), AttemptsData(record.attempts).value, tail[1..]);
    }
  }

  lemma FlowDataParts(record: FlowRecord)
    ensures var fields := FlowData(record).fields;
            && ("result" in fields <==> record.result.Some?)
            && (record.result.Some? ==> fields["result"] == record.result.value)
            && ("attempts" in fields <==> record.attempts != [])
            && (record.attempts != [] ==> fields["attempts"] == AttemptsData(record.attempts).value)
  {
    var f0: Object := map["status" := Str(StatusText(record.status))];
    OptionalField(f0, "result", record.result);
    var f1 := f0 + Optional("result", record.result);
    OptionalField(f1, "error", ErrorValue(record.error));
    var f2 := f1 + Optional("error", ErrorValue(record.error));
    OptionalField(f2, "attempts", AttemptsData(record.attempts));
  }

  lemma FlowsFit(links: Links, scope: WorkflowScope, records: FlowRecords, pointer: string, payload: Json,
                 metadata: Object)
    requires FlowRecordsFit(links, scope, records) && NarrowPointer(pointer)
    requires |Tokens(pointer)| >= 3 && Tokens(pointer)[0] == "flows"
    ensures var found := Walk(Tokens(pointer), WorkflowContext(payload, metadata, records));
            found.Some? ==> Covers(links, WorkflowStatic(links, scope, pointer), found.value)
  {
    var parts := Tokens(pointer);
    var table := map n | n in records :: FlowData(records[n]);
    WalkInto(parts, WorkflowContext(payload, metadata, records).fields);
    WalkInto(parts[1..], table);
    assert parts[1..][1..] == parts[2..] && parts[2..][1..] == parts[3..] && parts[2..][0] == parts[2];
    if parts[1] in records {
      if parts[1] in scope.results {
        assert FlowRecordFits(links, scope.results[parts[1]], records[parts[1]]);
        RecordPointer(links, scope.results[parts[1]], records[parts[1]], parts[2..]);
      }
      if Walk(parts[2..], FlowData(records[parts[1]])).Some? {
        OpenCovers(links, Walk(parts[2..], FlowData(records[parts[1]])).value);
      }
    }
  }

  // Whatever a pointer finds at the workflow boundary is covered by its static value.
  lemma WorkflowScopeFits(links: Links, scope: WorkflowScope, payload: Json, metadata: Object, records: FlowRecords)
    requires Valid(links, scope.payload, payload)
    requires FlowRecordsFit(links, scope, records)
    ensures Fitting(links, WorkflowResolver(links, scope), WorkflowContext(payload, metadata, records))
  {
    var context := WorkflowContext(payload, metadata, records);
    forall pointer: string | NarrowPointer(pointer)
      ensures var found := Walk(Tokens(pointer), context);
              found.Some? ==> Covers(links, WorkflowStatic(links, scope, pointer), found.value)
    {
      var parts := Tokens(pointer);
      if parts == [] {
        ObjectCovered(links, context);
      } else if parts[0] == "flows" && |parts| >= 3 {
        FlowsFit(links, scope, records, pointer, payload, metadata);
      } else if Walk(parts, context).Some? {
        SharedFits(links, scope.payload, payload, metadata, context.fields, parts);
      }
    }
  }

  // The same at the start of a run, before any flow has a record.
  lemma StartScopeFits(links: Links, scope: WorkflowScope, payload: Json, metadata: Object)
    requires Valid(links, scope.payload, payload)
    ensures Fitting(links, WorkflowResolver(links, scope), StartContext(payload, metadata))
  {
    var context := StartContext(payload, metadata);
    forall pointer: string | NarrowPointer(pointer)
      ensures var found := Walk(Tokens(pointer), context);
              found.Some? ==> Covers(links, WorkflowStatic(links, scope, pointer), found.value)
    {
      var parts := Tokens(pointer);
      if parts == [] {
        ObjectCovered(links, context);
      } else if Walk(parts, context).Some? {
        WalkInto(parts, context.fields);
        SharedFits(links, scope.payload, payload, metadata, context.fields, parts);
      }
    }
  }
}
