/**
 How deep the JSON values of records are: each part of a record adds its own levels around
 the results inside, and a path leads from a ledger down to a result of its items.
 */
module RecordDepth {
  import opened Foundations
  import opened Json
  import opened Pointers
  import opened Bindings
  import Accounting
  import opened Records

  // Values of at most m levels.
  predicate Shallow(value: Json, m: int) {
    Fits(value, 0, m)
  }

  lemma Deeper(value: Json, m: int, n: int)
    requires Shallow(value, m) && m <= n
    ensures Shallow(value, n)
  {
    FitsWeaken(value, 0, m, 0, n);
  }

  lemma ObjectWithin(fields: Object, m: int)
    requires AllWithin(fields, m) && m >= 0
    ensures Shallow(Obj(fields), m + 1)
  {
    forall k | k in fields ensures Fits(fields[k], 1, m + 1) {
      FitsWeaken(fields[k], 0, m, 1, m + 1);
    }
  }

  lemma ListWithin(items: seq<Json>, m: int)
    requires m >= 0 && forall k | 0 <= k < |items| :: Shallow(items[k], m)
    ensures Shallow(Arr(items), m + 1)
  {
    forall k | 0 <= k < |items| ensures Fits(items[k], 1, m + 1) {
      FitsWeaken(items[k], 0, m, 1, m + 1);
    }
  }

  predicate OptionWithin(value: Option<Json>, m: int) {
    match value
    case None => true
    case Some(v) => Shallow(v, m)
  }

  predicate AllWithin(fields: Object, m: int) {
    forall k | k in fields :: Shallow(fields[k], m)
  }

  lemma Added(fields: Object, key: string, value: Option<Json>, m: int)
    requires AllWithin(fields, m) && OptionWithin(value, m)
    ensures AllWithin(fields + Optional(key, value), m)
  {
  }

  lemma Merged(one: Object, other: Object, m: int)
    requires AllWithin(one, m) && AllWithin(other, m)
    ensures AllWithin(one + other, m)
  {
  }

  // ---- Parts of a record -----------------------------------------------------------------

  lemma ModelsWithin(models: map<string, Accounting.ModelUsage>)
    ensures Shallow(Obj(map m | m in models :: ModelValue(models[m])), 2)
  {
    var values: Object := map m | m in models :: ModelValue(models[m]);
    forall m | m in values ensures Shallow(values[m], 1) {
      ObjectWithin(values[m].fields, 0);
    }
    ObjectWithin(values, 1);
  }

  lemma UsageWithin(usage: Option<Accounting.Usage>)
    ensures OptionWithin(UsageValue(usage), 3)
  {
    if usage.Some? {
      var u := usage.value;
      var counts: Object := map[
        "model_requests" := Int(u.modelRequests), "tool_calls" := Int(u.toolCalls),
        "output_retries" := Int(u.outputRetries), "input_tokens" := Count(u.tokens.input),
        "output_tokens" := Count(u.tokens.output), "cache_read_input_tokens" := Count(u.tokens.cacheRead),
        "cache_write_input_tokens" := Count(u.tokens.cacheWrite),
        "reasoning_output_tokens" := Count(u.tokens.reasoning)];
      ModelsWithin(u.byModel);
      CountedWithin(counts, if u.byModel == map[] then None
                    else Some(Obj(map m | m in u.byModel :: ModelValue(u.byModel[m]))));
    }
  }

  lemma CountedWithin(counts: Object, split: Option<Json>)
    requires forall k | k in counts :: counts[k].Int? || counts[k] == Null
    requires OptionWithin(split, 2)
    ensures Shallow(Obj(counts + Optional("by_model", split)), 3)
  {
    Added(counts, "by_model", split, 2);
    ObjectWithin(counts + Optional("by_model", split), 2);
  }

  lemma ErrorWithin(error: Option<Failure>)
    ensures OptionWithin(ErrorValue(error), 1)
  {
  }

  lemma SelectionWithin(selection: Option<Selection>)
    ensures OptionWithin(SelectionValue(selection), 2)
  {
    if selection.Some? {
      var category := selection.value.category;
      var description := if category.description.Some? then Some(Str(category.description.value)) else None;
      Added(map["id" := Str(category.id)], "description", description, 0);
      ObjectWithin(map["id" := Str(category.id)] + Optional("description", description), 0);
      ObjectWithin(SelectionValue(selection).value.fields, 1);
    }
  }

  // Every result a record holds has at most m levels.
  predicate StepShallow(record: StepRecord, m: int) {
    && OptionWithin(record.result, m)
    && OptionWithin(record.partialResult, m)
  }

  predicate StepsShallow(steps: StepRecords, m: int) {
    forall n | n in steps :: StepShallow(steps[n], m)
  }

  predicate RunShallow(record: FlowRecord, m: int) {
    OptionWithin(record.result, m) && StepsShallow(record.steps, m)
  }

  predicate FlowShallow(record: FlowRecord, m: int) {
    RunShallow(record, m) && AllShallow(record.attempts, m)
  }

  predicate AllShallow(runs: seq<FlowRecord>, m: int) {
    forall run | run in runs :: RunShallow(run, m)
  }

  predicate MaybeShallow(record: Option<FlowRecord>, m: int) {
    match record
    case None => true
    case Some(run) => FlowShallow(run, m)
  }

  lemma StepValueWithin(record: StepRecord, m: int)
    requires StepShallow(record, m) && m >= 3
    ensures Shallow(StepValue(record), m + 1)
  {
    UsageWithin(record.usage);
    ErrorWithin(record.error);
    SelectionWithin(record.selection);
    StepPartsWithin(record, m, UsageValue(record.usage), ErrorValue(record.error), SelectionValue(record.selection));
  }

  lemma StepPartsWithin(record: StepRecord, m: int, usage: Option<Json>, error: Option<Json>, selection: Option<Json>)
    requires StepShallow(record, m) && m >= 3
    requires usage == UsageValue(record.usage) && error == ErrorValue(record.error)
             && selection == SelectionValue(record.selection)
    requires OptionWithin(usage, 3)
    requires OptionWithin(error, 1)
    requires OptionWithin(selection, 2)
    ensures Shallow(StepValue(record), m + 1)
  {
    OptionDeeper(usage, 3, m);
    OptionDeeper(error, 1, m);
    OptionDeeper(selection, 2, m);
    var f0: Object := map["status" := Str(StatusText(record.status))];
    Added(f0, "result", record.result, m);
    var f1 := f0 + Optional("result", record.result);
    Added(f1, "usage", usage, m);
    var f2 := f1 + Optional("usage", usage);
    Added(f2, "error", error, m);
    var f3 := f2 + Optional("error", error);
    Added(f3, "selection", selection, m);
    var f4 := f3 + Optional("selection", selection);
    Added(f4, "partial_result", record.partialResult, m);
    var f5 := f4 + Optional("partial_result", record.partialResult);
    Added(f5, "kind", KindValue(record.collection), m);
    ObjectWithin(f5 + Optional("kind", KindValue(record.collection)), m);
  }

  lemma OptionDeeper(value: Option<Json>, m: int, n: int)
    requires OptionWithin(value, m)
    requires m <= n
    ensures OptionWithin(value, n)
  {
    if value.Some? {
      Deeper(value.value, m, n);
    }
  }

  function StepTable(steps: StepRecords): Object {
    map n | n in steps :: StepValue(steps[n])
  }

  lemma TableWithin(steps: StepRecords, m: int)
    requires StepsShallow(steps, m) && m >= 3
    ensures Shallow(Obj(StepTable(steps)), m + 2)
  {
    forall n | n in steps ensures OptionWithin(Some(StepValue(steps[n])), m + 1) {
      StepValueWithin(steps[n], m);
    }
    RowsWithin(steps, StepTable(steps), m + 1);
  }

  // A table of values, each within the bound.
  lemma RowsWithin(steps: StepRecords, table: Object, m: int)
    requires table.Keys == steps.Keys && m >= 0
    requires forall n | n in steps :: OptionWithin(Some(table[n]), m)
    ensures Shallow(Obj(table), m + 1)
  {
    ObjectWithin(table, m);
  }

  // The fields of one run: its steps are two levels above their results.
  lemma RunFieldsWithin(record: FlowRecord, m: int)
    requires RunShallow(record, m) && m >= 3
    ensures AllWithin(RunFields(record), m + 2)
  {
    UsageWithin(record.usage);
    ErrorWithin(record.error);
    TableWithin(record.steps, m);
    RunPartsWithin(record, m, UsageValue(record.usage), ErrorValue(record.error), Obj(StepTable(record.steps)));
  }

  lemma RunPartsWithin(record: FlowRecord, m: int, usage: Option<Json>, error: Option<Json>, steps: Json)
    requires RunShallow(record, m) && m >= 3
    requires usage == UsageValue(record.usage) && error == ErrorValue(record.error)
    requires steps == Obj(StepTable(record.steps))
    requires OptionWithin(usage, 3)
    requires OptionWithin(error, 1)
    requires Shallow(steps, m + 2)
    ensures AllWithin(RunFields(record), m + 2)
  {
    OptionDeeper(record.result, m, m + 2);
    OptionDeeper(usage, 3, m + 2);
    OptionDeeper(error, 1, m + 2);
    PartsWithin(Str(StatusText(record.status)), record.result, usage, error, steps, m + 2);
  }

  lemma PartsWithin(status: Json, result: Option<Json>, usage: Option<Json>, error: Option<Json>, steps: Json, m: int)
    requires status.Str? && Shallow(steps, m)
    requires OptionWithin(result, m)
    requires OptionWithin(usage, m)
    requires OptionWithin(error, m)
    ensures AllWithin(map["status" := status] + Optional("result", result) + Optional("usage", usage)
                      + Optional("error", error) + map["steps" := steps], m)
  {
    var f0: Object := map["status" := status];
    Added(f0, "result", result, m);
    var f1 := f0 + Optional("result", result);
    Added(f1, "usage", usage, m);
    var f2 := f1 + Optional("usage", usage);
    Added(f2, "error", error, m);
    Merged(f2 + Optional("error", error), map["steps" := steps], m);
  }

  lemma AttemptWithin(record: FlowRecord, index: nat, m: int)
    requires RunShallow(record, m) && m >= 3
    ensures Shallow(AttemptValue(record, index), m + 3)
  {
    RunFieldsWithin(record, m);
    Merged(map["attempt" := Int(index)], RunFields(record), m + 2);
    ObjectWithin(map["attempt" := Int(index)] + RunFields(record), m + 2);
  }

  lemma AttemptsWithin(attempts: seq<FlowRecord>, m: int)
    requires AllShallow(attempts, m) && m >= 3
    ensures OptionWithin(AttemptsValue(attempts), m + 4)
  {
    if attempts == [] {
      return;
    }
    var values := AttemptsValue(attempts).value.items;
    forall k | 0 <= k < |values| ensures Shallow(values[k], m + 3) {
      AttemptWithin(attempts[k], k + 1, m);
    }
    ListWithin(values, m + 3);
  }

  lemma AllDeeper(fields: Object, m: int, n: int)
    requires AllWithin(fields, m) && m <= n
    ensures AllWithin(fields, n)
  {
    forall k | k in fields ensures Shallow(fields[k], n) {
      Deeper(fields[k], m, n);
    }
  }

  lemma FlowFieldsWithin(record: FlowRecord, m: int)
    requires FlowShallow(record, m) && m >= 3
    ensures AllWithin(FlowFields(record), m + 4)
  {
    RunFieldsWithin(record, m);
    AttemptsWithin(record.attempts, m);
    UsageWithin(record.TotalUsage());
    var usage := if record.attempts == [] then None else UsageValue(record.TotalUsage());
    OptionDeeper(usage, 3, m + 4);
    AllDeeper(RunFields(record), m + 2, m + 4);
    FlowPartsWithin(record, m + 4, AttemptsValue(record.attempts), usage);
  }

  lemma FlowPartsWithin(record: FlowRecord, m: int, attempts: Option<Json>, usage: Option<Json>)
    requires m >= 3 && AllWithin(RunFields(record), m) && attempts == AttemptsValue(record.attempts)
    requires usage == (if record.attempts == [] then None else UsageValue(record.TotalUsage()))
    requires OptionWithin(attempts, m)
    requires OptionWithin(usage, m)
    ensures AllWithin(FlowFields(record), m)
  {
    var stop := if record.stoppedBy.None? then None
        else Some(Obj(map["stopped_by" := Str(StopText(record.stoppedBy.value))]));
    var f1 := RunFields(record) + map["attempt_count" := Int(record.AttemptCount())];
    Merged(RunFields(record), map["attempt_count" := Int(record.AttemptCount())], m);
    Added(f1, "attempts", attempts, m);
    var f2 := f1 + Optional("attempts", attempts);
    Added(f2, "attempts_usage", usage, m);
    var f3 := f2 + Optional("attempts_usage", usage);
    Added(f3, "repeat", stop, m);
    assert FlowFields(record) == f3 + Optional("repeat", stop);
  }

  // ---- Ledgers -------------------------------------------------------------------------------

  lemma EntryWithin(id: string, flow: string, record: FlowRecord, retry: Option<FlowRecord>, m: int)
    requires FlowShallow(record, m) && MaybeShallow(retry, m) && m >= 3
    ensures Shallow(ItemEntry(id, flow, record, retry), m + 6)
  {
    FlowFieldsWithin(record, m);
    var again := if retry.None? then None else Some(Obj(FlowFields(retry.value)));
    if retry.Some? {
      FlowFieldsWithin(retry.value, m);
      ObjectWithin(FlowFields(retry.value), m + 4);
    }
    AllDeeper(FlowFields(record), m + 4, m + 5);
    EntryPartsWithin(id, flow, FlowFields(record), again, m + 5);
  }

  lemma EntryPartsWithin(id: string, flow: string, fields: Object, again: Option<Json>, m: int)
    requires AllWithin(fields, m) && OptionWithin(again, m) && m >= 0
    ensures Shallow(Obj(map["id" := Str(id), "flow" := Str(flow)] + fields + Optional("retry", again)), m + 1)
  {
    Merged(map["id" := Str(id), "flow" := Str(flow)], fields, m);
    Added(map["id" := Str(id), "flow" := Str(flow)] + fields, "retry", again, m);
    ObjectWithin(map["id" := Str(id), "flow" := Str(flow)] + fields + Optional("retry", again), m);
  }

  // ---- Selecting keeps values shallow ------------------------------------------------------

  lemma {:induction false} WalkWithin(tokens: seq<string>, value: Json, m: int)
    requires Shallow(value, m)
    ensures OptionWithin(Walk(tokens, value), m)
    decreases |tokens|
  {
    if tokens != [] {
      var next := Select(value, tokens[0]);
      if next.Some? {
        FitsWeaken(next.value, 1, m, 0, m);
        WalkWithin(tokens[1..], next.value, m);
      }
    }
  }

  // A pointer into the payload, the metadata or a field of one step's record.
  predicate Picks(pointer: string) {
    var tokens := Tokens(pointer);
    tokens != [] && (tokens[0] == "payload" || tokens[0] == "metadata" || (tokens[0] == "steps" && |tokens| >= 3))
  }

  // An output that selects values instead of building objects.
  predicate Selecting(binding: Binding) {
    match binding
    case Literal(_) => true
    case Pointer(pointer, _) => Picks(pointer)
    case FirstOf(members, _) => forall member | member in members :: Picks(member)
    case Fields(_) => false
  }

  lemma StepDataWithin(record: StepRecord, m: int)
    requires StepShallow(record, m) && m >= 3
    ensures StepData(record).Obj? && AllWithin(StepData(record).fields, m)
  {
    ErrorWithin(record.error);
    SelectionWithin(record.selection);
    OptionDeeper(ErrorValue(record.error), 1, m);
    OptionDeeper(SelectionValue(record.selection), 2, m);
    DataPartsWithin(record, m, SelectionValue(record.selection), ErrorValue(record.error));
  }

  lemma DataPartsWithin(record: StepRecord, m: int, selection: Option<Json>, error: Option<Json>)
    requires StepShallow(record, m) && selection == SelectionValue(record.selection)
             && error == ErrorValue(record.error)
    requires OptionWithin(selection, m) && OptionWithin(error, m) && m >= 0
    ensures StepData(record).Obj? && AllWithin(StepData(record).fields, m)
  {
    var f0: Object := map["status" := Str(StatusText(record.status))];
    Added(f0, "result", record.result, m);
    var f1 := f0 + Optional("result", record.result);
    Added(f1, "kind", KindValue(record.collection), m);
    var f2 := f1 + Optional("kind", KindValue(record.collection));
    Added(f2, "selection", selection, m);
    var f3 := f2 + Optional("selection", selection);
    Added(f3, "partial_result", record.partialResult, m);
    Added(f3 + Optional("partial_result", record.partialResult), "error", error, m);
  }

  lemma PickWithin(pointer: string, payload: Json, metadata: Object, steps: StepRecords, m: int)
    requires Picks(pointer) && Shallow(payload, m) && Shallow(Obj(metadata), m) && StepsShallow(steps, m) && m >= 3
    ensures OptionWithin(Walk(Tokens(pointer), FlowContext(payload, metadata, steps)), m)
  {
    var tokens := Tokens(pointer);
    WalkInto(tokens, FlowContext(payload, metadata, steps).fields);
    WalkWithin(tokens[1..], payload, m);
    WalkWithin(tokens[1..], Obj(metadata), m);
    if tokens[0] == "steps" {
      var table := map n | n in steps :: StepData(steps[n]);
      WalkInto(tokens[1..], table);
      assert tokens[1..][1..] == tokens[2..];
      if tokens[1] in steps {
        RecordPickWithin(StepAt(steps, tokens[1]), tokens[2..], m);
      }
    }
  }

  lemma RecordPickWithin(record: StepRecord, tokens: seq<string>, m: int)
    requires StepShallow(record, m) && m >= 3 && tokens != []
    ensures OptionWithin(Walk(tokens, StepData(record)), m)
  {
    StepDataWithin(record, m);
    WalkInto(tokens, StepData(record).fields);
    if tokens[0] in StepData(record).fields {
      WalkWithin(tokens[1..], StepData(record).fields[tokens[0]], m);
    }
  }

  predicate PresentWithin(candidates: Result<seq<Option<Json>>, ErrorCode>, m: int) {
    match candidates
    case Err(_) => true
    case Ok(values) => OptionWithin(FirstPresent(values), m)
  }

  predicate ResultWithin(result: Result<Json, ErrorCode>, m: int) {
    match result
    case Err(_) => true
    case Ok(value) => Shallow(value, m)
  }

  lemma {:induction false} MembersWithin(members: seq<string>, payload: Json, metadata: Object, steps: StepRecords,
                                         m: int)
    requires forall member | member in members :: Picks(member)
    requires Shallow(payload, m) && Shallow(Obj(metadata), m) && StepsShallow(steps, m) && m >= 3
    ensures PresentWithin(LookupAll(members, FlowContext(payload, metadata, steps)), m)
  {
    if members != [] {
      PickWithin(members[0], payload, metadata, steps, m);
      MembersWithin(members[1..], payload, metadata, steps, m);
      var rest := LookupAll(members[1..], FlowContext(payload, metadata, steps));
      var candidates := LookupAll(members, FlowContext(payload, metadata, steps));
      if candidates.Ok? {
        assert candidates.value[1..] == rest.value;
      }
    }
  }

  lemma SelectedWithin(binding: Binding, payload: Json, metadata: Object, steps: StepRecords, m: int)
    requires Selecting(binding) && m >= MAX_JSON_DEPTH
    requires Shallow(payload, m) && Shallow(Obj(metadata), m) && StepsShallow(steps, m)
    ensures ResultWithin(ResolveBinding(binding, FlowContext(payload, metadata, steps)), m)
  {
    var r := ResolveBinding(binding, FlowContext(payload, metadata, steps));
    match binding
    case Literal(value) =>
      if r.Ok? {
        Deeper(value, MAX_JSON_DEPTH, m);
      }
    case Pointer(pointer, default) =>
      PickWithin(pointer, payload, metadata, steps, m);
      DefaultWithin(default, m);
    case FirstOf(members, default) =>
      MembersWithin(members, payload, metadata, steps, m);
      DefaultWithin(default, m);
  }

  lemma DefaultWithin(default: Option<Json>, m: int)
    requires m >= MAX_JSON_DEPTH
    ensures ResultWithin(OrDefault(None, default), m)
  {
    if default.Some? && Fits(default.value, 0, MAX_JSON_DEPTH) {
      Deeper(default.value, MAX_JSON_DEPTH, m);
    }
  }

  // ---- The bound is reached ------------------------------------------------------------------------

  lemma Down(key: string, rest: seq<string>, fields: Object)
    requires key in fields
    ensures Walk([key] + rest, Obj(fields)) == Walk(rest, fields[key])
  {
    WalkInto([key] + rest, fields);
    assert ([key] + rest)[1..] == rest;
  }

  lemma DownFirst(rest: seq<string>, items: seq<Json>)
    requires items != []
    ensures Walk(["0"] + rest, Arr(items)) == Walk(rest, items[0])
  {
    SelectsItem(items, "0");
    assert (["0"] + rest)[1..] == rest;
  }

  // The steps inside one run, behind any other fields.
  lemma RunPath(head: Object, run: FlowRecord, s: string, rest: seq<string>)
    requires s in run.steps
    ensures Walk(["steps"] + ([s] + rest), Obj(head + RunFields(run))) == Walk(rest, StepValue(run.steps[s]))
  {
    var steps: Object := map n | n in run.steps :: StepValue(run.steps[n]);
    var fields := head + RunFields(run);
    StepsField(run);
    assert fields["steps"] == Obj(steps);
    Down("steps", [s] + rest, fields);
    Down(s, rest, steps);
  }

  lemma StepsField(run: FlowRecord)
    ensures "steps" in RunFields(run) && RunFields(run)["steps"]
            == Obj(map n | n in run.steps :: StepValue(run.steps[n]))
  {
  }

  lemma FlowPath(record: FlowRecord, rest: seq<string>)
    requires record.attempts != []
    ensures Walk(["attempts"] + (["0"] + rest), Obj(FlowFields(record)))
            == Walk(rest, AttemptValue(record.attempts[0], 1))
  {
    AttemptsField(record);
    FirstAttempt(record.attempts, rest);
    FieldPath("attempts", ["0"] + rest, FlowFields(record), AttemptsValue(record.attempts).value);
  }

  lemma FieldPath(key: string, rest: seq<string>, fields: Object, value: Json)
    requires key in fields && fields[key] == value
    ensures Walk([key] + rest, Obj(fields)) == Walk(rest, value)
  {
    Down(key, rest, fields);
  }

  lemma FirstAttempt(attempts: seq<FlowRecord>, rest: seq<string>)
    requires attempts != []
    ensures Walk(["0"] + rest, AttemptsValue(attempts).value) == Walk(rest, AttemptValue(attempts[0], 1))
  {
    DownFirst(rest, AttemptsValue(attempts).value.items);
  }

  lemma AttemptsField(record: FlowRecord)
    requires record.attempts != []
    ensures "attempts" in FlowFields(record) && FlowFields(record)["attempts"] == AttemptsValue(record.attempts).value
  {
  }

  lemma EntryPath(id: string, flow: string, record: FlowRecord, retry: FlowRecord, rest: seq<string>)
    ensures Walk(["retry"] + rest, ItemEntry(id, flow, record, Some(retry))) == Walk(rest, Obj(FlowFields(retry)))
  {
    var fields := ItemEntry(id, flow, record, Some(retry)).fields;
    assert "retry" in fields && fields["retry"] == Obj(FlowFields(retry));
    Down("retry", rest, fields);
  }

  // Other fields keep the result.
  lemma ResultKept(fields: Object, usage: Option<Json>, error: Option<Json>, selection: Option<Json>,
                   partial: Option<Json>, kind: Option<Json>)
    requires "result" in fields
    ensures var all := fields + Optional("usage", usage) + Optional("error", error) + Optional("selection", selection)
                       + Optional("partial_result", partial) + Optional("kind", kind);
            "result" in all && all["result"] == fields["result"]
  {
  }

  lemma StepPath(record: StepRecord, rest: seq<string>)
    requires record.result.Some?
    ensures Walk(["result"] + rest, StepValue(record)) == Walk(rest, record.result.value)
  {
    var fields := map["status" := Str(StatusText(record.status))] + Optional("result", record.result);
    ResultKept(fields, UsageValue(record.usage), ErrorValue(record.error), SelectionValue(record.selection),
               record.partialResult, KindValue(record.collection));
    Down("result", rest, StepValue(record).fields);
  }

  lemma ChildWithin(value: Json, key: string, child: Json, m: int)
    requires Shallow(value, m) && Select(value, key) == Some(child)
    ensures m > 0 && Shallow(child, m - 1)
  {
    assert Fits(child, 1, m);
    FitsWeaken(child, 1, m, 0, m - 1);
  }

  // Each selected token is one level.
  lemma {:induction false} WalkDescends(tokens: seq<string>, value: Json, found: Json, m: int)
    requires Shallow(value, m) && Walk(tokens, value) == Some(found)
    ensures |tokens| <= m && Shallow(found, m - |tokens|)
    decreases |tokens|
  {
    if tokens != [] {
      var child := Select(value, tokens[0]).value;
      ChildWithin(value, tokens[0], child, m);
      WalkDescends(tokens[1..], child, found, m - 1);
    }
  }

  function Nest(depth: nat): Json {
    if depth == 0 then Null else Arr([Nest(depth - 1)])
  }

  lemma {:induction false} NestDepth(depth: nat, m: int)
    ensures Shallow(Nest(depth), m) <==> depth <= m
  {
    if depth > 0 {
      var below := Nest(depth - 1);
      assert Nest(depth).items[0] == below;
      if m > 0 {
        NestDepth(depth - 1, m - 1);
        if Shallow(Nest(depth), m) {
          FitsWeaken(below, 1, m, 0, m - 1);
        }
        if depth <= m {
          ListWithin([below], m - 1);
        }
      } else {
        assert !Fits(below, 1, 0);
      }
    }
  }

  predicate HasDepth(value: Json, m: int) {
    Shallow(value, m) && (m > 0 ==> !Shallow(value, m - 1))
  }

  // Some value sits this many levels down.
  ghost predicate Deep(value: Json, m: int) {
    exists tokens: seq<string> {:trigger Walk(tokens, value)} :: |tokens| == m && Walk(tokens, value).Some?
  }

  lemma DeepIsDeep(value: Json, m: int, n: int)
    requires Deep(value, m) && Shallow(value, n)
    ensures m <= n
  {
    var tokens: seq<string> :| |tokens| == m && Walk(tokens, value).Some?;
    WalkDescends(tokens, value, Walk(tokens, value).value, n);
  }

  lemma {:induction false} WalkAppends(path: seq<string>, rest: seq<string>, value: Json, below: Json)
    requires Walk(path, value) == Some(below)
    ensures Walk(path + rest, value) == Walk(rest, below)
    decreases |path|
  {
    if path == [] {
      assert path + rest == rest;
    } else {
      assert (path + rest)[0] == path[0] && (path + rest)[1..] == path[1..] + rest;
      WalkAppends(path[1..], rest, Select(value, path[0]).value, below);
    }
  }

  lemma DeeperBelow(path: seq<string>, value: Json, below: Json, m: int)
    requires Walk(path, value) == Some(below) && Deep(below, m)
    ensures Deep(value, |path| + m)
  {
    var tokens: seq<string> :| |tokens| == m && Walk(tokens, below).Some?;
    WalkAppends(path, tokens, value, below);
    assert |path + tokens| == |path| + m;
  }

  lemma {:induction false} NestIsDeep(depth: nat)
    ensures Deep(Nest(depth), depth)
  {
    if depth == 0 {
      assert Walk([], Nest(0)).Some?;
    } else {
      NestIsDeep(depth - 1);
      DownFirst([], [Nest(depth - 1)]);
      assert ["0"] + [] == ["0"];
      DeeperBelow(["0"], Nest(depth), Nest(depth - 1), depth - 1);
    }
  }

  // ---- Eight levels per ledger -----------------------------------------------------------------

  function AttemptPath(): seq<string> {
    ["steps"] + (["s"] + (["result"] + []))
  }

  function RetryPath(): seq<string> {
    ["retry"] + (["attempts"] + (["0"] + AttemptPath()))
  }

  // A run whose step "s" has this result.
  predicate StepHolds(run: FlowRecord, value: Json) {
    StepAt(run.steps, "s").result == Some(value)
  }

  // The run's step result is this deep.
  ghost predicate DeepRun(run: FlowRecord, m: int) {
    match StepAt(run.steps, "s").result
    case None => false
    case Some(value) => Deep(value, m)
  }

  lemma AttemptSelects(run: FlowRecord, value: Json)
    requires StepHolds(run, value)
    ensures Walk(AttemptPath(), AttemptValue(run, 1)) == Some(value)
  {
    RunPath(map["attempt" := Int(1)], run, "s", ["result"] + []);
    StepPath(run.steps["s"], []);
  }

  // The entry of an item whose retry flow's first run left a step result of this depth.
  lemma EntryIsDeep(id: string, flow: string, record: FlowRecord, retry: FlowRecord, m: int)
    requires DeepFirst(retry, m)
    ensures Deep(ItemEntry(id, flow, record, Some(retry)), m + 6)
  {
    var value := StepAt(retry.attempts[0].steps, "s").result.value;
    EntryPath(id, flow, record, retry, ["attempts"] + (["0"] + AttemptPath()));
    FlowPath(retry, AttemptPath());
    AttemptSelects(retry.attempts[0], value);
    DeeperBelow(RetryPath(), ItemEntry(id, flow, record, Some(retry)), value, m);
  }

  ghost predicate DeepFirst(record: FlowRecord, m: int) {
    record.attempts != [] && DeepRun(record.attempts[0], m)
  }

  // A result of exactly this depth.
  predicate ExactResult(record: StepRecord, m: int) {
    match record.result
    case None => false
    case Some(value) => HasDepth(value, m)
  }

  lemma ExactlyDeep(run: FlowRecord, m: int)
    requires DeepRun(run, m) && RunShallow(run, m)
    ensures ExactResult(StepAt(run.steps, "s"), m)
  {
    var value := StepAt(run.steps, "s").result.value;
    if m > 0 && Shallow(value, m - 1) {
      DeepIsDeep(value, m, m - 1);
    }
  }
}
