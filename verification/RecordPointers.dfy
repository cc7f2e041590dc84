/** What pointers read in the contexts and ledgers of a run: each field of each record. */
module RecordPointers {
  import opened Foundations
  import opened Json
  import opened JsonEquality
  import opened Pointers
  import opened Records
  import opened Engine

  // ---- Positions ----------------------------------------------------------------------------------

  lemma {:induction false} DigitsAreDigits(n: nat)
    ensures Digits(n) != "" && forall k | 0 <= k < |Digits(n)| :: IsDigit(Digits(n)[k])
    ensures Digits(n)[0] == '0' <==> n == 0
    ensures n < 10 <==> |Digits(n)| == 1
  {
    if n >= 10 {
      DigitsAreDigits(n / 10);
    }
  }

  lemma {:induction false} DigitsParse(n: nat)
    ensures IsIndex(Digits(n)) && ParseIndex(Digits(n)) == n
  {
    DigitsAreDigits(n);
    if n < 10 {
      assert Digits(n)[..0] == "";
    } else {
      DigitsParse(n / 10);
      assert Digits(n)[..|Digits(n)| - 1] == Digits(n / 10);
    }
  }

  lemma {:induction false} IndexPrints(key: string)
    requires IsIndex(key)
    ensures Digits(ParseIndex(key)) == key
    decreases |key|
  {
    var last := key[|key| - 1];
    assert IsDigit(last);
    if |key| == 1 {
      assert key[..0] == "" && key == [last];
    } else {
      var init := key[..|key| - 1];
      assert init[0] == key[0] && IsIndex(init);
      IndexPrints(init);
      DigitsAreDigits(ParseIndex(init));
      assert key == init + [last];
    }
  }

  // An array token selects an item exactly when it is the decimal spelling of its position.
  lemma PositionSelects(items: seq<Json>, key: string)
    ensures var selected := Select(Arr(items), key);
            && (selected.Some? <==> exists k: nat :: k < |items| && key == Digits(k))
            && forall k: nat | k < |items| && key == Digits(k) :: selected == Some(items[k])
  {
    if IsIndex(key) {
      IndexPrints(key);
      if ParseIndex(key) < |items| {
        GuardKeepsValidIndexes(key, |items|);
      }
    }
    forall k: nat | k < |items| && key == Digits(k)
      ensures IsIndex(key) && ParseIndex(key) == k && Select(Arr(items), key) == Some(items[k])
    {
      DigitsParse(k);
      GuardKeepsValidIndexes(key, |items|);
    }
  }

  // ---- Fields -------------------------------------------------------------------------------------

  // Below a value that is there.
  function Within(found: Option<Json>, tail: seq<string>): Option<Json> {
    match found
    case None => None
    case Some(value) => Walk(tail, value)
  }

  lemma Enters(fields: Object, key: string, tail: seq<string>)
    ensures Walk([key] + tail, Obj(fields)) == if key in fields then Walk(tail, fields[key]) else None
  {
    assert ([key] + tail)[1..] == tail;
  }

  // A context shows its records under one key.
  lemma EntersRecord(context: Object, key: string, records: Object, n: string, rest: seq<string>)
    requires key in context && context[key] == Obj(records)
    ensures Walk([key, n] + rest, Obj(context)) == if n in records then Walk(rest, records[n]) else None
  {
    assert [key, n] + rest == [key] + ([n] + rest);
    Enters(context, key, [n] + rest);
    Enters(records, n, rest);
  }

  function At(fields: Object, field: string): Option<Json> {
    if field in fields then Some(fields[field]) else None
  }

  lemma OptionalAt(fields: Object, key: string, value: Option<Json>, field: string)
    ensures At(fields + Optional(key, value), field)
            == if field == key && value.Some? then value else At(fields, field)
  {
  }

  function StepField(record: StepRecord, field: string): Option<Json> {
    if field == "status" then Some(Str(StatusText(record.status)))
    else if field == "result" then record.result
    else if field == "selection" then SelectionValue(record.selection)
    else if field == "partial_result" then record.partialResult
    else if field == "error" then ErrorValue(record.error)
    else if field == "kind" && record.collection then Some(Str("flow_collection"))
    else None
  }

  lemma StepDataAt(record: StepRecord, field: string)
    ensures At(StepData(record).fields, field) == StepField(record, field)
  {
    var f1: Object := map["status" := Str(StatusText(record.status))];
    var f2 := f1 + Optional("result", record.result);
    var f3 := f2 + Optional("kind", KindValue(record.collection));
    var f4 := f3 + Optional("selection", SelectionValue(record.selection));
    var f5 := f4 + Optional("partial_result", record.partialResult);
    OptionalAt(f1, "result", record.result, field);
    OptionalAt(f2, "kind", KindValue(record.collection), field);
    OptionalAt(f3, "selection", SelectionValue(record.selection), field);
    OptionalAt(f4, "partial_result", record.partialResult, field);
    OptionalAt(f5, "error", ErrorValue(record.error), field);
  }

  // A pointer into a step's record, for its bindings and the flow's output.
  lemma StepPointerReads(payload: Json, metadata: Object, steps: StepRecords, n: string, field: string,
                         tail: seq<string>)
    ensures Walk(["steps", n] + ([field] + tail), FlowContext(payload, metadata, steps))
            == if n in steps then Within(StepField(steps[n], field), tail) else None
  {
    var context := FlowContext(payload, metadata, steps);
    EntersRecord(context.fields, "steps", context.fields["steps"].fields, n, [field] + tail);
    if n in steps {
      Enters(StepData(steps[n]).fields, field, tail);
      StepDataAt(steps[n], field);
    }
  }

  function RecordField(record: FlowRecord, field: string): Option<Json> {
    if field == "status" then Some(Str(StatusText(record.status)))
    else if field == "result" then record.result
    else if field == "error" then ErrorValue(record.error)
    else if field == "attempts" then AttemptsData(record.attempts)
    else None
  }

  lemma FlowDataAt(record: FlowRecord, field: string)
    ensures At(FlowData(record).fields, field) == RecordField(record, field)
  {
    var f1: Object := map["status" := Str(StatusText(record.status))];
    var f2 := f1 + Optional("result", record.result);
    var f3 := f2 + Optional("error", ErrorValue(record.error));
    OptionalAt(f1, "result", record.result, field);
    OptionalAt(f2, "error", ErrorValue(record.error), field);
    OptionalAt(f3, "attempts", AttemptsData(record.attempts), field);
  }

  // A pointer into a flow's record, at the workflow boundary.
  lemma FlowPointerReads(payload: Json, metadata: Object, records: FlowRecords, n: string, field: string,
                         tail: seq<string>)
    ensures Walk(["flows", n] + ([field] + tail), WorkflowContext(payload, metadata, records))
            == if n in records then Within(RecordField(records[n], field), tail) else None
  {
    var context := WorkflowContext(payload, metadata, records);
    EntersRecord(context.fields, "flows", context.fields["flows"].fields, n, [field] + tail);
    if n in records {
      Enters(FlowData(records[n]).fields, field, tail);
      FlowDataAt(records[n], field);
    }
  }

  function AttemptField(record: FlowRecord, k: nat, field: string): Option<Json> {
    if field == "attempt" then Some(Int(k + 1))
    else if field == "attempts" then None
    else RecordField(record, field)
  }

  lemma AttemptDataAt(record: FlowRecord, k: nat, field: string)
    ensures At(AttemptData(record, k + 1).fields, field) == AttemptField(record, k, field)
  {
    var f1: Object := map["attempt" := Int(k + 1), "status" := Str(StatusText(record.status))];
    var f2 := f1 + Optional("result", record.result);
    OptionalAt(f1, "result", record.result, field);
    OptionalAt(f2, "error", ErrorValue(record.error), field);
  }

  // Into the value at a position of a list.
  lemma EntersItem(items: seq<Json>, k: nat, rest: seq<string>)
    ensures Walk([Digits(k)] + rest, Arr(items)) == if k < |items| then Walk(rest, items[k]) else None
  {
    assert ([Digits(k)] + rest)[1..] == rest;
    PositionSelects(items, Digits(k));
    DigitsParse(k);
  }

  // A pointer to the attempt at a position reads that run, numbered from one.
  lemma AttemptPointerReads(payload: Json, metadata: Object, records: FlowRecords, n: string, k: nat, field: string,
                            tail: seq<string>)
    requires n in records
    ensures var attempts := records[n].attempts;
            Walk(["flows", n] + (["attempts"] + ([Digits(k)] + ([field] + tail))),
                 WorkflowContext(payload, metadata, records))
            == if k < |attempts| then Within(AttemptField(attempts[k], k, field), tail) else None
  {
    var attempts := records[n].attempts;
    FlowPointerReads(payload, metadata, records, n, "attempts", [Digits(k)] + ([field] + tail));
    assert RecordField(records[n], "attempts") == AttemptsData(attempts);
    if attempts != [] {
      var items := AttemptsData(attempts).value.items;
      EntersItem(items, k, [field] + tail);
      if k < |attempts| {
        Enters(items[k].fields, field, tail);
        AttemptDataAt(attempts[k], k, field);
      }
    }
  }

  // ---- Ledgers ------------------------------------------------------------------------------------

  function RunField(record: FlowRecord, field: string): Option<Json> {
    if field == "status" then Some(Str(StatusText(record.status)))
    else if field == "result" then record.result
    else if field == "error" then ErrorValue(record.error)
    else if field == "usage" then UsageValue(record.usage)
    else if field == "steps" then Some(Obj(map n | n in record.steps :: StepValue(record.steps[n])))
    else None
  }

  function LedgerField(record: FlowRecord, field: string): Option<Json> {
    if field == "attempt_count" then Some(Int(record.AttemptCount()))
    else if field == "attempts" then AttemptsValue(record.attempts)
    else if field == "attempts_usage" then (if record.attempts == [] then None else UsageValue(record.TotalUsage()))
    else if field == "repeat" then StopValue(record.stoppedBy)
    else RunField(record, field)
  }

  function StopValue(stop: Option<Stop>): Option<Json> {
    match stop
    case None => None
    case Some(reason) => Some(Obj(map["stopped_by" := Str(StopText(reason))]))
  }

  // The fields of an entry; `retry` holds those of the item's retry flow.
  function EntryField(entry: Entry, field: string): Option<Json> {
    if field == "id" then Some(Str(entry.item.id))
    else if field == "flow" then Some(Str(entry.item.flow))
    else if field == "retry" then RetryValue(entry.retry)
    else LedgerField(entry.record, field)
  }

  function RetryValue(retry: Option<FlowRecord>): Option<Json> {
    match retry
    case None => None
    case Some(record) => Some(Obj(FlowFields(record)))
  }

  lemma RunFieldAt(record: FlowRecord, field: string)
    ensures At(RunFields(record), field) == RunField(record, field)
  {
    var f1: Object := map["status" := Str(StatusText(record.status))];
    var f2 := f1 + Optional("result", record.result);
    var f3 := f2 + Optional("usage", UsageValue(record.usage));
    OptionalAt(f1, "result", record.result, field);
    OptionalAt(f2, "usage", UsageValue(record.usage), field);
    OptionalAt(f3, "error", ErrorValue(record.error), field);
  }

  lemma LedgerFieldAt(record: FlowRecord, field: string)
    ensures At(FlowFields(record), field) == LedgerField(record, field)
  {
    var count := Int(record.AttemptCount());
    var f1 := RunFields(record);
    var f2 := f1 + Optional("attempt_count", Some(count));
    var f3 := f2 + Optional("attempts", AttemptsValue(record.attempts));
    var usage := if record.attempts == [] then None else UsageValue(record.TotalUsage());
    var f4 := f3 + Optional("attempts_usage", usage);
    assert FlowFields(record) == f4 + Optional("repeat", StopValue(record.stoppedBy));
    OptionalAt(f1, "attempt_count", Some(count), field);
    OptionalAt(f2, "attempts", AttemptsValue(record.attempts), field);
    OptionalAt(f3, "attempts_usage", usage, field);
    OptionalAt(f4, "repeat", StopValue(record.stoppedBy), field);
    RunFieldAt(record, field);
    RunIsPlain(record);
  }

  lemma RunIsPlain(record: FlowRecord)
    ensures RunField(record, "attempts").None? && RunField(record, "attempts_usage").None?
    ensures RunField(record, "repeat").None?
  {
  }

  lemma LedgerIsPlain(record: FlowRecord)
    ensures LedgerField(record, "id").None? && LedgerField(record, "flow").None?
    ensures LedgerField(record, "retry").None?
  {
  }

  lemma EntryAt(entry: Entry, field: string)
    ensures At(EntryValue(entry).fields, field) == EntryField(entry, field)
  {
    var f1: Object := map["id" := Str(entry.item.id), "flow" := Str(entry.item.flow)];
    var f2 := f1 + FlowFields(entry.record);
    assert EntryValue(entry) == Obj(f2 + Optional("retry", RetryValue(entry.retry)));
    OptionalAt(f2, "retry", RetryValue(entry.retry), field);
    PlusAt(f1, FlowFields(entry.record), field);
    LedgerFieldAt(entry.record, field);
    LedgerIsPlain(entry.record);
    HeadAt(entry.item, field);
  }

  lemma PlusAt(fields: Object, more: Object, field: string)
    ensures At(fields + more, field) == if field in more then At(more, field) else At(fields, field)
  {
  }

  lemma HeadAt(item: Item, field: string)
    ensures At(map["id" := Str(item.id), "flow" := Str(item.flow)], field)
            == if field == "id" then Some(Str(item.id)) else if field == "flow" then Some(Str(item.flow)) else None
  {
  }

  // A pointer into a ledger reads the entry at its position.
  lemma LedgerPointerReads(entries: seq<Entry>, k: nat, field: string, tail: seq<string>)
    ensures Walk(["items"] + ([Digits(k)] + ([field] + tail)), Ledger(entries))
            == if k < |entries| then Within(EntryField(entries[k], field), tail) else None
  {
    var items := Ledger(entries).fields["items"].items;
    Enters(Ledger(entries).fields, "items", [Digits(k)] + ([field] + tail));
    EntersItem(items, k, [field] + tail);
    if k < |entries| {
      Enters(items[k].fields, field, tail);
      EntryAt(entries[k], field);
    }
  }
}
