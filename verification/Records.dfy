/** Execution records and their JSON projections for bindings and ledgers. */
module Records {
  import opened Foundations
  import opened Json
  import opened Accounting
  import opened Plans

  // Cancellation propagates out of a run, so no record is ever cancelled.
  datatype Status = Completed | NeedsReview | Failed | Skipped

  datatype Stop = ByUntil | ByExhaustion | ByContinueWhen | ByReview | ByFailure

  datatype Origin = FromModel | FromFallback

  datatype Category = Category(id: string, description: Option<string>)

  datatype Selection = Selection(category: Category, origin: Origin)

  datatype Failure = Failure(code: ErrorCode, retryable: bool)

  datatype StepRecord = StepRecord(
    status: Status,
    result: Option<Json>,
    error: Option<Failure>,
    usage: Option<Usage>,
    selection: Option<Selection>,
    partialResult: Option<Json>,
    collection: bool)  // kind == "flow_collection"

  // Only decision and handler steps report a selected category.
  predicate Selects(step: Step) {
    step.Operation? && (step.kind == Handler || step.kind.Decision?)
  }

  // What the adapters report: a single-choice decision selects one of its categories, other
  // decisions select nothing.
  predicate Chooses(step: Step, selection: Selection) {
    && step.Operation?
    && match step.kind
       case Decision(Some(ids)) => selection.category.id in ids
       case Handler => true
       case _ => false
  }

  // A record the flow goes on with: nothing of a failure, and the step's own shape.
  predicate Clean(step: Step, record: StepRecord) {
    && record.error.None? && record.partialResult.None? && record.collection == step.Collection?
    && (record.selection.Some? ==> Selects(step))
  }

  // For a repeated or retry flow the top-level fields describe the last run and
  // `attempts` retains every run in order.
  datatype FlowRecord = FlowRecord(
    status: Status,
    steps: map<string, StepRecord>,
    result: Option<Json>,
    usage: Option<Usage>,
    error: Option<Failure>,
    attempts: seq<FlowRecord>,
    stoppedBy: Option<Stop>)
  {
    function AttemptCount(): nat {
      if attempts != [] then |attempts| else if status == Skipped then 0 else 1
    }

    // Usage of every run, counted once.
    function TotalUsage(): Option<Usage> {
      if attempts == [] then usage else Some(Total(Measured(attempts)))
    }
  }

  // total_usage adds up the attempts that were measured.
  function Measured(attempts: seq<FlowRecord>): seq<Usage> {
    if attempts == [] then []
    else
      var last := attempts[|attempts| - 1].usage;
      Measured(attempts[..|attempts| - 1]) + if last.Some? then [last.value] else []
  }

  // ---- Public texts ------------------------------------------------------------

  function StatusText(status: Status): string {
    match status
    case Completed => "completed"
    case NeedsReview => "needs_review"
    case Failed => "failed"
    case Skipped => "skipped"
  }

  function StopText(stop: Stop): string {
    match stop
    case ByUntil => "until"
    case ByExhaustion => "exhausted"
    case ByContinueWhen => "continue_when"
    case ByReview => "review"
    case ByFailure => "failure"
  }

  function CodeText(code: ErrorCode): string {
    match code
    case InvalidConfiguration => "invalid_configuration"
    case InvalidInput => "invalid_input"
    case InvalidOutput => "invalid_output"
    case MissingBinding => "missing_binding"
    case RequestTimeout => "request_timeout"
    case RunTimeout => "run_timeout"
    case StepLimitReached => "step_limit_reached"
    case DependencyFailure => "dependency_failure"
    case Conflict => "conflict"
    case ModelRequestLimitReached => "model_request_limit_reached"
    case ToolCallLimitReached => "tool_call_limit_reached"
    case CapacityExceeded => "capacity_exceeded"
    case Reported(text, _) => text
  }

  function MessageText(code: ErrorCode): string {
    match code
    case InvalidConfiguration => "The workflow configuration is invalid."
    case InvalidInput => "The input does not satisfy the required contract."
    case InvalidOutput => "An operation returned an invalid result."
    case MissingBinding => "A required input binding is unavailable."
    case RequestTimeout => "A model, tool or handler request exceeded its timeout."
    case RunTimeout => "The run exceeded its deadline."
    case StepLimitReached => "The run reached its limit of executed steps."
    case DependencyFailure => "A required dependency is unavailable."
    case Conflict => "The request conflicts with an existing operation."
    case ModelRequestLimitReached => "The step reached its limit of model requests."
    case ToolCallLimitReached => "The step reached its limit of tool calls."
    case CapacityExceeded => "The service has reached its admission limit."
    case Reported(_, explanation) => explanation
  }

  // ---- Projections for bindings (`_record_data`) ---------------------------------

  function Optional(key: string, value: Option<Json>): Object {
    if value.Some? then map[key := value.value] else map[]
  }

  function ErrorValue(error: Option<Failure>): Option<Json> {
    if error.None? then None
    else
      Some(Obj(map["code" := Str(CodeText(error.value.code)),
                   "message" := Str(MessageText(error.value.code)),
                   "retryable" := Bool(error.value.retryable)]))
  }

  function SelectionValue(selection: Option<Selection>): Option<Json> {
    if selection.None? then None
    else
      var category := selection.value.category;
      var description := if category.description.Some? then Some(Str(category.description.value)) else None;
      Some(Obj(map["category" := Obj(map["id" := Str(category.id)] + Optional("description", description)),
                   "origin" := Str(if selection.value.origin == FromModel then "model" else "fallback")]))
  }

  function KindValue(collection: bool): Option<Json> {
    if collection then Some(Str("flow_collection")) else None
  }

  function StepData(record: StepRecord): Json {
    Obj(map["status" := Str(StatusText(record.status))]
        + Optional("result", record.result)
        + Optional("kind", KindValue(record.collection))
        + Optional("selection", SelectionValue(record.selection))
        + Optional("partial_result", record.partialResult)
        + Optional("error", ErrorValue(record.error)))
  }

  function AttemptData(record: FlowRecord, index: nat): Json {
    Obj(map["attempt" := Int(index), "status" := Str(StatusText(record.status))]
        + Optional("result", record.result)
        + Optional("error", ErrorValue(record.error)))
  }

  function AttemptsData(attempts: seq<FlowRecord>): Option<Json> {
    if attempts == [] then None
    else Some(Arr(seq(|attempts|, k requires 0 <= k < |attempts| => AttemptData(attempts[k], k + 1))))
  }

  function FlowData(record: FlowRecord): Json {
    Obj(map["status" := Str(StatusText(record.status))]
        + Optional("result", record.result)
        + Optional("error", ErrorValue(record.error))
        + Optional("attempts", AttemptsData(record.attempts)))
  }

  type StepRecords = map<string, StepRecord>

  type FlowRecords = map<string, FlowRecord>

  // The record under a name; without one, that of something skipped.
  function StepAt(records: StepRecords, n: string): StepRecord {
    if n in records then records[n] else StepRecord(Skipped, None, None, None, None, None, false)
  }

  function FlowAt(records: FlowRecords, n: string): FlowRecord {
    if n in records then records[n] else FlowRecord(Skipped, map[], None, None, None, [], None)
  }

  // What a step's bindings and a flow's output see.
  function FlowContext(payload: Json, metadata: Object, steps: StepRecords): Json {
    Obj(map["payload" := payload, "metadata" := Obj(metadata),
            "steps" := Obj(map n | n in steps :: StepData(steps[n]))])
  }

  // What boundary bindings, routes and repeats see.
  function WorkflowContext(payload: Json, metadata: Object, records: FlowRecords): Json {
    Obj(map["payload" := payload, "metadata" := Obj(metadata),
            "flows" := Obj(map n | n in records :: FlowData(records[n]))])
  }

  function StartContext(payload: Json, metadata: Object): Json {
    Obj(map["payload" := payload, "metadata" := Obj(metadata)])
  }

  // ---- Ledger projections (`flow_record_value`) -----------------------------------

  function Count(n: Option<nat>): Json {
    if n.Some? then Int(n.value) else Null
  }

  function ModelValue(usage: ModelUsage): Json {
    Obj(map["requests" := Int(usage.requests),
            "input_tokens" := Count(usage.tokens.input),
            "cached_input_tokens" := Count(usage.tokens.cacheRead),
            "output_tokens" := Count(usage.tokens.output),
            "reasoning_tokens" := Count(usage.tokens.reasoning)])
  }

  function UsageValue(usage: Option<Usage>): Option<Json> {
    if usage.None? then None
    else
      var u := usage.value;
      var split := if u.byModel == map[] then None else Some(Obj(map m | m in u.byModel :: ModelValue(u.byModel[m])));
      Some(Obj(map["model_requests" := Int(u.modelRequests),
                   "tool_calls" := Int(u.toolCalls),
                   "output_retries" := Int(u.outputRetries),
                   "input_tokens" := Count(u.tokens.input),
                   "output_tokens" := Count(u.tokens.output),
                   "cache_read_input_tokens" := Count(u.tokens.cacheRead),
                   "cache_write_input_tokens" := Count(u.tokens.cacheWrite),
                   "reasoning_output_tokens" := Count(u.tokens.reasoning)]
               + Optional("by_model", split)))
  }

  function StepValue(record: StepRecord): Json {
    Obj(map["status" := Str(StatusText(record.status))]
        + Optional("result", record.result)
        + Optional("usage", UsageValue(record.usage))
        + Optional("error", ErrorValue(record.error))
        + Optional("selection", SelectionValue(record.selection))
        + Optional("partial_result", record.partialResult)
        + Optional("kind", KindValue(record.collection)))
  }

  // One run without its attempts (`_flow_value`).
  function RunFields(record: FlowRecord): Object {
    map["status" := Str(StatusText(record.status))]
    + Optional("result", record.result)
    + Optional("usage", UsageValue(record.usage))
    + Optional("error", ErrorValue(record.error))
    + map["steps" := Obj(map n | n in record.steps :: StepValue(record.steps[n]))]
  }

  function AttemptValue(record: FlowRecord, index: nat): Json {
    Obj(map["attempt" := Int(index)] + RunFields(record))
  }

  function AttemptsValue(attempts: seq<FlowRecord>): Option<Json> {
    if attempts == [] then None
    else Some(Arr(seq(|attempts|, k requires 0 <= k < |attempts| => AttemptValue(attempts[k], k + 1))))
  }

  function FlowFields(record: FlowRecord): Object {
    RunFields(record)
    + map["attempt_count" := Int(record.AttemptCount())]
    + Optional("attempts", AttemptsValue(record.attempts))
    + Optional("attempts_usage", if record.attempts == [] then None else UsageValue(record.TotalUsage()))
    + Optional("repeat", if record.stoppedBy.None? then None
                         else Some(Obj(map["stopped_by" := Str(StopText(record.stoppedBy.value))])))
  }

  // One collection item's entry.
  function ItemEntry(id: string, flow: string, record: FlowRecord, retry: Option<FlowRecord>): Json {
    Obj(map["id" := Str(id), "flow" := Str(flow)]
        + FlowFields(record)
        + Optional("retry", if retry.None? then None else Some(Obj(FlowFields(retry.value)))))
  }
}
