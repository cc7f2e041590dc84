/** Per-step attempt accounting: reservations survive failures, and snapshots are balanced. */
module StepBudgets {
  import opened Foundations
  import opened Accounting

  // The cost estimate of one request, from its usage when it was reported.
  type Pricing = Option<Tokens> -> Option<Cost>

  datatype Attempt = Attempt(model: string, pricing: Option<Pricing>, usage: Option<Tokens>) {
    function Measured(): Usage {
      var tokens := if usage.Some? then usage.value else UNKNOWN_TOKENS;
      var cost := if pricing.Some? then pricing.value(usage) else None;
      Usage(1, 0, tokens, map[model := ModelUsage(1, tokens, cost)], 0)
    }
  }

  function Opening(tools: nat, retries: nat): Usage {
    Usage(0, tools, ZERO_TOKENS, map[], retries)
  }

  // The totals of a step: what was reserved, measured where it was reported.
  function Totals(attempts: seq<Attempt>, tools: nat, retries: nat): Usage {
    if attempts == [] then Opening(tools, retries)
    else Totals(attempts[..|attempts| - 1], tools, retries).Plus(attempts[|attempts| - 1].Measured())
  }

  predicate ModelName(model: string) {
    1 <= |model| <= 512 && exists k | 0 <= k < |model| :: !Blank(model[k])
  }

  // Tickets are one-based positions in the order of the reservations.
  class StepBudget {
    const modelLimit: nat
    const toolLimit: nat
    var attempts: seq<Attempt>
    var tools: nat
    var outputRetries: nat

    constructor (modelLimit: nat, toolLimit: nat)
      ensures this.modelLimit == modelLimit && this.toolLimit == toolLimit
      ensures attempts == [] && tools == 0 && outputRetries == 0 && Valid()
    {
      this.modelLimit, this.toolLimit := modelLimit, toolLimit;
      attempts, tools, outputRetries := [], 0, 0;
    }

    predicate Valid()
      reads this
    {
      && |attempts| <= modelLimit && tools <= toolLimit
      && forall k | 0 <= k < |attempts| && attempts[k].usage.Some? :: attempts[k].usage.value.Valid()
    }

    method StartModelRequest(model: string, pricing: Option<Pricing>) returns (r: Result<nat, ErrorCode>)
      requires Valid()
      modifies this`attempts
      ensures Valid()
      ensures r.Err? ==> attempts == old(attempts)
      ensures r == if !ModelName(model) then Err(InvalidConfiguration)
                   else if |old(attempts)| >= modelLimit then Err(ModelRequestLimitReached)
                   else Ok(|attempts|)
      ensures r.Ok? ==> attempts == old(attempts) + [Attempt(model, pricing, None)]
    {
      if !ModelName(model) {
        return Err(InvalidConfiguration);
      }
      if |attempts| >= modelLimit {
        return Err(ModelRequestLimitReached);
      }
      attempts := attempts + [Attempt(model, pricing, None)];
      return Ok(|attempts|);
    }

    // Measured once; the reservation is never refunded.
    method FinishModelRequest(ticket: int, usage: Tokens) returns (r: Result<(), ErrorCode>)
      requires Valid() && usage.Valid()
      modifies this`attempts
      ensures Valid() && |attempts| == |old(attempts)|
      ensures r.Ok? <==> 1 <= ticket <= |old(attempts)| && old(attempts)[ticket - 1].usage.None?
      ensures r.Ok? ==> attempts == old(attempts)[ticket - 1 := old(attempts)[ticket - 1].(usage := Some(usage))]
      ensures r.Err? ==> r.error == Conflict && attempts == old(attempts)
    {
      if ticket < 1 || ticket > |attempts| || attempts[ticket - 1].usage.Some? {
        return Err(Conflict);
      }
      attempts := attempts[ticket - 1 := attempts[ticket - 1].(usage := Some(usage))];
      return Ok(());
    }

    method StartToolCall() returns (r: Result<nat, ErrorCode>)
      requires Valid()
      modifies this`tools
      ensures Valid()
      ensures r == if old(tools) >= toolLimit then Err(ToolCallLimitReached) else Ok(tools)
      ensures tools == if r.Ok? then old(tools) + 1 else old(tools)
    {
      if tools >= toolLimit {
        return Err(ToolCallLimitReached);
      }
      tools := tools + 1;
      return Ok(tools);
    }

    method RecordOutputRetry()
      modifies this`outputRetries
      ensures outputRetries == old(outputRetries) + 1
    {
      outputRetries := outputRetries + 1;
    }

    method Snapshot() returns (usage: Usage)
      requires Valid()
      ensures usage == Totals(attempts, tools, outputRetries)
      ensures usage.modelRequests == |attempts| <= modelLimit && usage.toolCalls == tools <= toolLimit
      ensures outputRetries <= |attempts| ==> Balanced(usage)
    {
      usage := Opening(tools, outputRetries);
      for k := 0 to |attempts|
        invariant usage == Totals(attempts[..k], tools, outputRetries)
      {
        assert attempts[..k + 1][..k] == attempts[..k];
        usage := usage.Plus(attempts[k].Measured());
      }
      assert attempts[..|attempts|] == attempts;
      TotalsBalanced(attempts, tools, outputRetries);
    }
  }

  // ---- What a snapshot says ---------------------------------------------------------------

  function CountModel(attempts: seq<Attempt>, model: string): nat {
    if attempts == [] then 0
    else CountModel(attempts[..|attempts| - 1], model) + if attempts[|attempts| - 1].model == model then 1 else 0
  }

  // Every reserved request appears once, in the total and under its own model.
  lemma {:induction false} RequestsCounted(attempts: seq<Attempt>, tools: nat, retries: nat, model: string)
    ensures var usage := Totals(attempts, tools, retries);
            && usage.modelRequests == |attempts| && usage.toolCalls == tools && usage.outputRetries == retries
            && (model in usage.byModel <==> CountModel(attempts, model) > 0)
            && (model in usage.byModel ==> usage.byModel[model].requests == CountModel(attempts, model))
  {
    if attempts != [] {
      RequestsCounted(attempts[..|attempts| - 1], tools, retries, model);
    }
  }

  lemma OneBalanced(attempt: Attempt)
    requires attempt.usage.Some? ==> attempt.usage.value.Valid()
    ensures Balanced(attempt.Measured())
  {
    var models := attempt.Measured().byModel;
    RequestsSplit(models, attempt.model);
    assert models - {attempt.model} == map[];
  }

  // Requests and tokens of a snapshot satisfy the public contract.
  lemma {:induction false} TotalsBalanced(attempts: seq<Attempt>, tools: nat, retries: nat)
    requires forall k | 0 <= k < |attempts| && attempts[k].usage.Some? :: attempts[k].usage.value.Valid()
    ensures Totals(attempts, tools, retries).modelRequests == |attempts|
    ensures Totals(attempts, tools, retries).toolCalls == tools
    ensures retries <= |attempts| ==> Balanced(Totals(attempts, tools, retries))
  {
    TotalsApart(attempts, tools, retries);
    PartsBalanced(attempts);
    RequestsCounted(attempts, tools, retries, "");
    RequestsCounted(attempts, 0, 0, "");
  }

  // Tool calls and retries do not mix with the measured requests.
  lemma {:induction false} TotalsApart(attempts: seq<Attempt>, tools: nat, retries: nat)
    ensures Totals(attempts, tools, retries) == Totals(attempts, 0, 0).(toolCalls := tools, outputRetries := retries)
  {
    if attempts != [] {
      TotalsApart(attempts[..|attempts| - 1], tools, retries);
    }
  }

  lemma {:induction false} PartsBalanced(attempts: seq<Attempt>)
    requires forall k | 0 <= k < |attempts| && attempts[k].usage.Some? :: attempts[k].usage.value.Valid()
    ensures Balanced(Totals(attempts, 0, 0))
  {
    if attempts != [] {
      PartsBalanced(attempts[..|attempts| - 1]);
      OneBalanced(attempts[|attempts| - 1]);
      BalancedSum(Totals(attempts[..|attempts| - 1], 0, 0), attempts[|attempts| - 1].Measured());
    }
  }

  // The five counters of a report.
  datatype Counter = Inputs | Outputs | CacheReads | CacheWrites | Reasoning

  function Counted(tokens: Tokens, counter: Counter): Option<nat> {
    match counter
    case Inputs => tokens.input
    case Outputs => tokens.output
    case CacheReads => tokens.cacheRead
    case CacheWrites => tokens.cacheWrite
    case Reasoning => tokens.reasoning
  }

  function Reported(attempt: Attempt, counter: Counter): Option<nat> {
    if attempt.usage.Some? then Counted(attempt.usage.value, counter) else None
  }

  function SumReported(attempts: seq<Attempt>, counter: Counter): nat {
    if attempts == [] then 0
    else
      var last := Reported(attempts[|attempts| - 1], counter);
      SumReported(attempts[..|attempts| - 1], counter) + if last.Some? then last.value else 0
  }

  // Each counter is the sum of the reports; a single request without a report makes it
  // unavailable, and only that does.
  lemma {:induction false} TokensKnown(attempts: seq<Attempt>, tools: nat, retries: nat, counter: Counter)
    ensures Counted(Totals(attempts, tools, retries).tokens, counter)
            == if forall k | 0 <= k < |attempts| ::
                Reported(attempts[k], counter).Some? then Some(SumReported(attempts, counter))
               else None
  {
    if attempts != [] {
      var init := attempts[..|attempts| - 1];
      TokensKnown(init, tools, retries, counter);
      assert forall k | 0 <= k < |init| :: attempts[k] == init[k];
    }
  }
}
