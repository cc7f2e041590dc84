/** Measured usage: token counts, estimated cost, per-model splits and their sums. */
module Accounting {
  import opened Foundations

  // ---- Tokens ------------------------------------------------------------------

  // An unavailable measurement stays None, including the component subsets.
  datatype Tokens = Tokens(
    input: Option<nat>,
    output: Option<nat>,
    cacheRead: Option<nat>,
    cacheWrite: Option<nat>,
    reasoning: Option<nat>)
  {
    // What construction accepts: a subset never exceeds its known total.
    predicate Valid() {
      WithinTotal(cacheRead, input) && WithinTotal(cacheWrite, input) && WithinTotal(reasoning, output)
    }

    function Plus(other: Tokens): Tokens {
      Tokens(Add(input, other.input), Add(output, other.output), Add(cacheRead, other.cacheRead),
             Add(cacheWrite, other.cacheWrite), Add(reasoning, other.reasoning))
    }
  }

  const ZERO_TOKENS := Tokens(Some(0), Some(0), Some(0), Some(0), Some(0))
  const UNKNOWN_TOKENS := Tokens(None, None, None, None, None)

  predicate WithinTotal(subset: Option<nat>, total: Option<nat>) {
    subset.Some? && total.Some? ==> subset.value <= total.value
  }

  function Add(left: Option<nat>, right: Option<nat>): Option<nat> {
    if left.None? || right.None? then None else Some(left.value + right.value)
  }

  // ---- Cost --------------------------------------------------------------------

  datatype Cost = Cost(currency: string, amount: Option<real>, reference: Option<string>)

  // Unpriced requests (None) make a priced total incomplete; a mixed sum has no amount.
  function Combine(left: Option<Cost>, right: Option<Cost>): Option<Cost> {
    match (left, right)
    case (None, None) => None
    case (Some(c), None) => Some(Cost(c.currency, None, c.reference))
    case (None, Some(c)) => Some(Cost(c.currency, None, c.reference))
    case (Some(l), Some(r)) =>
      if l.currency != r.currency then Some(Cost(l.currency, None, None))
      else
        Some(Cost(l.currency,
                  if l.amount.Some? && r.amount.Some? then Some(l.amount.value + r.amount.value) else None,
                  if l.reference == r.reference then l.reference else None))
  }

  predicate In(currency: string, cost: Option<Cost>) {
    cost.Some? ==> cost.value.currency == currency
  }

  lemma CombineLaws(currency: string, a: Option<Cost>, b: Option<Cost>, c: Option<Cost>)
    ensures Combine(Combine(a, b), c) == Combine(a, Combine(b, c))
    ensures In(currency, a) && In(currency, b) ==> Combine(a, b) == Combine(b, a) && In(currency, Combine(a, b))
  {
  }

  // ---- Usage -------------------------------------------------------------------

  datatype ModelUsage = ModelUsage(requests: nat, tokens: Tokens, cost: Option<Cost>) {
    function Plus(other: ModelUsage): ModelUsage {
      ModelUsage(requests + other.requests, tokens.Plus(other.tokens), Combine(cost, other.cost))
    }
  }

  // The per-model split, keyed by provider model ID.
  type Models = map<string, ModelUsage>

  function Merge(left: Models, right: Models): Models {
    map m | m in left.Keys + right.Keys ::
      if m !in right then left[m]
      else if m !in left then right[m]
      else left[m].Plus(right[m])
  }

  // _merge_models as it is written: the right entries are folded into a copy.
  method MergeModels(left: Models, right: Models) returns (merged: Models)
    ensures merged == Merge(left, right)
  {
    if right == map[] {
      assert Merge(left, right) == left;
      return left;
    }
    merged := left;
    var rest := right.Keys;
    while rest != {}
      invariant rest <= right.Keys && merged.Keys == left.Keys + (right.Keys - rest)
      invariant forall m | m in merged :: merged[m] == if m in rest then left[m] else Merge(left, right)[m]
    {
      var model :| model in rest;
      var usage := right[model];
      merged := merged[model := if model in merged then merged[model].Plus(usage) else usage];
      rest := rest - {model};
    }
  }

  datatype Usage = Usage(modelRequests: nat, toolCalls: nat, tokens: Tokens, byModel: Models, outputRetries: nat) {
    function Plus(other: Usage): Usage {
      Usage(modelRequests + other.modelRequests,
            toolCalls + other.toolCalls,
            tokens.Plus(other.tokens),
            Merge(byModel, other.byModel),
            outputRetries + other.outputRetries)
    }
  }

  const NO_USAGE := Usage(0, 0, ZERO_TOKENS, map[], 0)

  predicate OneCurrency(currency: string, usage: Usage) {
    forall m | m in usage.byModel :: In(currency, usage.byModel[m].cost)
  }

  // ---- Laws of addition --------------------------------------------------------

  lemma TokenLaws(a: Tokens, b: Tokens, c: Tokens)
    ensures a.Plus(b) == b.Plus(a)
    ensures a.Plus(b).Plus(c) == a.Plus(b.Plus(c))
    ensures a.Plus(ZERO_TOKENS) == a
    ensures a.Valid() && b.Valid() ==> a.Plus(b).Valid()
  {
  }

  lemma ModelLaws(currency: string, a: ModelUsage, b: ModelUsage, c: ModelUsage)
    ensures a.Plus(b).Plus(c) == a.Plus(b.Plus(c))
    ensures In(currency, a.cost) && In(currency, b.cost) ==> a.Plus(b) == b.Plus(a)
  {
    TokenLaws(a.tokens, b.tokens, c.tokens);
    CombineLaws(currency, a.cost, b.cost, c.cost);
  }

  lemma MergeAssociative(a: Models, b: Models, c: Models)
    ensures Merge(Merge(a, b), c) == Merge(a, Merge(b, c))
  {
    var l, r := Merge(Merge(a, b), c), Merge(a, Merge(b, c));
    assert l.Keys == r.Keys;
    forall m | m in l ensures l[m] == r[m] {
      if m in a && m in b && m in c {
        ModelLaws("", a[m], b[m], c[m]);
      }
    }
  }

  lemma MergeCommutative(currency: string, a: Models, b: Models)
    requires forall m | m in a :: In(currency, a[m].cost)
    requires forall m | m in b :: In(currency, b[m].cost)
    ensures Merge(a, b) == Merge(b, a)
    ensures forall m | m in Merge(a, b) :: In(currency, Merge(a, b)[m].cost)
  {
    var l, r := Merge(a, b), Merge(b, a);
    assert l.Keys == r.Keys;
    forall m | m in l ensures l[m] == r[m] && In(currency, l[m].cost) {
      if m in a && m in b {
        ModelLaws(currency, a[m], b[m], a[m]);
      }
    }
  }

  // Usage is a monoid, whatever the currencies.
  lemma UsageMonoid(a: Usage, b: Usage, c: Usage)
    ensures a.Plus(b).Plus(c) == a.Plus(b.Plus(c))
    ensures a.Plus(NO_USAGE) == a && NO_USAGE.Plus(a) == a
  {
    TokenLaws(a.tokens, b.tokens, c.tokens);
    TokenLaws(ZERO_TOKENS, a.tokens, a.tokens);
    MergeAssociative(a.byModel, b.byModel, c.byModel);
    assert Merge(a.byModel, map[]) == a.byModel;
    assert Merge(map[], a.byModel) == a.byModel;
  }

  // Within one currency the order of summation does not matter either.
  lemma UsageCommutes(currency: string, a: Usage, b: Usage)
    requires OneCurrency(currency, a) && OneCurrency(currency, b)
    ensures a.Plus(b) == b.Plus(a) && OneCurrency(currency, a.Plus(b))
  {
    TokenLaws(a.tokens, b.tokens, a.tokens);
    MergeCommutative(currency, a.byModel, b.byModel);
  }

  // With mixed currencies it does: the first currency labels the incomplete total.
  lemma MixedCurrenciesDoNotCommute(a: Cost, b: Cost)
    requires a.currency != b.currency
    ensures Combine(Some(a), Some(b)) != Combine(Some(b), Some(a))
  {
  }

  // ---- Sums of histories ---------------------------------------------------------

  function Total(history: seq<Usage>): Usage {
    if history == [] then NO_USAGE else Total(history[..|history| - 1]).Plus(history[|history| - 1])
  }

  lemma {:induction false} TotalConcat(a: seq<Usage>, b: seq<Usage>)
    ensures Total(a + b) == Total(a).Plus(Total(b))
    decreases |b|
  {
    if b == [] {
      assert a + b == a;
      UsageMonoid(Total(a), NO_USAGE, NO_USAGE);
    } else {
      var last := b[|b| - 1];
      assert (a + b)[..|a + b| - 1] == a + b[..|b| - 1];
      TotalConcat(a, b[..|b| - 1]);
      UsageMonoid(Total(a), Total(b[..|b| - 1]), last);
    }
  }

  lemma {:induction false} TotalCurrency(currency: string, history: seq<Usage>)
    requires forall u | u in history :: OneCurrency(currency, u)
    ensures OneCurrency(currency, Total(history))
    decreases |history|
  {
    if history != [] {
      TotalCurrency(currency, history[..|history| - 1]);
      UsageCommutes(currency, Total(history[..|history| - 1]), history[|history| - 1]);
    }
  }

  // ---- Requests are split completely ----------------------------------------------

  ghost function Requests(models: Models): nat
    decreases |models|
  {
    if models == map[] then 0
    else
      var m :| m in models;
      models[m].requests + Requests(models - {m})
  }

  lemma {:induction false} RequestsWithout(models: Models, m: string)
    requires m in models
    ensures Requests(models) == models[m].requests + Requests(models - {m})
    decreases |models|
  {
    var first :| first in models && Requests(models) == models[first].requests + Requests(models - {first});
    if first != m {
      RequestsWithout(models - {first}, m);
      RequestsWithout(models - {m}, first);
      assert models - {first} - {m} == models - {m} - {first};
    }
  }

  lemma MergeWithout(left: Models, right: Models, m: string)
    ensures Merge(left, right) - {m} == Merge(left - {m}, right - {m})
  {
  }

  lemma RequestsSplit(models: Models, m: string)
    ensures Requests(models) == (if m in models then models[m].requests else 0) + Requests(models - {m})
  {
    if m in models {
      RequestsWithout(models, m);
    } else {
      assert models - {m} == models;
    }
  }

  lemma {:induction false} MergeRequests(left: Models, right: Models)
    ensures Requests(Merge(left, right)) == Requests(left) + Requests(right)
    decreases |right|
  {
    if right == map[] {
      assert Merge(left, right) == left;
    } else {
      var m :| m in right;
      assert |right - {m}| < |right|;
      MergeRequests(left - {m}, right - {m});
      MergeWithout(left, right, m);
      RequestsSplit(left, m);
      RequestsSplit(right, m);
      RequestsSplit(Merge(left, right), m);
    }
  }

  // What the public contract demands of a reported usage.
  ghost predicate Balanced(usage: Usage) {
    && usage.modelRequests == Requests(usage.byModel)
    && usage.outputRetries <= usage.modelRequests
    && usage.tokens.Valid()
    && forall m | m in usage.byModel :: usage.byModel[m].tokens.Valid() && usage.byModel[m].requests >= 1
  }

  lemma BalancedSum(a: Usage, b: Usage)
    requires Balanced(a) && Balanced(b)
    ensures Balanced(a.Plus(b))
  {
    MergeRequests(a.byModel, b.byModel);
    TokenLaws(a.tokens, b.tokens, a.tokens);
    var merged := Merge(a.byModel, b.byModel);
    forall m | m in merged ensures merged[m].tokens.Valid() && merged[m].requests >= 1 {
      if m in a.byModel && m in b.byModel {
        TokenLaws(a.byModel[m].tokens, b.byModel[m].tokens, a.byModel[m].tokens);
      }
    }
  }

  // Every total of balanced snapshots is balanced: requests are neither lost nor
  // counted twice by the per-model split, and no subset outgrows its total.
  lemma {:induction false} BalancedTotal(history: seq<Usage>)
    requires forall u | u in history :: Balanced(u)
    ensures Balanced(Total(history))
    decreases |history|
  {
    if history != [] {
      BalancedTotal(history[..|history| - 1]);
      BalancedSum(Total(history[..|history| - 1]), history[|history| - 1]);
    }
  }

  // ---- Each snapshot counted exactly once -------------------------------------------

  // The usage is the sum of the snapshots, in some order.
  ghost predicate Sums(usage: Usage, snapshots: multiset<Usage>) {
    exists order :: SumsInOrder(usage, snapshots, order)
  }

  predicate SumsInOrder(usage: Usage, snapshots: multiset<Usage>, order: seq<Usage>) {
    multiset(order) == snapshots && usage == Total(order)
  }

  lemma SumsNothing()
    ensures Sums(NO_USAGE, multiset{})
  {
    var nothing: seq<Usage> := [];
    assert SumsInOrder(NO_USAGE, multiset{}, nothing);
  }

  lemma TotalOne(usage: Usage)
    ensures Total([usage]) == usage
  {
    UsageMonoid(usage, NO_USAGE, NO_USAGE);
    assert [usage][..0] == [];
  }

  lemma SumsOne(usage: Usage)
    ensures Sums(usage, multiset{usage})
  {
    TotalOne(usage);
    assert SumsInOrder(usage, multiset{usage}, [usage]);
  }

  // Adding usages adds their snapshots, however they interleaved.
  lemma SumsPlus(a: Usage, b: Usage, left: multiset<Usage>, right: multiset<Usage>)
    requires Sums(a, left) && Sums(b, right)
    ensures Sums(a.Plus(b), left + right)
  {
    var p :| SumsInOrder(a, left, p);
    var q :| SumsInOrder(b, right, q);
    TotalConcat(p, q);
    assert SumsInOrder(a.Plus(b), left + right, p + q);
  }

  lemma FindLast<T>(p: seq<T>, q: seq<T>) returns (k: nat)
    requires p != [] && multiset(p) == multiset(q)
    ensures k < |q| && q[k] == p[|p| - 1]
    ensures multiset(q[..k] + q[k + 1..]) == multiset(p[..|p| - 1])
    ensures forall x | x in q :: x in p
  {
    var last := p[|p| - 1];
    assert last in multiset(q);
    k :| 0 <= k < |q| && q[k] == last;
    assert q == q[..k] + [last] + q[k + 1..];
    assert p == p[..|p| - 1] + [last];
    assert multiset(q) == multiset(q[..k] + q[k + 1..]) + multiset{last};
    assert multiset(p) == multiset(p[..|p| - 1]) + multiset{last};
    assert multiset(q[..k] + q[k + 1..]) == multiset(q) - multiset{last};
    forall x | x in q ensures x in p {
      assert x in multiset(p);
    }
  }

  // Within one currency the order is immaterial.
  lemma {:induction false} TotalPermuted(currency: string, p: seq<Usage>, q: seq<Usage>)
    requires multiset(p) == multiset(q) && forall u | u in p :: OneCurrency(currency, u)
    ensures Total(p) == Total(q)
    decreases |p|
  {
    if p == [] {
      assert |multiset(q)| == 0;
      assert q == [];
    } else {
      var k := FindLast(p, q);
      TotalPermuted(currency, p[..|p| - 1], q[..k] + q[k + 1..]);
      TotalMoved(currency, q, k);
    }
  }

  lemma Rotate(currency: string, a: Usage, b: Usage, c: Usage)
    requires OneCurrency(currency, b) && OneCurrency(currency, c)
    ensures a.Plus(c.Plus(b)) == a.Plus(b).Plus(c)
  {
    UsageCommutes(currency, b, c);
    UsageMonoid(a, b, c);
  }

  lemma TotalMoved(currency: string, q: seq<Usage>, k: nat)
    requires k < |q| && forall u | u in q :: OneCurrency(currency, u)
    ensures Total(q) == Total(q[..k] + q[k + 1..]).Plus(q[k])
  {
    var before, after := q[..k], q[k + 1..];
    assert q == before + ([q[k]] + after);
    TotalConcat(before, [q[k]] + after);
    TotalConcat([q[k]], after);
    TotalConcat(before, after);
    TotalOne(q[k]);
    TotalCurrency(currency, after);
    Rotate(currency, Total(before), Total(after), q[k]);
  }

  // Then the usage is the total of the snapshots as they were taken.
  lemma SumsExactly(currency: string, usage: Usage, history: seq<Usage>)
    requires Sums(usage, multiset(history)) && forall u | u in history :: OneCurrency(currency, u)
    ensures usage == Total(history)
  {
    var p :| SumsInOrder(usage, multiset(history), p);
    forall u | u in p ensures OneCurrency(currency, u) {
      assert u in multiset(p);
    }
    TotalPermuted(currency, p, history);
  }

  lemma SumsBalanced(usage: Usage, snapshots: multiset<Usage>)
    requires Sums(usage, snapshots) && forall u | u in snapshots :: Balanced(u)
    ensures Balanced(usage)
  {
    var p :| SumsInOrder(usage, snapshots, p);
    forall u | u in p ensures Balanced(u) {
      assert u in multiset(p);
    }
    BalancedTotal(p);
  }

  // ---- What a total counts --------------------------------------------------------------

  // The five token counts.
  datatype Field = Input | Output | CacheRead | CacheWrite | Reasoning

  // The whole numbers a usage counts; a token count of the whole usage or of one model counts
  // nothing while it is unknown.
  datatype Counter =
    | ModelRequests
    | ToolCalls
    | OutputRetries
    | RequestsTo(model: string)
    | TokensSpent(scope: Option<string>, field: Field)

  function TokensOf(usage: Usage, scope: Option<string>): Tokens {
    match scope
    case None => usage.tokens
    case Some(model) => if model in usage.byModel then usage.byModel[model].tokens else ZERO_TOKENS
  }

  function TokenCount(usage: Usage, scope: Option<string>, field: Field): Option<nat> {
    var tokens := TokensOf(usage, scope);
    match field
    case Input => tokens.input
    case Output => tokens.output
    case CacheRead => tokens.cacheRead
    case CacheWrite => tokens.cacheWrite
    case Reasoning => tokens.reasoning
  }

  function Tally(usage: Usage, counter: Counter): nat {
    match counter
    case ModelRequests => usage.modelRequests
    case ToolCalls => usage.toolCalls
    case OutputRetries => usage.outputRetries
    case RequestsTo(model) => if model in usage.byModel then usage.byModel[model].requests else 0
    case TokensSpent(scope, field) =>
      match TokenCount(usage, scope, field)
      case Some(count) => count
      case None => 0
  }

  // The sum of one number over a history.
  function Summed(history: seq<Usage>, counter: Counter): nat {
    if history == [] then 0 else Tally(history[0], counter) + Summed(history[1..], counter)
  }

  // The sum of a token count: unknown as soon as one snapshot did not report it.
  function KnownSum(history: seq<Usage>, scope: Option<string>, field: Field): Option<nat> {
    if forall usage | usage in history :: TokenCount(usage, scope, field).Some?
    then Some(Summed(history, TokensSpent(scope, field))) else None
  }

  lemma {:induction false} SummedConcat(a: seq<Usage>, b: seq<Usage>, counter: Counter)
    ensures Summed(a + b, counter) == Summed(a, counter) + Summed(b, counter)
  {
    if a == [] {
      assert a + b == b;
    } else {
      assert (a + b)[1..] == a[1..] + b;
      SummedConcat(a[1..], b, counter);
    }
  }

  lemma SummedLast(history: seq<Usage>, counter: Counter)
    requires history != []
    ensures var init, last := history[..|history| - 1], history[|history| - 1];
            Summed(history, counter) == Summed(init, counter) + Tally(last, counter)
  {
    var init, last := history[..|history| - 1], history[|history| - 1];
    assert history == init + [last];
    SummedConcat(init, [last], counter);
  }

  // A total counts what its snapshots count: its requests, tool calls and retries and the
  // requests of each model are the sums of theirs.
  lemma {:induction false} TotalCounts(history: seq<Usage>, counter: Counter)
    requires !counter.TokensSpent?
    ensures Tally(Total(history), counter) == Summed(history, counter)
    decreases |history|
  {
    if history != [] {
      TotalCounts(history[..|history| - 1], counter);
      SummedLast(history, counter);
    }
  }

  lemma PlusReports(a: Usage, b: Usage, scope: Option<string>, field: Field)
    ensures TokenCount(a.Plus(b), scope, field) == Add(TokenCount(a, scope, field), TokenCount(b, scope, field))
  {
    TokenLaws(TokensOf(a, scope), ZERO_TOKENS, ZERO_TOKENS);
    TokenLaws(ZERO_TOKENS, TokensOf(b, scope), ZERO_TOKENS);
    TokenLaws(TokensOf(b, scope), ZERO_TOKENS, ZERO_TOKENS);
  }

  // Each token count is the sum when every snapshot reported it, and unknown otherwise.
  lemma {:induction false} TotalReports(history: seq<Usage>, scope: Option<string>, field: Field)
    ensures TokenCount(Total(history), scope, field) == KnownSum(history, scope, field)
    decreases |history|
  {
    if history != [] {
      var init, last := history[..|history| - 1], history[|history| - 1];
      TotalReports(init, scope, field);
      PlusReports(Total(init), last, scope, field);
      SummedLast(history, TokensSpent(scope, field));
      assert history == init + [last];
    }
  }

  lemma {:induction false} SummedPermuted(p: seq<Usage>, q: seq<Usage>, counter: Counter)
    requires multiset(p) == multiset(q)
    ensures Summed(p, counter) == Summed(q, counter)
    decreases |p|
  {
    if p == [] {
      assert |multiset(q)| == 0;
      assert q == [];
    } else {
      var k := FindLast(p, q);
      SummedPermuted(p[..|p| - 1], q[..k] + q[k + 1..], counter);
      SummedLast(p, counter);
      assert q == q[..k] + ([q[k]] + q[k + 1..]);
      SummedConcat(q[..k], [q[k]] + q[k + 1..], counter);
      SummedConcat([q[k]], q[k + 1..], counter);
      SummedConcat(q[..k], q[k + 1..], counter);
    }
  }

  // Whatever the currencies and the order, a usage that sums a history counts what it counts.
  lemma SumsCount(usage: Usage, history: seq<Usage>, counter: Counter)
    requires Sums(usage, multiset(history)) && !counter.TokensSpent?
    ensures Tally(usage, counter) == Summed(history, counter)
  {
    var p :| SumsInOrder(usage, multiset(history), p);
    TotalCounts(p, counter);
    SummedPermuted(p, history, counter);
  }

  lemma SumsReport(usage: Usage, history: seq<Usage>, scope: Option<string>, field: Field)
    requires Sums(usage, multiset(history))
    ensures TokenCount(usage, scope, field) == KnownSum(history, scope, field)
  {
    var p :| SumsInOrder(usage, multiset(history), p);
    TotalReports(p, scope, field);
    SummedPermuted(p, history, TokensSpent(scope, field));
    forall u ensures u in p <==> u in history {
      assert u in multiset(p) <==> u in multiset(history);
    }
  }

  // Requests, tool calls, retries and the requests of each model are the sums over the history;
  // a token count is their sum if every snapshot reported it, and unknown if one did not.
  ghost predicate Counts(usage: Usage, history: seq<Usage>) {
    && (forall counter: Counter | !counter.TokensSpent? :: Tally(usage, counter) == Summed(history, counter))
    && forall scope, field :: TokenCount(usage, scope, field) == KnownSum(history, scope, field)
  }

  lemma SumsCounts(usage: Usage, history: seq<Usage>)
    requires Sums(usage, multiset(history))
    ensures Counts(usage, history)
  {
    forall counter: Counter | !counter.TokensSpent? ensures Tally(usage, counter) == Summed(history, counter) {
      SumsCount(usage, history, counter);
    }
    forall scope, field ensures TokenCount(usage, scope, field) == KnownSum(history, scope, field) {
      SumsReport(usage, history, scope, field);
    }
  }

  // ---- What a total costs ---------------------------------------------------------------

  // The cost estimated for one model, where the usage has it.
  function CostOf(usage: Usage, model: string): Option<Cost> {
    if model in usage.byModel then usage.byModel[model].cost else None
  }

  // The requests to the model, if any, all have a price.
  predicate Priced(usage: Usage, model: string) {
    model in usage.byModel ==> usage.byModel[model].cost.Some? && usage.byModel[model].cost.value.amount.Some?
  }

  function Amount(usage: Usage, model: string): real {
    match CostOf(usage, model)
    case Some(Cost(_, Some(amount), _)) => amount
    case _ => 0.0
  }

  function SummedAmount(history: seq<Usage>, model: string): real {
    if history == [] then 0.0
    else SummedAmount(history[..|history| - 1], model) + Amount(history[|history| - 1], model)
  }

  predicate Occurs(history: seq<Usage>, model: string) {
    exists u :: u in history && model in u.byModel
  }

  predicate Estimated(history: seq<Usage>, model: string) {
    exists u :: u in history && CostOf(u, model).Some?
  }

  predicate AllPriced(history: seq<Usage>, model: string) {
    forall u | u in history :: Priced(u, model)
  }

  // A total has a model when some snapshot has it, and an estimate for it when some snapshot
  // has one: of this amount if all of its requests have a price, and without an amount if not.
  predicate Costs(usage: Usage, model: string, currency: string, history: seq<Usage>) {
    && (model in usage.byModel <==> Occurs(history, model))
    && match CostOf(usage, model)
       case None => !Estimated(history, model)
       case Some(cost) =>
         && Estimated(history, model) && cost.currency == currency
         && cost.amount == if AllPriced(history, model) then Some(SummedAmount(history, model)) else None
  }

  // Within one currency.
  lemma {:induction false} TotalCosts(currency: string, history: seq<Usage>, model: string)
    requires forall u | u in history :: OneCurrency(currency, u)
    ensures Costs(Total(history), model, currency, history)
    decreases |history|
  {
    if history != [] {
      var init, last := history[..|history| - 1], history[|history| - 1];
      TotalCosts(currency, init, model);
      CostsPlus(currency, Total(init), init, last, model);
      assert history == init + [last];
    }
  }

  lemma CostsPlus(currency: string, usage: Usage, init: seq<Usage>, last: Usage, model: string)
    requires Costs(usage, model, currency, init) && OneCurrency(currency, last)
    ensures Costs(usage.Plus(last), model, currency, init + [last])
  {
    Appended(init, last, model);
    if !Estimated(init, model) {
      NothingCosts(init, model);
    }
    if !Occurs(init, model) {
      assert AllPriced(init, model);
    } else if !Estimated(init, model) {
      var u :| u in init && model in u.byModel;
      assert !Priced(u, model);
    }
  }

  lemma Appended(init: seq<Usage>, last: Usage, model: string)
    ensures var history := init + [last];
            && (Occurs(history, model) <==> Occurs(init, model) || model in last.byModel)
            && (Estimated(history, model) <==> Estimated(init, model) || CostOf(last, model).Some?)
            && (AllPriced(history, model) <==> AllPriced(init, model) && Priced(last, model))
            && SummedAmount(history, model) == SummedAmount(init, model) + Amount(last, model)
  {
    var history := init + [last];
    assert history[..|history| - 1] == init;
    assert forall u :: u in history <==> u in init || u == last;
  }

  lemma {:induction false} NothingCosts(history: seq<Usage>, model: string)
    requires forall u | u in history :: CostOf(u, model).None?
    ensures SummedAmount(history, model) == 0.0
    decreases |history|
  {
    if history != [] {
      NothingCosts(history[..|history| - 1], model);
    }
  }
}
