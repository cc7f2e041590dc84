/** Whole runs: legal records, an error exactly on failure, and usage counted exactly once. */
module RunLedgers {
  import opened Foundations
  import opened Json
  import opened Plans
  import opened Accounting
  import opened Records
  import opened Engine
  import opened Acceptance
  import opened Repeats
  import opened Legality
  import opened Conservation
  import opened Trails

  // ---- Shares of the records -----------------------------------------------------------

  // The snapshots each record accounts for.
  type Shares = map<string, multiset<Usage>>

  function Share(shares: Shares, n: string): multiset<Usage> {
    if n in shares then shares[n] else multiset{}
  }

  function AllShares(order: seq<string>, shares: Shares): multiset<Usage> {
    if order == [] then multiset{}
    else AllShares(order[..|order| - 1], shares) + Share(shares, order[|order| - 1])
  }

  function RecordOf(records: FlowRecords, n: string): Option<FlowRecord> {
    if n in records then Some(records[n]) else None
  }

  // A record's total is the sum of its share.
  ghost predicate BookedAt(records: FlowRecords, shares: Shares, n: string) {
    Sums(RunTotal(RecordOf(records, n)), Share(shares, n))
  }

  ghost predicate Booked(order: seq<string>, records: FlowRecords, shares: Shares) {
    forall n {:trigger BookedAt(records, shares, n)} | n in order :: BookedAt(records, shares, n)
  }

  // The run's usage adds up the measured records in plan order.
  lemma {:induction false} BookedTotal(order: seq<string>, records: FlowRecords, shares: Shares)
    requires Booked(order, records, shares)
    ensures Sums(Total(RecordedUsage(order, records)), AllShares(order, shares))
  {
    if order == [] {
      SumsNothing();
    } else {
      var init, last := order[..|order| - 1], order[|order| - 1];
      BookedTotal(init, records, shares);
      assert order == init + [last] && BookedAt(records, shares, last);
      BookedNext(init, last, records, shares);
    }
  }

  lemma BookedNext(init: seq<string>, last: string, records: FlowRecords, shares: Shares)
    requires Sums(Total(RecordedUsage(init, records)), AllShares(init, shares)) && BookedAt(records, shares, last)
    ensures Sums(Total(RecordedUsage(init + [last], records)), AllShares(init + [last], shares))
  {
    var order := init + [last];
    assert order[..|order| - 1] == init;
    TotalNext(init, last, records);
    SumsPlus(Total(RecordedUsage(init, records)), RunTotal(RecordOf(records, last)), AllShares(init, shares),
             Share(shares, last));
  }

  lemma TotalNext(init: seq<string>, last: string, records: FlowRecords)
    ensures Total(RecordedUsage(init + [last], records)) ==
            Total(RecordedUsage(init, records)).Plus(RunTotal(RecordOf(records, last)))
  {
    var order, before := init + [last], RecordedUsage(init, records);
    assert order[..|order| - 1] == init;
    if last in records && records[last].TotalUsage().Some? {
      var all := before + [records[last].TotalUsage().value];
      assert RecordedUsage(order, records) == all && all[..|all| - 1] == before;
    } else {
      assert RecordedUsage(order, records) == before + [] == before;
      UsageMonoid(Total(before), NO_USAGE, NO_USAGE);
    }
  }

  lemma {:induction false} ShareAdded(order: seq<string>, shares: Shares, n: string, share: multiset<Usage>)
    requires n !in shares && n in order && forall j, k | 0 <= j < k < |order| :: order[j] != order[k]
    ensures AllShares(order, shares[n := share]) == AllShares(order, shares) + share
  {
    var init, last := order[..|order| - 1], order[|order| - 1];
    if last == n {
      ShareElsewhere(init, shares, n, share);
    } else {
      ShareAdded(init, shares, n, share);
    }
  }

  lemma {:induction false} ShareElsewhere(order: seq<string>, shares: Shares, n: string, share: multiset<Usage>)
    requires n !in order
    ensures AllShares(order, shares[n := share]) == AllShares(order, shares)
  {
    if order != [] {
      ShareElsewhere(order[..|order| - 1], shares, n, share);
    }
  }

  lemma {:induction false} NoShares(order: seq<string>)
    ensures AllShares(order, map[]) == multiset{}
  {
    if order != [] {
      NoShares(order[..|order| - 1]);
    }
  }

  // ---- The books while the run goes on ----------------------------------------------------

  // A record no visited flow has written.
  predicate Untried(plan: Plan, visited: set<string>, m: string) {
    m !in visited && forall v | v in visited :: !HasRetry(plan, v, m)
  }

  ghost predicate Pristine(plan: Plan, visited: set<string>, records: FlowRecords, shares: Shares) {
    forall m {:trigger Untried(plan, visited, m)} | Untried(plan, visited, m) ::
      m !in shares && (m in records ==> m in plan.flows && FlowAt(records, m) == SkippedFlow(plan.At(m)))
  }

  ghost predicate AllLegal(records: FlowRecords) {
    forall n {:trigger FlowAt(records, n)} | n in records :: LegalFlow(FlowAt(records, n), LIMIT)
  }

  ghost predicate Books(plan: Plan, visited: set<string>, records: FlowRecords, shares: Shares, w0: World, w: World) {
    && Booked(plan.order, records, shares) && Grown(w0, w) && AllShares(plan.order, shares) == Since(w0, w)
    && Pristine(plan, visited, records, shares) && AllLegal(records)
    && forall v | v in visited :: Routed(plan, v)
  }

  // The conditions of every item repeat can be followed.
  predicate ShortItemRepeats(plan: Plan) {
    forall n | n in plan.flows && plan.At(n).callable && plan.At(n).repeat.Some? ::
      ShortRepeat(plan.At(n).Repeating())
  }

  // What an accepted plan guarantees of its repeats.
  ghost predicate Settled(plan: Plan) {
    && Plans.Ordered(plan) && Filed(plan) && RetriesKnown(plan) && Steady(plan) && Legality.Bounded(plan)
  }

  lemma PlanSettled(plan: Plan)
    requires AuthoredPlan(plan) && RetriesKnown(plan) && ShortItemRepeats(plan)
    ensures Settled(plan)
  {
    forall n | n in plan.flows ensures SteadyFlow(plan, plan.At(n)) && Legality.BoundedFlow(plan, plan.At(n)) {
      assert AuthoredFlow(plan.At(n)) && RetryKnown(plan, n) && plan.At(n).name == n;
      assert forall k | 0 <= k < |plan.At(n).steps| :: AuthoredStep(plan.At(n).steps[k]);
    }
    forall n, r | HasRetry(plan, n, r) ensures Callable(plan, r) {
      assert RetryKnown(plan, n);
    }
  }

  lemma InOrder(plan: Plan, n: string)
    requires Plans.Ordered(plan) && n in plan.flows
    ensures n in plan.order
  {
    assert n in (set m | m in plan.order);
  }

  // ---- One routed flow ----------------------------------------------------------------------

  function RetryOf(plan: Plan, n: string): Option<string> {
    if n in plan.flows && plan.At(n).repeat.Some? then plan.At(n).Repeating().retryFlow else None
  }

  // Only the flow's own record and its retry flow's change, and together they account
  // for what was spent.
  ghost predicate RoutedBooks(n: string, retry: Option<string>, before: FlowRecords, after: FlowRecords, w: World,
                              w': World, own: multiset<Usage>, rest: multiset<Usage>) {
    && Grown(w, w') && own + rest == Since(w, w')
    && Untouched(n, retry, before, after)
    && Sums(RunTotal(RecordOf(after, n)), own)
    && match retry
       case None => rest == multiset{}
       case Some(r) => Sums(RunTotal(RecordOf(after, r)), rest)
  }

  predicate RetryUntried(plan: Plan, visited: set<string>, n: string, retry: Option<string>) {
    match retry
    case None => true
    case Some(r) => r in plan.flows && r != n && Untried(plan, visited, r) && HasRetry(plan, n, r)
  }

  lemma OwnerUntried(plan: Plan, visited: set<string>, n: string)
    requires Settled(plan) && Routed(plan, n) && n !in visited && forall v | v in visited :: Routed(plan, v)
    ensures Untried(plan, visited, n)
    ensures RetryUntried(plan, visited, n, RetryOf(plan, n))
  {
    if RetryOf(plan, n).Some? {
      assert HasRetry(plan, n, RetryOf(plan, n).value) && Callable(plan, RetryOf(plan, n).value);
    }
    forall v | v in visited ensures !HasRetry(plan, v, n) {
      assert HasRetry(plan, v, n) ==> Callable(plan, n);
    }
  }

  function Added(shares: Shares, n: string, retry: Option<string>, own: multiset<Usage>,
                 rest: multiset<Usage>): Shares {
    if retry.Some? then shares[n := own][retry.value := rest] else shares[n := own]
  }

  predicate Unshared(order: seq<string>, n: string, retry: Option<string>, shares: Shares, rest: multiset<Usage>) {
    match retry
    case None => rest == multiset{}
    case Some(r) => r in order && r !in shares && r != n
  }

  lemma SharesGrow(order: seq<string>, n: string, retry: Option<string>, shares: Shares, own: multiset<Usage>,
                   rest: multiset<Usage>)
    requires forall j, k | 0 <= j < k < |order| :: order[j] != order[k]
    requires n in order && n !in shares
    requires Unshared(order, n, retry, shares, rest)
    ensures AllShares(order, Added(shares, n, retry, own, rest)) == AllShares(order, shares) + (own + rest)
  {
    ShareAdded(order, shares, n, own);
    if retry.Some? {
      ShareAdded(order, shares[n := own], retry.value, rest);
    }
  }

  lemma BookedGrows(order: seq<string>, n: string, retry: Option<string>, before: FlowRecords, after: FlowRecords,
                    w: World, w': World, shares: Shares, own: multiset<Usage>, rest: multiset<Usage>)
    requires Booked(order, before, shares) && RoutedBooks(n, retry, before, after, w, w', own, rest) && retry != Some(n)
    ensures Booked(order, after, Added(shares, n, retry, own, rest))
  {
    var shares' := Added(shares, n, retry, own, rest);
    forall m | m in order ensures BookedAt(after, shares', m) {
      assert BookedAt(before, shares, m);
      if m != n && retry != Some(m) {
        assert RecordOf(after, m) == RecordOf(before, m) && Share(shares', m) == Share(shares, m);
      }
    }
  }

  lemma PristineStays(plan: Plan, visited: set<string>, n: string, before: FlowRecords, after: FlowRecords,
                      w: World, w': World, shares: Shares, own: multiset<Usage>, rest: multiset<Usage>)
    requires Pristine(plan, visited, before, shares) && n in plan.flows
    requires RoutedBooks(n, RetryOf(plan, n), before, after, w, w', own, rest)
    ensures Pristine(plan, visited + {n}, after, Added(shares, n, RetryOf(plan, n), own, rest))
  {
    forall m | Untried(plan, visited + {n}, m)
      ensures m !in Added(shares, n, RetryOf(plan, n), own, rest)
      ensures m in after ==> m in plan.flows && FlowAt(after, m) == SkippedFlow(plan.At(m))
    {
      assert Untried(plan, visited, m);
      assert n in visited + {n} && !HasRetry(plan, n, m);
    }
  }

  // Before its first run a record is unmeasured.
  predicate Unmeasured(records: FlowRecords, n: string) {
    n in records ==> records[n].attempts == [] && records[n].usage.None?
  }

  predicate RetryUnmeasured(records: FlowRecords, retry: Option<string>) {
    match retry
    case None => true
    case Some(r) => Unmeasured(records, r)
  }

  // What one routed flow spends is what its own and its retry flow's record report.
  lemma RoutedAccounts(e: Engine, n: string, payload: Json, records: FlowRecords, active: Option<string>, w: World)
    returns (own: multiset<Usage>, rest: multiset<Usage>)
    requires Settled(e.plan) && Routed(e.plan, n) && RetryOf(e.plan, n) != Some(n) && Unmeasured(records, n)
    requires RetryUnmeasured(records, RetryOf(e.plan, n))
    ensures var routed := RunRouted(e, e.plan.At(n), payload, records, active, w);
            RoutedBooks(n, RetryOf(e.plan, n), records, routed.records, w, routed.world, own, rest)
  {
    var flow := e.plan.At(n);
    assert SteadyFlow(e.plan, flow) && flow.name == n;
    var bound := FlowInput(e, n, flow.input, WorkflowContext(payload, e.metadata, records));
    if e.expired(w.tick) || bound.Err? {
      own, rest := multiset{}, multiset{};
      NothingBooked(n, RetryOf(e.plan, n), records, w, w.Next());
    } else {
      match flow.repeat
      case None =>
        FlowAccounted(e, flow, Obj(bound.value), w.Next(), 0);
        var run := ExecuteFlow(e, flow, Obj(bound.value), w.Next(), 0);
        LeaveKeeps(e, flow, payload, run.record, None, run.issues, records[n := run.record], run.world);
        own, rest := Since(w, run.world), multiset{};
        OnceBooked(n, records, run.record, w, run.world);
      case Some(repeat) =>
        LoopBegins(repeat, records, w.Next());
        LoopAccounted(e, flow, repeat, None, payload, Obj(bound.value), [], records, w.Next(), w.Next(), 0);
        AttemptsTouch(e, flow, repeat, None, payload, Obj(bound.value), records, w.Next(), 0);
        var loop := Attempts(e, flow, repeat, None, payload, Obj(bound.value), [], records, w.Next(), 0);
        if loop.outcome.Ok? {
          LeaveKeeps(e, flow, payload, loop.last, loop.outcome.value.failure, loop.outcome.value.issues, loop.records,
                     loop.world);
        }
        own, rest := LoopBooked(n, repeat, records, loop, w);
    }
  }

  lemma NothingBooked(n: string, retry: Option<string>, records: FlowRecords, w: World, w': World)
    requires w'.spent == w.spent && Unmeasured(records, n) && RetryUnmeasured(records, retry)
    ensures RoutedBooks(n, retry, records, records, w, w', multiset{}, multiset{})
  {
    SumsNothing();
    SinceNothing(w, w');
  }

  lemma OnceBooked(n: string, records: FlowRecords, record: FlowRecord, w: World, w': World)
    requires Accounted(record, w.Next(), w')
    ensures RoutedBooks(n, None, records, records[n := record], w, w', Since(w, w'), multiset{})
  {
  }

  lemma LoopShares(n: string, repeat: Repeat, loop: Loop, w: World)
    returns (own: multiset<Usage>, rest: multiset<Usage>)
    requires LoopAccounts(repeat, n, loop, w.Next())
    ensures Sums(Spent(loop.last.attempts), own) && own + rest == Since(w.Next(), loop.world)
    ensures if repeat.retryFlow.Some? then Sums(Spent(RetryRuns(repeat, loop.records)), rest) else rest == multiset{}
  {
    var spent, retried := Spent(loop.last.attempts), Spent(RetryRuns(repeat, loop.records));
    var left, right :| SumApart(spent, retried, left, right, Since(w.Next(), loop.world));
    if repeat.retryFlow.Some? {
      own, rest := left, right;
    } else {
      assert Sums(spent, left + right) by {
        SumsPlus(spent, NO_USAGE, left, right);
        UsageMonoid(spent, NO_USAGE, NO_USAGE);
      }
      own, rest := left + right, multiset{};
    }
  }

  lemma LoopBooked(n: string, repeat: Repeat, records: FlowRecords, loop: Loop, w: World)
    returns (own: multiset<Usage>, rest: multiset<Usage>)
    requires LoopAccounts(repeat, n, loop, w.Next()) && Untouched(n, repeat.retryFlow, records, loop.records)
    ensures RoutedBooks(n, repeat.retryFlow, records, loop.records, w, loop.world, own, rest)
  {
    LoopTotals(repeat, n, loop, w.Next());
    own, rest := LoopShares(n, repeat, loop, w);
    assert Since(w, loop.world) == Since(w.Next(), loop.world);
  }

  // ---- Legal records after one routed flow --------------------------------------------------

  // The records of a flow and its retry flow, if there are any, are legal.
  ghost predicate OwnLegal(records: FlowRecords, n: string, retry: Option<string>) {
    && (n in records ==> LegalFlow(FlowAt(records, n), LIMIT))
    && match retry
       case None => true
       case Some(r) => r in records ==> LegalFlow(FlowAt(records, r), LIMIT)
  }

  // A stopped run has an error.
  predicate StopsWithError(routed: RoutedRun) {
    match routed.outcome
    case Ok(Stopped(failure)) => failure.Some?
    case _ => true
  }

  lemma LeaveStops(e: Engine, flow: Flow, payload: Json, record: FlowRecord, failure: Option<Failure>,
                   issues: seq<Issue>, records: FlowRecords, w: World)
    requires LegalFlow(record, LIMIT)
    ensures StopsWithError(Leave(e, flow, payload, record, failure, issues, records, w))
  {
    assert LegalRun(record, LIMIT);
  }

  // A record a crash can close: its attempts, if any, hold its usage.
  predicate Closable(records: FlowRecords, n: string) {
    n in records && records[n].attempts == [] ==> records[n].usage.None?
  }

  lemma RoutedLegal(e: Engine, n: string, payload: Json, records: FlowRecords, active: Option<string>, w: World)
    requires Settled(e.plan) && Routed(e.plan, n) && AllLegal(records) && Unmeasured(records, n)
    requires RetryUnmeasured(records, RetryOf(e.plan, n))
    ensures var routed := RunRouted(e, e.plan.At(n), payload, records, active, w);
            && OwnLegal(routed.records, n, RetryOf(e.plan, n)) && StopsWithError(routed)
            && (routed.active.Some? && active.None? ==> routed.active == Some(n) && Closable(routed.records, n))
  {
    var flow := e.plan.At(n);
    var routed := RunRouted(e, flow, payload, records, active, w);
    assert SteadyFlow(e.plan, flow) && Legality.BoundedFlow(e.plan, flow) && flow.name == n;
    var bound := FlowInput(e, n, flow.input, WorkflowContext(payload, e.metadata, records));
    if e.expired(w.tick) || bound.Err? {
      assert routed.records == records;
    } else {
      match flow.repeat
      case None =>
        Legality.FlowLegal(e, flow, Obj(bound.value), w.Next(), 0);
        var run := ExecuteFlow(e, flow, Obj(bound.value), w.Next(), 0);
        assert LegalFlow(run.record, LIMIT);
        LeaveStops(e, flow, payload, run.record, None, run.issues, records[n := run.record], run.world);
        LeaveKeeps(e, flow, payload, run.record, None, run.issues, records[n := run.record], run.world);
        assert routed == Leave(e, flow, payload, run.record, None, run.issues, records[n := run.record], run.world);
      case Some(repeat) =>
        RepeatLegal(e, n, payload, records, bound.value, w.Next());
        RepeatLeaves(e, n, payload, records, active, bound.value, w);
    }
  }

  lemma RepeatLeaves(e: Engine, n: string, payload: Json, records: FlowRecords, active: Option<string>, input: Object,
                     w: World)
    requires e.plan.At(n).repeat.Some? && e.plan.At(n).name == n && !e.expired(w.tick)
    requires FlowInput(e, n, e.plan.At(n).input, WorkflowContext(payload, e.metadata, records)) == Ok(input)
    requires var flow := e.plan.At(n);
             LegalFlow(Attempts(e, flow, flow.Repeating(), None, payload, Obj(input), [], records, w.Next(), 0).last,
                       LIMIT)
    ensures var flow := e.plan.At(n);
            var loop := Attempts(e, flow, flow.Repeating(), None, payload, Obj(input), [], records, w.Next(), 0);
            var routed := RunRouted(e, flow, payload, records, active, w);
            && routed.records == loop.records && StopsWithError(routed)
            && (routed.active.Some? && active.None? ==> routed.active == Some(n))
  {
    var flow := e.plan.At(n);
    var loop := Attempts(e, flow, flow.Repeating(), None, payload, Obj(input), [], records, w.Next(), 0);
    match loop.outcome
    case Err(exn) =>
      assert RunRouted(e, flow, payload, records, active, w) == RoutedRun(Err(exn), loop.records, Some(n), loop.world);
    case Ok(halted) =>
      LeaveStops(e, flow, payload, loop.last, halted.failure, halted.issues, loop.records, loop.world);
      LeaveKeeps(e, flow, payload, loop.last, halted.failure, halted.issues, loop.records, loop.world);
      assert RunRouted(e, flow, payload, records, active, w)
          == Leave(e, flow, payload, loop.last, halted.failure, halted.issues, loop.records, loop.world);
  }

  lemma RepeatLegal(e: Engine, n: string, payload: Json, records: FlowRecords, input: Object, w: World)
    requires Settled(e.plan) && Routed(e.plan, n) && AllLegal(records) && e.plan.At(n).repeat.Some?
    requires RetryUnmeasured(records, RetryOf(e.plan, n))
    ensures var flow := e.plan.At(n);
            var loop := Attempts(e, flow, flow.Repeating(), None, payload, Obj(input), [], records, w, 0);
            && LegalFlow(loop.last, LIMIT) && loop.last.attempts != []
            && n in loop.records && FlowAt(loop.records, n) == loop.last
            && OwnLegal(loop.records, n, RetryOf(e.plan, n))
  {
    var flow := e.plan.At(n);
    var repeat := flow.Repeating();
    assert SteadyFlow(e.plan, flow) && Legality.BoundedFlow(e.plan, flow) && flow.name == n;
    if repeat.retryFlow.Some? && repeat.Retry() in records {
      assert LegalFlow(FlowAt(records, repeat.Retry()), LIMIT) && RunsOf(records, repeat.Retry()) == [];
    }
    LoopBegins(repeat, records, w);
    LoopAccounted(e, flow, repeat, None, payload, Obj(input), [], records, w, w, 0);
    Legality.LoopLegal(e, flow, repeat, None, payload, Obj(input), [], records, w, 0);
  }

  // ---- The drive ----------------------------------------------------------------------------------

  lemma MoveBooks(e: Engine, n: string, payload: Json, visited: set<string>, records: FlowRecords, shares: Shares,
                  w0: World, w: World)
    returns (shares': Shares)
    requires Settled(e.plan) && Routed(e.plan, n) && n !in visited && Books(e.plan, visited, records, shares, w0, w)
    ensures var routed := RunRouted(e, e.plan.At(n), payload, records, None, w);
            && Books(e.plan, visited + {n}, routed.records, shares', w0, routed.world) && StopsWithError(routed)
            && (routed.active.Some? ==> routed.active == Some(n) && Closable(routed.records, n))
  {
    var routed := RunRouted(e, e.plan.At(n), payload, records, None, w);
    OwnerUntried(e.plan, visited, n);
    var own, rest := RoutedAccounts(e, n, payload, records, None, w);
    RoutedLegal(e, n, payload, records, None, w);
    shares' := BooksMove(e.plan, n, visited, records, routed.records, shares, w0, w, routed.world, own, rest);
  }

  lemma BooksMove(plan: Plan, n: string, visited: set<string>, before: FlowRecords, after: FlowRecords, shares: Shares,
                  w0: World, w: World, w': World, own: multiset<Usage>, rest: multiset<Usage>)
    returns (shares': Shares)
    requires Settled(plan) && Routed(plan, n) && n !in visited && Books(plan, visited, before, shares, w0, w)
    requires RoutedBooks(n, RetryOf(plan, n), before, after, w, w', own, rest) && OwnLegal(after, n, RetryOf(plan, n))
    ensures Books(plan, visited + {n}, after, shares', w0, w')
  {
    var retry := RetryOf(plan, n);
    OwnerUntried(plan, visited, n);
    InOrder(plan, n);
    if retry.Some? {
      InOrder(plan, retry.value);
    }
    forall m | m in after ensures LegalFlow(FlowAt(after, m), LIMIT) {
      if m != n && retry != Some(m) {
        assert m in before && FlowAt(after, m) == FlowAt(before, m);
      }
    }
    shares' := Added(shares, n, retry, own, rest);
    SharesGrow(plan.order, n, retry, shares, own, rest);
    SinceSplits(w0, w, w');
    BookedGrows(plan.order, n, retry, before, after, w, w', shares, own, rest);
    PristineStays(plan, visited, n, before, after, w, w', shares, own, rest);
  }

  ghost predicate Closing(plan: Plan, d: Drive, shares: Shares, w0: World) {
    && Booked(plan.order, d.records, shares) && Grown(w0, d.world)
       && AllShares(plan.order, shares) == Since(w0, d.world)
    && AllLegal(d.records)
    && ActiveClosable(d) && ErrorIffFailed(d)
  }

  predicate ActiveClosable(d: Drive) {
    match d.active
    case None => true
    case Some(n) => Closable(d.records, n)
  }

  predicate ErrorIffFailed(d: Drive) {
    match d.outcome
    case Err(_) => true
    case Ok((status, failure)) => status == Failed <==> failure.Some?
  }

  lemma BooksClose(plan: Plan, visited: set<string>, records: FlowRecords, shares: Shares, w0: World, w: World,
                   d: Drive)
    requires Books(plan, visited, records, shares, w0, w) && d.records == records && d.world.spent == w.spent
    requires ActiveClosable(d) && ErrorIffFailed(d)
    ensures Closes(plan, d, w0)
  {
    assert Closing(plan, d, shares, w0);
  }

  // What a drive that ends at this flow, or before it, leaves.
  lemma DriveEnds(e: Engine, payload: Json, current: string, visited: set<string>, records: FlowRecords,
                  ts: seq<TransitionRecord>, w: World, routed: RoutedRun)
    requires Enters(e, current, visited, w) && routed == RunRouted(e, e.plan.At(current), payload, records, None,
                                                                  w.Next())
    requires Following(routed).None? && StopsWithError(routed)
    ensures var d := DriveFrom(e, payload, current, visited, records, ts, w);
            && d.records == routed.records && d.world == routed.world && (d.active.Some? ==> d.active == routed.active)
            && ErrorIffFailed(d)
  {
  }

  ghost predicate Closes(plan: Plan, d: Drive, w0: World) {
    exists closing {:trigger Closing(plan, d, closing, w0)} :: Closing(plan, d, closing, w0)
  }

  // A drive keeps its books between two flows, and where it ends it closes them.
  ghost predicate Carries(e: Engine, payload: Json, kept: (set<string>, FlowRecords, World) -> bool,
                          closed: Drive -> bool, current: string, visited: set<string>, records: FlowRecords,
                          ts: seq<TransitionRecord>, w: World) {
    var routed := RunRouted(e, e.plan.At(current), payload, records, None, w.Next());
    if Enters(e, current, visited, w) && Following(routed).Some? then
      kept(visited + {current}, routed.records, routed.world)
    else closed(DriveFrom(e, payload, current, visited, records, ts, w))
  }

  // What holds between flows all along holds of the whole drive.
  lemma {:induction false} DriveCarries(e: Engine, payload: Json, kept: (set<string>, FlowRecords, World) -> bool,
                                        closed: Drive -> bool, current: string, visited: set<string>,
                                        records: FlowRecords, ts: seq<TransitionRecord>, w: World)
    requires kept(visited, records, w)
    requires forall c, v, r, t, u {:trigger Carries(e, payload, kept, closed, c, v, r, t, u)} | kept(v, r, u) ::
               Carries(e, payload, kept, closed, c, v, r, t, u)
    ensures closed(DriveFrom(e, payload, current, visited, records, ts, w))
    decreases if |visited| < |e.plan.order| then |e.plan.order| - |visited| else 0
  {
    assert Carries(e, payload, kept, closed, current, visited, records, ts, w);
    if Enters(e, current, visited, w) {
      var routed := RunRouted(e, e.plan.At(current), payload, records, None, w.Next());
      if Following(routed).Some? {
        var t, next := routed.outcome.value.transition, Following(routed).value;
        DriveGoesOn(e, payload, current, visited, records, ts, w, routed, t, next);
        DriveCarries(e, payload, kept, closed, next, visited + {current}, routed.records, ts + [t],
                     routed.world);
      }
    }
  }

  ghost predicate Booking(plan: Plan, visited: set<string>, records: FlowRecords, w0: World, w: World) {
    exists shares {:trigger Books(plan, visited, records, shares, w0, w)} ::
        Books(plan, visited, records, shares, w0, w)
  }

  lemma BooksCarry(e: Engine, payload: Json, w0: World, current: string, visited: set<string>, records: FlowRecords,
                   ts: seq<TransitionRecord>, w: World)
    requires Settled(e.plan) && Booking(e.plan, visited, records, w0, w)
    ensures var routed := RunRouted(e, e.plan.At(current), payload, records, None, w.Next());
            if Enters(e, current, visited, w) && Following(routed).Some? then
              Booking(e.plan, visited + {current}, routed.records, w0, routed.world)
            else Closes(e.plan, DriveFrom(e, payload, current, visited, records, ts, w), w0)
  {
    var shares :| Books(e.plan, visited, records, shares, w0, w);
    var d := DriveFrom(e, payload, current, visited, records, ts, w);
    if Enters(e, current, visited, w) {
      var routed := RunRouted(e, e.plan.At(current), payload, records, None, w.Next());
      assert Since(w0, w.Next()) == Since(w0, w);
      var shares' := MoveBooks(e, current, payload, visited, records, shares, w0, w.Next());
      if Following(routed).None? {
        DriveEnds(e, payload, current, visited, records, ts, w, routed);
        BooksClose(e.plan, visited + {current}, routed.records, shares', w0, routed.world, d);
      }
    } else {
      BooksClose(e.plan, visited, records, shares, w0, w, d);
    }
  }

  // ---- The run -------------------------------------------------------------------------------------

  lemma OpeningBooks(e: Engine, w: World)
    requires Settled(e.plan)
    ensures Books(e.plan, {}, InitialRecords(e.plan), map[], w, w)
  {
    var records := InitialRecords(e.plan);
    NoShares(e.plan.order);
    SinceNothing(w, w);
    forall n | n in e.plan.order ensures BookedAt(records, map[], n) {
      SumsNothing();
      if n in records {
        assert FlowAt(records, n) == SkippedFlow(e.plan.At(n));
      }
    }
    forall n | n in records ensures LegalFlow(FlowAt(records, n), LIMIT) {
      SkippedLegal(e.plan.At(n), LIMIT);
    }
  }

  // The final ledger of a run.
  ghost predicate Settles(e: Engine, r: RunResult, w: World) {
    && Grown(w, r.world) && Sums(r.usage, Since(w, r.world)) && AllLegal(r.records)
    && (r.status == Failed <==> r.error.Some?)
  }

  // A crash closes the record of the active flow and keeps the others.
  ghost predicate Closed(plan: Plan, active: Option<string>, before: FlowRecords, after: FlowRecords) {
    && after.Keys == before.Keys
    && forall n {:trigger FlowAt(after, n)} | n in after ::
      if active == Some(n) && n in plan.flows then
        exists failure :: FlowAt(after, n) == ClosedRecord(plan.At(n), FlowAt(before, n).attempts, failure)
      else FlowAt(after, n) == FlowAt(before, n)
  }

  function ClosedRecord(flow: Flow, attempts: seq<FlowRecord>, failure: Failure): FlowRecord {
    FlowRecord(Failed, SkippedSteps(flow.steps), None, Some(NO_USAGE), Some(failure), attempts,
               if attempts == [] then None else Some(ByFailure))
  }

  lemma CrashCloses(e: Engine, payload: Json, exn: Exn, d: Drive, start: Option<StartRecord>)
    ensures var r := Crash(e, payload, exn, d.records, d.active, d.transitions, start, d.world);
            && Closed(e.plan, d.active, d.records, r.records) && r.world.spent == d.world.spent
            && r.usage == Total(RecordedUsage(e.plan.order, r.records)) && r.status == Failed && r.error.Some?
  {
    var failure := RecordFailure(e, exn, d.world).0;
    var after := Crash(e, payload, exn, d.records, d.active, d.transitions, start, d.world).records;
    forall n | n in after && d.active == Some(n) && n in e.plan.flows
      ensures FlowAt(after, n) == ClosedRecord(e.plan.At(n), FlowAt(d.records, n).attempts, failure)
    {
      assert after == d.records[n := ClosedRecord(e.plan.At(n), d.records[n].attempts, failure)];
    }
  }

  lemma ClosedLegal(plan: Plan, active: Option<string>, before: FlowRecords, after: FlowRecords, n: string)
    requires Closed(plan, active, before, after) && n in before && LegalFlow(FlowAt(before, n), LIMIT)
    ensures n in after && LegalFlow(FlowAt(after, n), LIMIT)
  {
    if active == Some(n) && n in plan.flows {
      SkippedStepsLegal(plan.At(n).steps, LIMIT);
    }
  }

  lemma CrashSettles(e: Engine, payload: Json, exn: Exn, d: Drive, shares: Shares, start: Option<StartRecord>, w: World)
    requires Settled(e.plan) && Closing(e.plan, d, shares, w)
    ensures Settles(e, Crash(e, payload, exn, d.records, d.active, d.transitions, start, d.world), w)
  {
    var r := Crash(e, payload, exn, d.records, d.active, d.transitions, start, d.world);
    CrashCloses(e, payload, exn, d, start);
    forall n | n in e.plan.order ensures BookedAt(r.records, shares, n) {
      assert BookedAt(d.records, shares, n);
      assert BookedAt(r.records, shares, n) by {
        assert n in r.records ==> FlowAt(r.records, n) == r.records[n] && FlowAt(d.records, n) == d.records[n];
      }
    }
    BookedTotal(e.plan.order, r.records, shares);
    forall n | n in r.records ensures LegalFlow(FlowAt(r.records, n), LIMIT) {
      assert LegalFlow(FlowAt(d.records, n), LIMIT);
      ClosedLegal(e.plan, d.active, d.records, r.records, n);
    }
  }

  lemma FinishSettles(e: Engine, payload: Json, status: Status, error: Option<Failure>, d: Drive, shares: Shares,
                      start: StartRecord, w: World)
    requires Settled(e.plan) && Closing(e.plan, d, shares, w) && d.outcome == Ok((status, error))
    ensures Settles(e, Finish(e, payload, status, error, d.records, d.transitions, start, d.world), w)
  {
    var r := Finish(e, payload, status, error, d.records, d.transitions, start, d.world);
    var quiet := d.(active := None);
    var late := quiet.(world := d.world.Next());
    var output := if status != Failed && e.plan.output.Some?
                  then Bindings.ResolveBinding(e.plan.output.value, WorkflowContext(payload, e.metadata, d.records))
                  else Ok(payload);
    if output.Err? {
      CrashSettles(e, payload, Error(output.error), quiet, shares, Some(start), w);
      assert r == Crash(e, payload, Error(output.error), d.records, None, d.transitions, Some(start), d.world);
    } else if e.expired(d.world.tick) {
      CrashSettles(e, payload, Error(RunTimeout), late, shares, Some(start), w);
      assert r == Crash(e, payload, Error(RunTimeout), d.records, None, d.transitions, Some(start), d.world.Next());
    } else {
      BookedTotal(e.plan.order, d.records, shares);
      assert r == RunResult(status, output.value, d.records, Total(RecordedUsage(e.plan.order, d.records)), error,
                            d.transitions, Some(start), d.world.Next());
    }
  }

  // Every run of a plan with known repeats whose item conditions can be followed ends with legal
  // records and an error exactly when it failed, and its usage is the sum of all budget snapshots,
  // each counted once: through repeats, retry flows, nested collections and failures.
  lemma RunSettles(e: Engine, payload: Json, w: World)
    requires AuthoredPlan(e.plan) && RetriesKnown(e.plan) && ShortItemRepeats(e.plan)
    ensures Settles(e, Run(e, payload, w), w)
  {
    PlanSettled(e.plan);
    OpeningBooks(e, w);
    var records, selected := InitialRecords(e.plan), SelectStart(e, payload);
    if selected.Err? {
      var d := Drive(Err(selected.error), records, None, [], w);
      CrashSettles(e, payload, selected.error, d, map[], None, w);
    } else {
      var start := selected.value;
      assert Booking(e.plan, {}, records, w, w);
      var kept := (v, r, u) => Booking(e.plan, v, r, w, u);
      var closed := d => Closes(e.plan, d, w);
      forall c, v, r, t, u | kept(v, r, u) ensures Carries(e, payload, kept, closed, c, v, r, t, u) {
        BooksCarry(e, payload, w, c, v, r, t, u);
      }
      DriveCarries(e, payload, kept, closed, start.flow, {}, records, [], w);
      var d := DriveFrom(e, payload, start.flow, {}, records, [], w);
      var closing :| Closing(e.plan, d, closing, w);
      if d.outcome.Err? {
        CrashSettles(e, payload, d.outcome.error, d, closing, Some(start), w);
      } else {
        FinishSettles(e, payload, d.outcome.value.0, d.outcome.value.1, d, closing, start, w);
      }
    }
  }

  // In one currency the reported usage is exactly the total of the snapshots; balanced
  // snapshots give a balanced total in any currencies.
  lemma UsageIsConserved(e: Engine, payload: Json, currency: string, w: World)
    requires AuthoredPlan(e.plan) && RetriesKnown(e.plan) && ShortItemRepeats(e.plan) && w.spent == []
    ensures var r := Run(e, payload, w);
            && ((forall u | u in r.world.spent :: OneCurrency(currency, u)) ==> r.usage == Total(r.world.spent))
            && ((forall u | u in r.world.spent :: Balanced(u)) ==> Balanced(r.usage))
  {
    RunSettles(e, payload, w);
    var r := Run(e, payload, w);
    assert Since(w, r.world) == multiset(r.world.spent);
    if forall u | u in r.world.spent :: OneCurrency(currency, u) {
      SumsExactly(currency, r.usage, r.world.spent);
    }
    if forall u | u in r.world.spent :: Balanced(u) {
      SumsBalanced(r.usage, multiset(r.world.spent));
    }
  }

  // What the reported usage counts of a run, in plain numbers: the requests, tool calls, retries
  // and known token counts of the snapshots taken, each summed up.
  lemma RunCounts(e: Engine, payload: Json, w: World)
    requires AuthoredPlan(e.plan) && RetriesKnown(e.plan) && ShortItemRepeats(e.plan) && w.spent == []
    ensures var r := Run(e, payload, w);
            && Counts(r.usage, r.world.spent)
            && r.usage.toolCalls == Summed(r.world.spent, ToolCalls)
            && r.usage.modelRequests == Summed(r.world.spent, ModelRequests)
  {
    RunSettles(e, payload, w);
    var r := Run(e, payload, w);
    assert Since(w, r.world) == multiset(r.world.spent);
    SumsCounts(r.usage, r.world.spent);
    assert Tally(r.usage, ToolCalls) == Summed(r.world.spent, ToolCalls);
    assert Tally(r.usage, ModelRequests) == Summed(r.world.spent, ModelRequests);
  }

  // The cost it reports for a model is the sum of the snapshots' amounts, within one currency.
  lemma RunCosts(e: Engine, payload: Json, currency: string, w: World, model: string)
    requires AuthoredPlan(e.plan) && RetriesKnown(e.plan) && ShortItemRepeats(e.plan) && w.spent == []
    requires forall u | u in Run(e, payload, w).world.spent :: OneCurrency(currency, u)
    ensures var r := Run(e, payload, w); Costs(r.usage, model, currency, r.world.spent)
  {
    UsageIsConserved(e, payload, currency, w);
    TotalCosts(currency, Run(e, payload, w).world.spent, model);
  }
}
