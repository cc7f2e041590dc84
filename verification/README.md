# Foliqant: accepted workflows do not go wrong

Foliqant compiles a workflow (flows of steps, routes between flows, bounded repeats, nested
collections) into an immutable plan, and an engine runs accepted plans. This project models the
compiler's offline checks and the engine, and proves what the first promises about the second, for
every plan, payload and run. `dafny verify dfyconfig.toml` checks everything.

## How the model is built

- **Plans and data.** `Plans`, `Json`, `Pointers`, `Bindings`, `Conditions`, `Records`, `Accounting`
  hold the plan datatypes, JSON values, RFC 6901 pointers, bindings, conditions, execution records
  and usage sums.
- **The engine.** `Engine` gives the meaning of a run as functions of the plan, the payload and
  three oracles: the clock, the step executor and the input validator. Every question to an oracle
  has its own tick, so the functions cover every behaviour of the environment: completed, review,
  failure, timeout, any usage. `Runner.Invocation` is the runner itself, a class whose `consumed`,
  `records` and `active` are updated in place by loops; each method is proved to do what the engine
  function says. The properties are then proved about the functions.
- **What the functions mean.** `Meaning`, `FlowTraces`, `CollectionTraces`, `RepeatInputs`,
  `RunTraces` and `RecordPointers` say what evaluation, a flow, a collection, a repeat, a run and a
  pointer into a record come to in terms of numbers, sizes, positions and the bindings themselves;
  `PointerRules`, `StaticPaths` and `StaticVerdicts` do so for what the compiler accepts and decides.
- **The compiler.** `DepthFirst`, `Dominators`, `Graphs`, `GraphValidation`, `Availability`,
  `Budget`, `Relations`, `ConditionChecks` and `LiveRoutes` keep the compiler's worklists,
  fixpoints, memo tables and growing sets as loops, each proved against a declarative specification
  (acyclic, reachable, on every entry path, ...).
- **Static analysis.** `StaticSchemas`, `StaticValues`, `StaticConditions`, `StaticScopes`,
  `StaticResults` and `StaticCompletion` model the abstract interpreter over JSON Schema views.
- **Instances.** `Towers`, `LedgerTower`, `Tightness`, `LostUsage` and `FlowRows` build accepted plans
  and environments in which a bound is attained or a promise fails.

## Main results

1. Graph validation accepts exactly the plans whose starts and targets are known, whose links are
   acyclic, whose collections nest at most sixteen deep and whose flows are all reachable
   (`GraphValidation.ValidateGraph`), and the dominator fixpoint is exactly "on every entry path"
   (`Dominators.ComputeDominators`).
2. No run of an accepted plan whose pointers have at most 64 tokens fails with
   `INVALID_CONFIGURATION` (`RunSafety.NeverMisconfigured`), and no run of an accepted plan with
   `MISSING_BINDING` when its required pointers lead somewhere in every record their step or flow
   can leave (`RunSafety.NeverMissingBinding`), as pointers to a whole payload, status or result do
   in every environment (`RunSafety.PlainNeverMissing`). Where a longer pointer is looked up, and
   only there, a binding, condition or route fails with `INVALID_CONFIGURATION`
   (`Bindings.ResolvesIffResolvable`, `Conditions.FailsIffOverlong`, `Routing.EntrySelected`).
3. A run under an unreported step budget never meets the step limit
   (`Budget.AcceptedStaysWithin`), the bound is the maximum over all routed paths
   (`Budget.CostIsMaximum`), and it is attained: for every plan certified by graph validation
   there are a certified plan of the same flows, calls, attempts and item limits and an environment
   that consume exactly the bound (`Tightness.WorstIsAttained`).
4. Whatever a pointer or binding delivers in a run is covered by its static value, so an impossible
   one never resolves; a decided static condition evaluates to its verdict; a dead route entry is
   never selected, a comparison the type check rejects never holds
   (`ConditionChecks.MismatchNeverHolds`), and a flow behind dead entries never runs
   (`LiveRoutes.DeadFlowsNeverRun`), not even as a collection item or retry flow: with any other
   flow in its place every run is the same (`LiveRoutes.DeadFlowsDoNotMatter`). The analysis does
   decide: declared paths lead to the declared schema (`StaticPaths.DeclaredPath`), what the listed
   values settle it settles (`StaticVerdicts.SettledIsTrue`), a branch they rule out is found dead and
   the flow behind it rejected (`LiveRoutes.BranchIsRejected`), and the type check accepts exactly the
   operators the declared types allow (`StaticPaths.TypeCheckIff`).
5. A step runs exactly when its condition holds in the records its predecessors left
   (`FlowTraces.FlowFollowsTrace`); collections read their list and run it in order
   (`CollectionTraces.CollectionTrace`); repeats follow their protocol
   (`Repeats.RepeatFollowsProtocol`), each attempt on exactly the input its bindings deliver
   (`RepeatInputs.RepeatIsFed`); a run delivers its output over the records its flows left one after
   the other (`RunTraces.RunTrace`); transitions form one chain over
   distinct flows (`Trails.RunTrail`), each selected in a context the compiler's scope covers
   (`LiveRoutes.RunCovered`); flows known to have completed never stopped for review
   (`Trails.RunSeparates`).
6. Every run leaves records that satisfy the public contract and a usage in which every budget
   snapshot counts once (`RunLedgers.RunSettles`, `RunLedgers.UsageIsConserved`): each counter is the
   sum of the integers in them (`RunLedgers.RunCounts`) and each model's cost the sum of their
   amounts (`RunLedgers.RunCosts`), if the conditions of its item repeats have no pointer of more than
   64 tokens. With one, usage can be lost
   (`LostUsage.ItemUsageIsLost`).
7. Ledgers of n collection levels stay within 8n + 64 JSON levels
   (`LedgerDepth.ResultsFitExecution`), and for every n up to sixteen some run of an accepted plan
   leaves a ledger of exactly that depth (`LedgerTower.BoundIsAttained`).
8. The smaller cores: three JSON equalities are one equivalence, request relations without problems
   can be scheduled, prompt templates round-trip, and admission never exceeds its bounds in any
   interleaving.

## What the proofs show about the code

- A pointer of more than 64 tokens passes compilation and raises `INVALID_CONFIGURATION` at run time
  (`src/foliqant/core/bindings.py:25-26`): `Bindings.LongPointerIsMisconfigured` is the instance, a
  pointer into the payload that every scope check admits. `Bindings.Authored` does not exclude such
  pointers; `Overlong` says when one is looked up, and that is exactly when resolution fails with
  this code.
- Such a pointer in the `until` or `continue_when` of an item repeat raises out of the item and the
  collection (`src/foliqant/core/runner.py:965-1043`), and the collection step is recorded with an
  empty usage (`src/foliqant/core/runner.py:1104`): what its items spent is lost.
  `LostUsage.DecisionFailsIff` says exactly when a decision raises, and `LostUsage.ItemUsageIsLost`
  is a plan with such a run that passes the repeat, graph, boundary and condition checks.
- For flows known to have completed the compiler drops the defaults of output pointers to
  unconditional steps, because they "can never apply" (`src/foliqant/compiler/scopes.py:323-329`).
  They do apply when the step's result lacks the value: `StaticCompletion.DefaultStillApplies` is a
  plan of two flows that passes the repeat, graph, availability and missing-value checks because of
  the dropped default, and whose run fails with `MISSING_BINDING`.
  `StaticCompletion.CompletionAgrees` is the exact condition, and the scope of completed flows is
  right exactly as far as no dropped default applied (`StaticCompletion.CompletedScopeFits`).
- The type check of `equals` and `not_equals` takes an array operand for a list of operands
  (`src/foliqant/compiler/conditions.py:187-191`) and rejects conditions that hold:
  `ConditionChecks.EqualListIsRejected` is the instance, `ConditionChecks.ArrayOperandAccepted` the
  exact condition for array sources. All other rejections are right
  (`ConditionChecks.RejectedOperandNeverEquals`, `ConditionChecks.NoArrayNeverEquals`).
- A `first_of` member that resolves to null is skipped, so a required `first_of` over available
  members can still fail with `MISSING_BINDING`: `Bindings.NullMemberIsMissing` is the instance,
  `Bindings.ResolvesIffResolvable` the exact condition.
- Usage sums commute within one currency only: `Accounting.MixedCurrenciesDoNotCommute`. Across
  currencies the total is the sum of all snapshots in some order (`Accounting.Sums`).
- A printed prompt is read back exactly when every literal before a placeholder ends in an even
  number of opening braces: `Prompts.PrintingInverts` has both directions.
- The static analysis gives up on array indexes of more than 18 digits and calls them impossible
  (`src/foliqant/compiler/static_schema.py:73-74`), though the engine selects with them:
  `StaticSchemas.NineteenDigits` is the instance, `StaticSchemas.LongIndexIsImpossible` the exact
  condition below a view of arrays. Soundness is stated for pointers without such indexes, or for
  values whose arrays are shorter than 10^18.

## What is assumed of the environment

- `Routing.Silent`: executors and validators do not report the engine's own error code in question.
- `RunSafety.PlanBacked`: a required pointer leads somewhere in every record that some visit of its
  step, or some executions of its flow, leave; of a required `first_of` some member does and is not
  null, not always the same one. Record fields need no data: status, kind and result of a step
  (`RecordFields.StepFieldsAreSure`); result, attempts and the first attempt's number, status and
  result of a flow (`RecordFields.RecordFieldsAreSure`). Values below a result or a selection need
  that whatever the executor returns or the flow delivers has them (`ResultIsSure`,
  `SelectionIsSure`, `DeliveredIsSure`).
- `StaticResults.Conforms`: accepted inputs are valid for their schemas, executors return results of
  their steps' schemas, and a single-choice decision selects one of its categories, other decisions
  none.
- `LedgerDepth.ShallowData`: accepted inputs have at most 64 levels and flow outputs only select.

## Model

| member | source | states |
|---|---|---|
| JsonEquality.EqualIffSameKey | src/foliqant/compiler/static_values.py:177-189 | two values are equal at run time exactly when their canonical keys are equal, integers, integral floats and booleans included |
| JsonEquality.EqualIffNoDifference | src/foliqant/settings.py:161-186 | two values are equal exactly when the recursive comparison reports no first difference |
| JsonEquality.OneEquivalence | src/foliqant/core/conditions.py:48-69 | run-time equality is reflexive, symmetric and transitive on all nested values |
| Pointers.TwoPassesDecode | src/foliqant/core/bindings.py:29-30 | replacing ~1 and then ~0 decodes every well-formed token as a single left-to-right pass does |
| Pointers.SpellRoundTrip | src/foliqant/compiler/scopes.py:47-49 | every token list is recovered from its spelled pointer |
| Pointers.GuardKeepsValidIndexes | src/foliqant/core/bindings.py:32-37 | the digit-length guard rejects no index that is in range |
| Pointers.LookupPointer | src/foliqant/core/bindings.py:15-42 | the token loop computes the walk of the pointer, with the two configuration errors first |
| Bindings.ResolveBindings | src/foliqant/core/bindings.py:80-89 | the dictionary loop computes the resolution of all pairs, stopping at the first error or duplicate |
| Bindings.ResolvesIffResolvable | src/foliqant/core/bindings.py:45-77 | an authored binding delivers a value exactly when a source or default is there and no pointer looked up has more than 64 tokens; it fails with INVALID_CONFIGURATION exactly at such a pointer and with MISSING_BINDING otherwise |
| Meaning.ResolvesToDelivered | src/foliqant/core/bindings.py:45-77 | what a binding resolves to is the value its source or default delivers: the pointer's, the first member that is there and not null, or the object of all fields; said without the resolver |
| Overrides.OverrideBinds | src/foliqant/core/runner.py:258-262 | overridden bindings deliver exactly the objects that hold each own name with the value of the override of that name, where there is one, and of the own binding otherwise |
| Bindings.LongPointerIsMisconfigured | src/foliqant/core/bindings.py:25-26 | a pointer of 65 tokens into the payload fails as a configuration error in every context, even with a default; one of 64 tokens delivers the default |
| Bindings.NullMemberIsMissing | src/foliqant/core/bindings.py:64-77 | a required first_of whose only member is present and null fails with MISSING_BINDING |
| Conditions.FailsIffOverlong | src/foliqant/core/conditions.py:149-165 | evaluation fails exactly when it comes to a pointer of more than 64 tokens, always with INVALID_CONFIGURATION; no data makes it fail |
| Conditions.EvaluationIsTotal | src/foliqant/core/conditions.py:149-165 | an authored condition without such pointers has a truth value in every context |
| Meaning.EvaluationMeans | src/foliqant/core/conditions.py:149-165 | unless it comes to a pointer that is too long, a condition evaluates to whether it is satisfied: all, any or not of its operands, each leaf by the meaning of its operator on the value its source delivers |
| Meaning.OperatorMeans | src/foliqant/core/conditions.py:90-146 | each operator accepts exactly the values of its meaning: presence, emptiness, equality, membership, order of numbers, sizes of texts, lists and objects, or the pattern |
| Meaning.OrdersMean | src/foliqant/core/conditions.py:76-84 | a comparison holds exactly when both sides are numbers in that order |
| Meaning.LengthsMean | src/foliqant/core/conditions.py:138-145 | a length comparison holds exactly when the number of characters, items or fields compares so |
| Meaning.OperatorInstances | src/foliqant/core/conditions.py:90-146 | five is greater than three and not the other way round, and what is present and empty among null, texts, lists and objects |
| Graphs.Reaches | src/foliqant/compiler/compiler.py:2022-2032 | the worklist search answers exactly whether a path exists |
| Graphs.Closure | src/foliqant/compiler/compiler.py:3271-3289 | the worklist collects exactly the nodes reachable from the candidates |
| DepthFirst.Explore | src/foliqant/compiler/compiler.py:2164-2202 | the iterative depth-first pass reports a cycle, excess nesting or acceptance, each with evidence: a cycle path, an over-deep flow, or ranks and exact nesting depths |
| DepthFirst.AcceptedIff | src/foliqant/compiler/compiler.py:2164-2202 | the pass accepts exactly the acyclic link graphs that nest within the limit |
| WeightedLinks.DepthBounds | src/foliqant/compiler/compiler.py:2166-2186 | no path from a flow has more collection levels than its computed depth |
| WeightedLinks.DepthAttained | src/foliqant/compiler/compiler.py:2166-2186 | some path from the flow has exactly its computed depth |
| Dominators.ComputeDominators | src/foliqant/compiler/compiler.py:2213-2234 | the changed loop ends, and a flow dominates another exactly when it is on every entry path to it |
| Dominators.ComputeAncestors | src/foliqant/compiler/compiler.py:2235-2244 | the ancestors are exactly the flows from which a non-empty path leads to the flow |
| GraphValidation.ValidateRepeats | src/foliqant/compiler/compiler.py:1956-2019 | repeats are accepted exactly when every retry flow is another callable flow without a repeat and has one owner, which is returned |
| GraphValidation.CheckTargets | src/foliqant/compiler/compiler.py:2056-2133 | a problem is reported exactly when a start, route, review or collection target is unknown or of the wrong kind, or a review completes the run |
| GraphValidation.CheckReviewLoops | src/foliqant/compiler/compiler.py:2134-2163 | a review loop is reported exactly when a review route can lead back to its own flow |
| GraphValidation.ValidateGraph | src/foliqant/compiler/compiler.py:2049-2251 | graph validation accepts exactly the acceptable plans with exact dominators and ancestors, and a rejected plan has the cycle, nesting, unreachable flow or bad target that is reported |
| Availability.ValidateBindings | src/foliqant/compiler/compiler.py:1072-1139 | the loop over steps with the growing set of earlier steps accepts exactly the flows whose required pointers read earlier unconditional steps |
| PointerRules.StepPointerRule | src/foliqant/compiler/compiler.py:1030-1045 | a step requires a pointer into another step exactly when that one stands earlier in the list and always shows what is read: anything but a handler's selection, and of a conditional step only the whole record or its status |
| PointerRules.OutputPointerRule | src/foliqant/compiler/compiler.py:1142-1195 | a flow output requires a pointer into a step exactly when it is the first one, unconditional, and no selection is read |
| PointerRules.GuardRule | src/foliqant/compiler/compiler.py:1123-1139 | a step condition is accepted exactly when its leaves read the payload, the metadata or steps that stand earlier |
| PointerRules.PointersIff | src/foliqant/compiler/conditions.py:89-96 | the pointers of a condition are exactly those its leaves read, at any depth |
| PointerRules.SkippedShows | src/foliqant/core/runner.py:249-252 | a skipped record shows nothing but its whole, its status and the kind of a collection, so no more can be relied on |
| Availability.FlowsEverywhereBefore | src/foliqant/compiler/compiler.py:2768-2792 | the intersection over the terminal flows is exactly the set of flows that dominate every one of them |
| Availability.ValidateAvailability | src/foliqant/compiler/compiler.py:2602-2867 | the availability checks accept exactly the plans whose required flow pointers are available at every input, cases binding, retry input and the workflow output, and whose repeat conditions read only flows that may have run |
| PointerRules.RoutedRule | src/foliqant/compiler/compiler.py:2602-2746 | the bindings of a routed flow are accepted exactly when each is backed at its moment on every path of the routes: on entry by flows every entry path goes through, after an attempt by the flow itself too, after a retry run by the retry flow too |
| PointerRules.ItemRule | src/foliqant/compiler/compiler.py:2895-2975 | a pointer in an item repeat is accepted exactly when it reads a result or attempts of the item's own flow or, after the retry run, of its retry flow |
| PointerRules.ScopeRule | src/foliqant/compiler/compiler.py:2506-2535 | a condition may read exactly the flow itself, flows from which a path leads to it, and the retry flows of these |
| PointerRules.OutputRule | src/foliqant/compiler/compiler.py:2768-2792 | the workflow output requires a flow exactly when every entry path to every flow a run can end at goes through it |
| Readiness.ReadyResolves | src/foliqant/compiler/compiler.py:402-470 | a binding the compiler accepts as required, and whose data is sure, resolves in every context that holds the records the compiler counts on, whatever else they hold |
| Readiness.OneMemberSuffices | src/foliqant/core/bindings.py:64-77 | of a required first_of one available member that is always there and not null suffices |
| Readiness.FlowReady | src/foliqant/compiler/compiler.py:1030-1045 | after k steps the flow context holds, for every earlier step, a record a visit of it leaves, completed or skipped as a conditional step |
| Readiness.OutputReady | src/foliqant/compiler/compiler.py:1142-1195 | after at least one step the context holds a record the first step leaves, also after an early review stop |
| Readiness.BoundaryReady | src/foliqant/compiler/compiler.py:2304-2331 | the workflow context holds, for every available flow, a record its executions leave: its result and, where runs are kept, its attempts in order |
| RecordFields.StepFieldsAreSure | src/foliqant/compiler/compiler.py:1023-1046 | status, kind and result of a step need no data: every record a visit of it leaves has them |
| RecordFields.WholeIsSure | src/foliqant/compiler/compiler.py:402-470 | a known and available pointer to the whole payload or metadata, to a step's record, status or result, or to a flow's result needs nothing of the data |
| RecordFields.SelectionIsSure | src/foliqant/compiler/compiler.py:1023-1046 | a value below a decision's selection is there when every outcome without review selects a category with it |
| RecordFields.RecordFieldsAreSure | src/foliqant/compiler/compiler.py:2255-2302 | a flow's result, and where runs are kept its attempts and the first attempt's number, status and result, need no data |
| RecordFields.DeliveredIsSure | src/foliqant/compiler/compiler.py:2255-2302 | a value below the result, of the record or of its first attempt, is there when every execution that does not fail delivers it |
| Safety.FlowSafe | src/foliqant/core/runner.py:1045-1231 | one execution of an accepted flow never fails with the code in question and delivers a result unless it failed |
| Safety.LoopSafe | src/foliqant/core/runner.py:756-861 | a repeat of an accepted flow never fails with the code in question and touches only its own and its retry flow's records |
| RunSafety.NeverMisconfigured | src/foliqant/core/runner.py:550-665 | no run of an accepted plan whose pointers have at most 64 tokens fails with INVALID_CONFIGURATION: no revisit, unknown or callable target, route without otherwise, completion on review or excess nesting |
| RunSafety.NeverMissingBinding | src/foliqant/core/runner.py:667-754 | no run of an accepted plan fails with MISSING_BINDING when each required pointer leads somewhere in every record its step or flow can leave |
| RunSafety.PlainNeverMissing | src/foliqant/core/runner.py:667-754 | no run of an accepted plan whose required pointers are all of that kind fails with MISSING_BINDING, whatever executors and input contracts deliver |
| Routing.EntrySelected | src/foliqant/core/runner.py:451-464 | selection on an authored route fails exactly when it comes to a pointer that is too long, and otherwise picks the first entry whose condition holds |
| Routing.TargetAuthored | src/foliqant/core/runner.py:486-548 | every selected target was authored on the route that matches the flow's status |
| Routing.SelectedIssueTarget | src/foliqant/core/plan.py:197-210 | issue routing selects one of the authored targets or the default |
| Routing.CaseSelected | src/foliqant/core/runner.py:514-523 | a text with a case leads to the target authored for that key and records it, a text without one and null lead to the default, and any other value is an input error |
| Routing.IssuesSelect | src/foliqant/core/plan.py:197-210 | issues that agree on one target lead there, shown with the first of them; none, an unrouted one or a disagreement leads to the default |
| Runner.Invocation.Run | src/foliqant/core/runner.py:550-665 | the run loop with its mutable invocation computes the engine's run |
| Runner.Invocation.Drive | src/foliqant/core/runner.py:590-632 | the loop over routed flows with the visited set computes the engine's drive, records and active flow included |
| Runner.Invocation.RunRouted | src/foliqant/core/runner.py:667-742 | a routed flow, repeated or not, leaves exactly the records, active flow and boundary of the engine |
| Runner.Invocation.RunRepeated | src/foliqant/core/runner.py:683-742 | the attempt loop of a routed flow computes the engine's attempts: outcome, standing record, records and world |
| Runner.Invocation.Decide | src/foliqant/core/runner.py:756-861 | the decision after an attempt changes exactly the retry flow's record and returns the engine's decision |
| Runner.Invocation.ExecuteCollection | src/foliqant/core/runner.py:863-963 | the batch check and the item loop compute the engine's collection record |
| Runner.Invocation.CheckItems | src/foliqant/core/runner.py:879-904 | the whole batch is validated before any item starts, with the first problem in order |
| Runner.Invocation.RunItem | src/foliqant/core/runner.py:965-1043 | one item's attempt loop computes the engine's item record, retry record and failure |
| Runner.Invocation.ExecuteFlow | src/foliqant/core/runner.py:1045-1231 | the step loop computes the engine's flow record, issues and step count |
| Runner.Invocation.SumUsage | src/foliqant/core/runner.py:648-652 | the loop over the records adds the usage of every measured one |
| FlowTraces.AllowedIsEntered | src/foliqant/core/runner.py:1085-1131 | before the deadline a step without a condition, or with one that holds, is counted when there is room, and runs on exactly what its bindings deliver |
| FlowTraces.ForbiddenIsSkipped | src/foliqant/core/runner.py:1085-1098 | before the deadline a step whose condition is false is passed by and changes neither records nor usage nor counters |
| FlowTraces.OperationSettles | src/foliqant/core/runner.py:1156-1184 | an operation leaves a record exactly when its executor returned in time an outcome that is accepted; otherwise it is interrupted by the stated error, and its usage is kept |
| FlowTraces.AbortRecords | src/foliqant/core/runner.py:1201-1231 | an interrupted flow and the step it was in fail with that error, timeouts named after the bound that was hit, and no other record changes |
| FlowTraces.FlowFollowsTrace | src/foliqant/core/runner.py:1045-1231 | every execution goes past its steps in order, each skipped by a false condition or completed under a true one in the records its predecessors left, up to the first that fails or asks for review, and delivers its output over the records left |
| FlowTraces.SkippedWhenFalse | src/foliqant/core/runner.py:1085-1098 | in a completed execution a step is skipped exactly when its condition was false in the records its predecessors left |
| CollectionTraces.CheckAccepts | src/foliqant/core/runner.py:879-904 | before the deadline the check accepts a list exactly when it stands, in its order, for items of distinct ids, callable flows of the step and accepted inputs, and returns those |
| CollectionTraces.CollectionTrace | src/foliqant/core/runner.py:905-963 | the items run in the order of the list, each in the world the one before left, up to the first that stops; the ledger shows each with its own record, later ones as skipped, and the status is that of the worst |
| RecordPointers.PositionSelects | src/foliqant/core/bindings.py:32-37 | a token selects an item exactly when it is the decimal spelling of the item's position |
| RecordPointers.StepPointerReads | src/foliqant/core/runner.py:147-171 | a pointer into a step reads exactly the field of that step's record |
| RecordPointers.AttemptPointerReads | src/foliqant/core/runner.py:147-171 | a pointer to the attempt at a position reads that run's field, numbered from one |
| RecordPointers.LedgerPointerReads | src/foliqant/core/execution.py:413-441 | a pointer into a ledger reads the field of the entry at that position |
| RunTraces.RunTrace | src/foliqant/core/runner.py:550-665 | every run fails at its start by that error, or goes flow by flow, each over the records and in the world the one before left; it completes or needs review exactly as its last transition says and delivers the output over the last records, or fails by the stated error |
| Budget.FlowWithin | src/foliqant/core/runner.py:1099-1101 | one flow execution consumes at most its own worst case, and with room for it never meets the limit |
| Budget.LoopWithin | src/foliqant/compiler/compiler.py:3070-3079 | attempts and retry runs together stay within the repeat's worst case |
| Budget.CollectionWithin | src/foliqant/compiler/compiler.py:3062-3069 | a collection stays within its item limit times its dearest target |
| Budget.WorstSteps | src/foliqant/compiler/compiler.py:3051-3080 | the memoised recursion returns the worst case and keeps every memo entry correct |
| Budget.LongestPath | src/foliqant/compiler/compiler.py:3136-3146 | the memoised path cost is the recursion's path cost, and every memo entry stays correct |
| Budget.CostIsMaximum | src/foliqant/compiler/compiler.py:3136-3146 | a number is the path cost exactly when every routed path from the flow costs at most it and some routed path costs exactly it |
| Budget.RunBudgetExceeded | src/foliqant/compiler/compiler.py:3148-3168 | the run budget is reported exactly when some start's most expensive path exceeds the limit |
| Budget.AcceptedStaysWithin | src/foliqant/core/runner.py:1099-1101 | for every accepted plan without that report no run consumes more than the limit or fails with STEP_LIMIT_REACHED |
| Budget.BudgetSound | src/foliqant/core/runner.py:1099-1101 | the same for every ranked plan |
| Tightness.WorstIsAttained | src/foliqant/compiler/compiler.py:3051-3080 | for every authored and certified plan and every flow of it there are an authored plan with the same certificates, flows, step names and kinds, calls, item limits, attempts, retry flows and routes and the same bound, and an environment in which one invocation consumes exactly the bound |
| Tightness.SameWorst | src/foliqant/compiler/compiler.py:3051-3080 | the bound depends on the plan's shape only: plans of the same flows, calls, limits, attempts and retry flows have the same bound, whatever they bind and guard |
| Tightness.ItemSpends | src/foliqant/core/runner.py:965-1043 | in an environment that always completes, an invocation of a filled plan spends exactly its worst case through repeats, retries and nested collections |
| Production.FlowMakes | src/foliqant/core/runner.py:1045-1231 | every result of a flow run was projected from its accepted payload and step records its own executor calls produced |
| Production.AttemptsMake | src/foliqant/core/runner.py:683-742 | every record a repeat leaves, with every retained attempt, holds such a result |
| Repeats.RepeatFollowsProtocol | src/foliqant/core/runner.py:756-861 | attempts number from one to the maximum, all but the last completed, the retry flow ran between them, until was false and continue_when held before each continuation, and the stop reason is explained by the last attempt and retry run: until true, continue_when false, attempts exhausted, a review or a failure |
| Repeats.DecideOutcome | src/foliqant/core/runner.py:756-861 | each decision either retries exactly when the attempt completed, until was false and attempts remain, or stops for the stated reason; after a retry run it goes on only if continue_when held, and stops by it only if it was false |
| RepeatInputs.NextInputBinds | src/foliqant/core/runner.py:845-858 | the next input is an object exactly when it holds each own binding of a routed flow, or each field of the item, replaced by the retry binding of its name, and the input contract accepts it |
| RepeatInputs.DecideBinds | src/foliqant/core/runner.py:756-861 | a decision to go on carries such an input over the records it leaves, a retry run ran on exactly its own bindings, and a repeat fails for want of an input only when none exists or it is too late |
| RepeatInputs.RepeatIsFed | src/foliqant/core/runner.py:683-742 | the first attempt is the execution of the first input, every later one of the next input bound in the records of the attempts and retry runs before it, and every retry run of its own bindings |
| RepeatInputs.RoutedIsFed | src/foliqant/core/runner.py:667-742 | a routed flow runs on exactly what its bindings deliver over the records before it, or not at all |
| Trails.RunTrail | src/foliqant/core/runner.py:576-632 | the transitions of every run form one chain of authored routes from its start over distinct flows whose records stand, and the status is the outcome reached |
| Trails.FlowsCompletedBefore | src/foliqant/compiler/compiler.py:2427-2443 | the loop collects exactly the ancestors none of whose review routes can reach the consumer |
| Trails.ReviewSeparation | src/foliqant/compiler/compiler.py:2427-2443 | a flow in that set which ran before the consumer finished completed, on every chain of authored routes |
| Trails.RunSeparates | src/foliqant/compiler/compiler.py:2427-2443 | on every run such a flow left its boundary as completed, and its final record is completed |
| Trails.RanBeforeIsAncestor | src/foliqant/compiler/compiler.py:2506-2535 | whatever ran before a flow is one of its ancestors, so a condition rejected for reading another flow could never see it |
| Trails.RunVisitsAncestors | src/foliqant/compiler/compiler.py:2506-2535 | on every run each flow visited before another is among the ancestors the compiler computed for it |
| Legality.CountsExecutions | src/foliqant/contracts/execution.py:588-600 | a legal record counts zero attempts exactly when skipped, and its attempts are numbered from one to the count |
| Legality.FlowLegal | src/foliqant/contracts/execution.py:409-473 | every flow execution leaves a legal record: results, errors and measurements as the status demands, partial ledgers only on failed collections, at most 1024 items in each |
| Legality.LoopLegal | src/foliqant/contracts/execution.py:588-600 | every repeat leaves a legal record with at most 64 legal attempts |
| Conservation.FlowAccounted | src/foliqant/core/runner.py:1180-1182 | the usage of a flow run is the sum of the snapshots taken during it, each once, where the conditions of item repeats can be followed |
| Conservation.CollectionAccounted | src/foliqant/core/runner.py:906-929 | the usage of a collection is the sum of the snapshots of all its items and retry runs, under the same condition |
| RunLedgers.RunSettles | src/foliqant/core/runner.py:635-665 | every run of a plan whose item repeats have no condition with a pointer of more than 64 tokens ends with legal records, an error exactly when it failed, and a usage that sums every snapshot once |
| RunLedgers.UsageIsConserved | src/foliqant/core/execution.py:276-285 | for the same plans, in one currency the reported usage equals the total of the snapshots; balanced snapshots give a balanced total |
| RunLedgers.RunCounts | src/foliqant/core/runner.py:648-652 | model requests, tool calls, output retries and each model's requests of a run are the integer sums over its snapshots, and so is each token counter that all of them know |
| RunLedgers.RunCosts | src/foliqant/core/execution.py:77-95 | within one currency the cost of a run for each model is the sum of its snapshots' amounts when all are priced |
| LostUsage.DecisionFailsIff | src/foliqant/core/runner.py:756-861 | the decision after an attempt raises exactly when until, or continue_when after a completed retry run, comes to a pointer that is too long |
| LostUsage.ItemUsageIsLost | src/foliqant/core/runner.py:1104-1231 | a plan that passes the repeat, graph, boundary and condition checks has a run that fails with INVALID_CONFIGURATION and reports no usage, although one snapshot was taken |
| Accounting.MergeModels | src/foliqant/core/execution.py:119-128 | the dictionary loop computes the per-model sum |
| Accounting.TotalCounts | src/foliqant/core/execution.py:145-152 | every counter of a total is the integer sum of the counters |
| Accounting.TotalReports | src/foliqant/core/execution.py:45-57 | a token counter of a total is the sum when all are known, and unknown otherwise |
| Accounting.TotalCosts | src/foliqant/core/execution.py:77-95 | within one currency the amount of a total for a model is the sum of the amounts when all are priced |
| Accounting.UsageMonoid | src/foliqant/core/execution.py:132-152 | adding usage is associative with the empty usage as unit |
| Accounting.UsageCommutes | src/foliqant/core/execution.py:132-152 | within one currency it is commutative |
| Accounting.MixedCurrenciesDoNotCommute | src/foliqant/core/execution.py:77-93 | costs of different currencies never combine commutatively |
| Accounting.BalancedSum | src/foliqant/contracts/execution.py:193-243 | sums keep model_requests equal to the per-model requests and every token count within its subset rules |
| Accounting.TotalPermuted | src/foliqant/core/execution.py:145-152 | within one currency the order of summation does not matter |
| StepBudgets.StepBudget.StartModelRequest | src/foliqant/core/budget.py:32-45 | a request is reserved with the next ticket unless the name is malformed or the limit is reached |
| StepBudgets.StepBudget.FinishModelRequest | src/foliqant/core/budget.py:47-63 | usage is recorded once, for a reserved ticket only |
| StepBudgets.StepBudget.Snapshot | src/foliqant/core/budget.py:76-83 | the accumulating loop returns the totals of all reservations |
| StepBudgets.RequestsCounted | src/foliqant/core/budget.py:76-83 | every reserved request counts once, in the total and under its model |
| StepBudgets.TotalsBalanced | src/foliqant/core/budget.py:76-83 | a snapshot satisfies the public usage contract |
| StepBudgets.TokensKnown | src/foliqant/core/execution.py:45-58 | each of the five counters is the sum of the reports when every request reported it, and unknown otherwise |
| StaticSchemas.ResolveReferences | src/foliqant/compiler/static_schema.py:21-44 | the loop with the seen set follows references to the first node without one, or to the unknown view |
| StaticSchemas.ResolveValid | src/foliqant/compiler/static_schema.py:21-44 | a value valid for a view is valid for its resolved view, reference cycles included |
| StaticSchemas.ChildCovers | src/foliqant/compiler/static_schema.py:49-92 | whatever a token selects from a valid value is valid for the child view, and a path called impossible selects nothing |
| StaticSchemas.LongIndexIsImpossible | src/foliqant/compiler/static_schema.py:73-74 | below a view of arrays a token that selects an item of a valid array is called impossible exactly when it has more than 18 digits |
| StaticSchemas.NineteenDigits | src/foliqant/compiler/static_schema.py:73-74 | the index 10^18 selects an item of a valid array although the analysis calls the path impossible |
| StaticPaths.ReferencesAreFollowed | src/foliqant/compiler/static_schema.py:21-45 | a chain of references over distinct nodes resolves to its last one |
| StaticPaths.DeclaredPath | src/foliqant/compiler/static_values.py:152-156 | a pointer along declared properties and items, through references, has exactly the declared schema at its end |
| StaticPaths.UndeclaredPath | src/foliqant/compiler/static_values.py:47-55 | a pointer to a property a closed object does not have, or below a scalar, is impossible |
| StaticValues.Union | src/foliqant/compiler/static_values.py:62-70 | the loop joins alternatives and flags of all members |
| StaticValues.SelectBelow | src/foliqant/compiler/static_values.py:108-149 | the loop computes the static value below a token |
| StaticValues.ExpandCovers | src/foliqant/compiler/static_values.py:77-95 | a value valid for a view is valid for one of its expanded branches |
| StaticValues.StaticPointer | src/foliqant/compiler/static_values.py:152-156 | the loop over the tokens computes the static value at a pointer, of which the covering of walks is proved |
| StaticValues.PointerCovers | src/foliqant/compiler/static_values.py:152-156 | any value a pointer finds in a covered value is covered by the static pointer |
| StaticValues.ImpossibleNeverResolves | src/foliqant/compiler/static_values.py:47-55 | a pointer with an impossible static value finds nothing |
| StaticValues.CollectTypes | src/foliqant/compiler/static_values.py:159-174 | the loop returns the types of all alternatives, or none when one is unknown |
| StaticValues.TypesCover | src/foliqant/compiler/static_values.py:159-174 | a covered value has one of the listed types |
| StaticValues.RejectedTypesShareNothing | src/foliqant/compiler/static_schema.py:136-145 | types rejected as incompatible share no value |
| StaticValues.ValuesCover | src/foliqant/compiler/static_values.py:192-215 | the key of a covered value is among the enumerated values |
| StaticConditions.BindingCovers | src/foliqant/compiler/scopes.py:231-249 | whatever a binding delivers is covered by its static value, defaults included |
| StaticConditions.ImpossibleIsMissing | src/foliqant/compiler/scopes.py:231-249 | a binding whose static value is impossible never resolves: it is missing, or a pointer in it is too long |
| StaticConditions.VerdictHolds | src/foliqant/compiler/conditions.py:109-140 | a leaf verdict is right for every covered value, and a strict one for an absent value too |
| StaticVerdicts.ValuesListed | src/foliqant/compiler/static_values.py:192-215 | constants and schemas that list their values, through choices and references, are enumerated: exactly the keys of the listed values |
| StaticVerdicts.SettledIsDecided | src/foliqant/compiler/conditions.py:109-140 | when an equality or membership comes out the same for every listed value, the verdict is that, strict exactly when it comes out so for an absent value too |
| StaticConditions.TruthHolds | src/foliqant/compiler/conditions.py:143-156 | whenever the three-valued combination decides, evaluation in a covered context returns exactly that, or INVALID_CONFIGURATION exactly at a pointer that is too long |
| StaticVerdicts.SettledIsTrue | src/foliqant/compiler/conditions.py:143-156 | a condition that such leaves settle, present or absent, is decided so |
| ConditionChecks.CheckConditions | src/foliqant/compiler/compiler.py:2446-2535 | the conditions of starts, routes, repeats and guards are accepted exactly when each that is checked reads what may have run and fits the static types; route entries behind one that always holds are not checked |
| ConditionChecks.ImpossibleIsAbsent | src/foliqant/compiler/conditions.py:174-175 | a source rejected as impossible is absent in every covered context |
| ConditionChecks.MismatchNeverHolds | src/foliqant/compiler/conditions.py:178-186 | a comparison, match or length rejected for its type is false in every covered context |
| ConditionChecks.RejectedOperandNeverEquals | src/foliqant/compiler/conditions.py:187-191 | an operand rejected for its type equals the value in no covered context, unless the operator compares with an array |
| ConditionChecks.ArrayOperandAccepted | src/foliqant/compiler/conditions.py:187-191 | equality of an array source with an array is accepted exactly when every item of the operand is null or an array |
| ConditionChecks.EqualListIsRejected | src/foliqant/compiler/conditions.py:187-191 | a condition that holds of a declared array payload is rejected |
| ConditionChecks.NoArrayNeverEquals | src/foliqant/compiler/conditions.py:187-191 | a source whose types exclude arrays equals no array, so there the rejection is right |
| StaticPaths.TypeCheckIff | src/foliqant/compiler/conditions.py:174-191 | a leaf over a declared schema is accepted exactly when the operator asks for one of the declared types and every operand could be of one |
| StaticPaths.CheckedIff | src/foliqant/compiler/conditions.py:159-191 | a condition passes the check exactly when each of its leaves does, at any depth |
| StaticPaths.ImpossibleIsRejected | src/foliqant/compiler/conditions.py:174-175 | a leaf about a path a closed payload schema does not have is rejected |
| StaticConditions.DeadEntries | src/foliqant/compiler/compiler.py:2446-2503 | the loop with its decided flag returns exactly the entries that are statically false or follow one that always holds |
| StaticVerdicts.SettledIsDead | src/foliqant/compiler/compiler.py:2446-2503 | an entry whose condition is settled false, or that follows one settled true, is among the dead entries |
| LiveRoutes.DeadNeverSelected | src/foliqant/core/runner.py:451-464 | selection in a covered context never picks a dead entry |
| LiveRoutes.ExhaustiveCases | src/foliqant/compiler/compiler.py:2538-2599 | with every allowed string covered by a case, the default is taken only for null and the value is never of another type |
| StaticPaths.ExhaustiveIff | src/foliqant/compiler/compiler.py:2538-2599 | cases over a schema that lists its texts are exhaustive exactly when every one of them has a case |
| StaticScopes.StepRecordValid | src/foliqant/compiler/scopes.py:184-228 | the bindable fields of every record a flow goes on with are valid for the record schema, the enumerated category ids of single-choice decisions included |
| StaticScopes.FlowScopeFits | src/foliqant/compiler/scopes.py:300-317 | whatever a pointer finds inside a flow is covered by its flow scope |
| StaticScopes.WorkflowScopeFits | src/foliqant/compiler/scopes.py:402-419 | whatever a pointer finds at the workflow boundary is covered by its workflow scope |
| StaticScopes.AttemptsCovered | src/foliqant/compiler/scopes.py:388-400 | the bindable attempt entries of every record are covered |
| StaticResults.LedgerValid | src/foliqant/compiler/scopes.py:52-97 | every ledger a collection builds is valid for the collection result schema |
| StaticResults.DeliveredCovered | src/foliqant/compiler/scopes.py:376-386 | whatever a flow delivers is covered by its static result |
| StaticResults.BoundaryCovered | src/foliqant/compiler/scopes.py:345-422 | a boundary context over records whose results their flows delivered is covered by the compiler's boundary scope |
| StaticCompletion.CompletionAgrees | src/foliqant/compiler/scopes.py:323-342 | where a binding delivers a value, the binding without the defaults delivers the same exactly when none of them applied, and is missing otherwise |
| StaticCompletion.CompletedScopeFits | src/foliqant/compiler/scopes.py:367-386 | whatever a pointer finds at a boundary is covered by the scope of the completed flows, provided that no dropped default applied in them |
| StaticCompletion.DefaultStillApplies | src/foliqant/compiler/compiler.py:1232-1243 | an accepted plan of two flows whose consumer passes the missing-value check only because of the dropped default, and whose run fails with MISSING_BINDING when the first flow's handler returns an object its schema allows |
| LiveRoutes.RunCovered | src/foliqant/compiler/scopes.py:345-422 | every transition of every run is selected in a context the boundary scope covers, and so is the context of the workflow output |
| LiveRoutes.CollectDead | src/foliqant/compiler/compiler.py:2613-2746 | the collected pairs are exactly the dead entries of the start and of all conditional transitions |
| LiveRoutes.RejectUnreachable | src/foliqant/compiler/compiler.py:3249-3301 | a flow is rejected only when no live path reaches it; with dead entries and no rejection every flow is live |
| LiveRoutes.UndeclaredIsDead | src/foliqant/compiler/compiler.py:2446-2503 | an entry that asks a declared field for a value it does not list is dead |
| LiveRoutes.BranchIsRejected | src/foliqant/compiler/compiler.py:3249-3301 | of a start that asks for such a value and otherwise starts another flow, the first entry is collected as dead, the second not, and only the flow it leads to is live |
| LiveRoutes.DeadFlowsNeverRun | src/foliqant/compiler/compiler.py:3249-3301 | no run starts at or moves to a flow that is not live, and its record stays skipped |
| LiveRoutes.CasesAreExhaustive | src/foliqant/core/runner.py:514-523 | at a boundary over produced records an exhaustive case route takes its default for null only and never fails on the value's type |
| LiveRoutes.DefaultIsForNull | src/foliqant/core/runner.py:514-523 | whenever a run leaves a flow with exhaustive cases by the default, the routed value was null at that boundary |
| LiveRoutes.DeadFlowsDoNotMatter | src/foliqant/compiler/compiler.py:3249-3301 | no run depends on a flow that is not live: with any other flows in the place of such flows, callable ones included, that start with the same skipped records, every run makes the same executor calls and leaves the same result |
| LedgerDepth.LedgerWithin | src/foliqant/core/execution.py:413-441 | a ledger adds at most eight levels to the results of its items |
| LedgerDepth.ResultsFitExecution | src/foliqant/core/json.py:14-18 | on an accepted plan every result and ledger of a flow has at most 8n + 64 levels, n the flow's nesting depth, so at most 192 |
| Towers.TowerCompiles | src/foliqant/compiler/compiler.py:2049-2251 | a tower of collections inside item retry flows, up to sixteen levels, passes the repeat, graph and boundary checks and the scope and type checks of its conditions |
| LedgerTower.BoundIsAttained | src/foliqant/core/execution.py:413-441 | for every n up to sixteen there are a compiled plan and an environment whose run leaves, through item retry attempts, a collection record of exactly 8n + 64 levels |
| Relations.HasDirectedCycle | src/foliqant/decisions/contracts.py:210-229 | the recursive search reports a cycle exactly when there is one, and otherwise a finishing order |
| Relations.CycleSearch.Visit | src/foliqant/decisions/contracts.py:217-227 | one visit finishes exactly the nodes reachable from it or meets a cycle |
| Relations.HasEntangled | src/foliqant/decisions/contracts.py:344-351 | an exclusive group is reported exactly when one unit of it transitively requires another |
| Relations.ValidateRelations | src/foliqant/decisions/contracts.py:292-352 | no problems are reported exactly for consistent lists, a cycle exactly when there is one, and an unreported list has a schedule that respects every requires and precedes edge |
| Prompts.CompilePrompt | src/foliqant/core/prompt.py:29-72 | the scanner loop over position, literal and parts computes the compiled template |
| Prompts.PrintingInverts | src/foliqant/core/prompt.py:45-72 | an alternating list is recovered from its printed form exactly when every literal before a placeholder ends in an even run of opening braces |
| Prompts.CompiledRoundTrip | src/foliqant/core/prompt.py:45-72 | whatever compiles alternates, names declared inputs only, and is recovered from its printed form |
| Admission.AdmissionHolds | src/foliqant/core/admission.py:19-78 | in every interleaving active work stays within the concurrency and admitted work within concurrency plus queue, permits and holders add up, and all counters return when every task has left |
| Admission.CapacityLimiter.Begin | src/foliqant/core/admission.py:55-68 | entering admits, queues or rejects the task and changes exactly the counters of that outcome |
| Admission.CapacityLimiter.Finish | src/foliqant/core/admission.py:74-78 | leaving gives back the permit and both counters |

## Left out

- EqualIffSameKey: the key's text is represented by a canonical value; that the printed form is injective on such values is assumed.
- RunSettles: usage is not claimed for plans with an item repeat whose conditions have a pointer of more than 64 tokens; `LostUsage.ItemUsageIsLost` shows why.
- NeverMissingBinding: assumes that required pointers lead somewhere in the records their steps and flows can leave (`RunSafety.PlanBacked`), because required properties of results are not tracked by the compiler either.
- CompilePrompt: rendering a compiled template is not modelled; it substitutes values and has no scanner.
- ValidateAvailability: the schema-path and type checks of bindings in the cited span; conditions of routes are in `ConditionChecks`; the order in which several offending bindings are reported and the diagnostics' texts are not modelled.
- RunBudgetExceeded: the early return after a collection warning and the name of the crossing flow are diagnostics and not modelled.
- BudgetSound: the `collection_budget` and `repeat_budget` reports are implied by the run bound and not modelled as methods.
- UsageIsConserved: across currencies only the sum in some order is stated, since costs do not commute there.
- FlowLegal: agreement of native choice answers with selections is a promise of the decision adapter and not modelled.
- ResultsFitExecution: stated for outputs that select values; an output that builds objects from bindings can nest deeper.
- AdmissionHolds: the choice of the next waiter is left open, since the semaphore's queue order is a library matter.
- Static absence: `Static.absent` is not claimed to find optional properties; of `Static.missing` only the check that reads it is modelled (`StaticCompletion.MayBeMissing`).
- Schemas: keywords other than type, const, enum, anyOf, oneOf, properties, patternProperties, additionalProperties, items, prefixItems, maxItems and local references appear only as "blocked" or "branching" flags; oneOf is used as "at least one".
- Schema files: how references are looked up across files; a finite table of links stands for it.
- Entry points: `run_flow`, `run_step`, envelopes, caller identity and admission of one request into a run.
- Cancellation: modelled in admission only.
- Observations, trace ids, elapsed seconds, condition traces, failure reasons and locations.
- Costs: rounding and pricing formulas; costs are exact reals and pricing is a parameter.
- Regular expressions: the engine is a parameter, and `compiler/patterns.py` is not part of this model.
- Loading: YAML, Markdown, path confinement, hashing, contract parsing and diagnostics texts.
- Adapters: models, tools and handlers are one executor oracle; the retry policy inside a request is not part of this model.
- Decimal and float: both are exact reals, so non-finite and rounded numbers do not occur.
- Text: `Blank` covers ASCII white space only.
