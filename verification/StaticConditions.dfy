/** Static bindings and three-valued static conditions, against run-time evaluation. */
module StaticConditions {
  import opened Foundations
  import opened Json
  import opened JsonEquality
  import opened Pointers
  import opened Bindings
  import opened Conditions
  import opened Plans
  import opened StaticSchemas
  import opened StaticValues

  // The static value of every pointer in one scope.
  type Resolver = string -> Static

  // A pointer whose array indexes the analysis reads.
  predicate NarrowPointer(pointer: string) {
    AllNarrow(Tokens(pointer))
  }

  predicate NarrowBinding(binding: Binding)
    decreases binding
  {
    match binding
    case Literal(_) => true
    case Pointer(pointer, _) => NarrowPointer(pointer)
    case FirstOf(members, _) => forall k | 0 <= k < |members| :: NarrowPointer(members[k])
    case Fields(fields) => forall k | 0 <= k < |fields| :: NarrowBinding(fields[k].binding)
  }

  predicate NarrowCondition(condition: Condition)
    decreases condition
  {
    match condition
    case Leaf(source, _) => NarrowBinding(source)
    case Not(operand) => NarrowCondition(operand)
    case All(operands) => forall k | 0 <= k < |operands| :: NarrowCondition(operands[k])
    case AnyOf(operands) => forall k | 0 <= k < |operands| :: NarrowCondition(operands[k])
  }

  predicate NarrowEntries(entries: seq<RouteEntry>) {
    forall k | 0 <= k < |entries| && entries[k].condition.Some? :: NarrowCondition(entries[k].condition.value)
  }

  // Every value a pointer finds in the context is covered.
  ghost predicate Fitting(links: Links, resolve: Resolver, context: Json) {
    forall p {:trigger resolve(p)} | NarrowPointer(p) ::
      var found := Walk(Tokens(p), context);
      found.Some? ==> Covers(links, resolve(p), found.value)
  }

  // ---- Bindings ---------------------------------------------------------------------------

  function MemberStatics(members: seq<string>, resolve: Resolver): seq<Static> {
    seq(|members|, k requires 0 <= k < |members| => resolve(members[k]))
  }

  // A null member is skipped like a missing one.
  predicate MayBeSkipped(links: Links, member: Static) {
    member.absent || TypesOf(links, member).None? || KNull in TypesOf(links, member).value
  }

  function WithDefault(static_: Static, default: Option<Json>): Static {
    if default.Some? then Static(static_.alternatives + [Const(default.value)], false, false) else static_
  }

  // `binding_static`, including the authored default.
  function BindingStatic(links: Links, binding: Binding, resolve: Resolver): Static
    decreases binding, 1
  {
    match binding
    case Literal(value) => Of(Const(value))
    case Pointer(pointer, default) => WithDefault(resolve(pointer), default)
    case FirstOf(members, default) =>
      var statics := MemberStatics(members, resolve);
      var absent := forall k | 0 <= k < |statics| :: MayBeSkipped(links, statics[k]);
      WithDefault(UnionFrom(statics).(absent := absent), default)
    case Fields(fields) => Of(Projected(FieldStatics(links, fields, resolve)))
  }

  function FieldStatics(links: Links, fields: seq<Named>, resolve: Resolver): (statics: map<string, Static>)
    ensures statics.Keys == set k | 0 <= k < |fields| :: fields[k].name
    decreases fields, 0
  {
    map k | 0 <= k < |fields| ::
        fields[k].name := BindingStatic(links, fields[LastNamed(fields, fields[k].name)].binding, resolve)
  }

  function LastNamed(fields: seq<Named>, name: string): (k: nat)
    requires exists j :: 0 <= j < |fields| && fields[j].name == name
    ensures k < |fields| && fields[k].name == name
  {
    if fields[|fields| - 1].name == name then |fields| - 1 else LastNamed(fields[..|fields| - 1], name)
  }

  lemma DefaultCovers(links: Links, static_: Static, default: Option<Json>, value: Json)
    requires Covers(links, static_, value) || default == Some(value)
    ensures Covers(links, WithDefault(static_, default), value)
  {
    var larger := WithDefault(static_, default);
    if Covers(links, static_, value) {
      var k :| 0 <= k < |static_.alternatives| && CoversOne(links, static_.alternatives[k], value);
      assert larger.alternatives[k] == static_.alternatives[k];
    } else {
      assert larger.alternatives[|static_.alternatives|] == Const(value);
    }
  }

  lemma {:induction false} FirstPresentFound(members: seq<string>, context: Json)
    requires LookupAll(members, context).Ok?
    ensures var found := FirstPresent(LookupAll(members, context).value);
            found.Some? ==> exists k :: 0 <= k < |members| && Walk(Tokens(members[k]), context) == found
  {
    if members != [] {
      FirstPresentFound(members[1..], context);
      var candidates := LookupAll(members, context).value;
      assert candidates[1..] == LookupAll(members[1..], context).value;
      if candidates[0].Some? && candidates[0].value != Null {
        assert Walk(Tokens(members[0]), context) == candidates[0];
      } else if FirstPresent(candidates).Some? {
        var k :| 0 <= k < |members[1..]| && Walk(Tokens(members[1..][k]), context) == FirstPresent(candidates);
        assert members[k + 1] == members[1..][k];
      }
    }
  }

  lemma MemberCovers(links: Links, members: seq<string>, resolve: Resolver, context: Json, value: Json, absent: bool)
    requires Fitting(links, resolve, context)
    requires exists k ::
               0 <= k < |members| && NarrowPointer(members[k]) && Walk(Tokens(members[k]), context) == Some(value)
    ensures Covers(links, UnionFrom(MemberStatics(members, resolve)).(absent := absent), value)
  {
    var k :| 0 <= k < |members| && NarrowPointer(members[k]) && Walk(Tokens(members[k]), context) == Some(value);
    var statics := MemberStatics(members, resolve);
    assert Covers(links, resolve(members[k]), value);
    UnionIncludes(statics, k);
    var j :| 0 <= j < |statics[k].alternatives| && CoversOne(links, statics[k].alternatives[j], value);
    Includes(links, statics[k].alternatives, UnionFrom(statics).(absent := absent), value);
  }

  // Whatever a binding delivers is covered by its static value.
  lemma FirstOfCovers(links: Links, members: seq<string>, default: Option<Json>, resolve: Resolver, context: Json)
    requires Authored(FirstOf(members, default)) && NarrowBinding(FirstOf(members, default))
    requires Fitting(links, resolve, context)
    ensures var r := ResolveBinding(FirstOf(members, default), context);
            r.Ok? ==> Covers(links, BindingStatic(links, FirstOf(members, default), resolve), r.value)
  {
    var r := ResolveBinding(FirstOf(members, default), context);
    if r.Ok? {
      FirstPresentFound(members, context);
      var statics := MemberStatics(members, resolve);
      var absent := forall k | 0 <= k < |statics| :: MayBeSkipped(links, statics[k]);
      if exists k :: 0 <= k < |members| && Walk(Tokens(members[k]), context) == Some(r.value) {
        MemberCovers(links, members, resolve, context, r.value, absent);
      }
      DefaultCovers(links, UnionFrom(statics).(absent := absent), default, r.value);
    }
  }

  lemma {:induction false} BindingCovers(links: Links, binding: Binding, resolve: Resolver, context: Json)
    requires Authored(binding) && NarrowBinding(binding) && Fitting(links, resolve, context)
    ensures var r := ResolveBinding(binding, context);
            r.Ok? ==> Covers(links, BindingStatic(links, binding, resolve), r.value)
    decreases binding, 1
  {
    var r := ResolveBinding(binding, context);
    if r.Ok? {
      match binding
      case Literal(value) =>
        assert CoversOne(links, BindingStatic(links, binding, resolve).alternatives[0], value);
      case Pointer(pointer, default) =>
        var found := Walk(Tokens(pointer), context);
        assert found.Some? ==> Covers(links, resolve(pointer), found.value);
        DefaultCovers(links, resolve(pointer), default, r.value);
      case FirstOf(members, default) =>
        FirstOfCovers(links, members, default, resolve, context);
      case Fields(fields) =>
        FieldsCover(links, fields, resolve, context);
        var static_ := BindingStatic(links, binding, resolve);
        assert CoversOne(links, static_.alternatives[0], r.value);
    }
  }

  lemma {:induction false} FieldsCover(links: Links, fields: seq<Named>, resolve: Resolver, context: Json)
    requires AuthoredPairs(fields) && (forall k | 0 <= k < |fields| :: NarrowBinding(fields[k].binding))
    requires Fitting(links, resolve, context)
    ensures var r := ResolveFrom(fields, 0, map[], context);
            r.Ok? ==> CoversOne(links, Projected(FieldStatics(links, fields, resolve)), Obj(r.value))
    decreases fields, 0
  {
    var r := ResolveFrom(fields, 0, map[], context);
    if r.Ok? {
      ArgumentValues(fields, 0, map[], context);
      forall name | name in r.value
        ensures name in FieldStatics(links, fields, resolve)
        ensures Covers(links, FieldStatics(links, fields, resolve)[name], r.value[name])
      {
        var k :| 0 <= k < |fields| && fields[k].name == name;
        var last := LastNamed(fields, name);
        BindingCovers(links, fields[last].binding, resolve, context);
        assert Ok(r.value[fields[last].name]) == ResolveBinding(fields[last].binding, context);
      }
    }
  }

  // A required pointer or first_of the compiler calls impossible never resolves: it is
  // missing, or a pointer in it is too long.
  lemma ImpossibleIsMissing(links: Links, binding: Binding, resolve: Resolver, context: Json)
    requires Authored(binding) && NarrowBinding(binding) && Fitting(links, resolve, context)
    requires BindingStatic(links, binding, resolve).Impossible()
    ensures ResolveBinding(binding, context)
            == Err(if Overlong(binding, context) then InvalidConfiguration else MissingBinding)
  {
    BindingCovers(links, binding, resolve, context);
    ResolvesIffResolvable(binding, context);
  }

  // ---- Leaf verdicts ---------------------------------------------------------------------------

  // The static value of a condition's source; a literal is itself.
  function SourceStatic(source: Binding, resolve: Resolver): Static {
    match source
    case Literal(value) => Of(Const(value))
    case Pointer(pointer, _) => resolve(pointer)
    case FirstOf(members, _) => UnionFrom(MemberStatics(members, resolve)).(absent := true)
    case Fields(_) => Static([], true, false)
  }

  // The operands of the four equality operators.
  function Operands(operator: Operator): Option<seq<Json>> {
    match operator
    case Equals(operand) => Some([operand])
    case NotEquals(operand) => Some([operand])
    case In(operands) => Some(operands)
    case NotIn(operands) => Some(operands)
    case _ => None
  }

  predicate Positive(operator: Operator) {
    operator.Equals? || operator.In?
  }

  // verdict and strict: a strict verdict holds for present and absent values alike.
  datatype Verdict = Verdict(truth: Option<bool>, strict: bool)

  // `_verdict`.
  function LeafVerdict(links: Links, operator: Operator, static_: Static): Verdict {
    var allowed, operands := ValuesOf(links, static_), Operands(operator);
    if allowed.None? || allowed.value == {} || operands.None? || Null in operands.value then Verdict(None, false)
    else if KeysOf(operands.value) * allowed.value == {} then Verdict(Some(!Positive(operator)), true)
    else if allowed.value <= KeysOf(operands.value) then Verdict(Some(Positive(operator)), false)
    else Verdict(None, false)
  }

  lemma NoKeyMatches(value: Json, operands: seq<Json>)
    ensures Member(value, operands) <==> JsonKey(value) in KeysOf(operands)
  {
    if Member(value, operands) {
      var k :| 0 <= k < |operands| && JsonEqual(value, operands[k]);
      EqualIffSameKey(value, operands[k]);
    }
    if JsonKey(value) in KeysOf(operands) {
      var k :| 0 <= k < |operands| && JsonKey(operands[k]) == JsonKey(value);
      EqualIffSameKey(value, operands[k]);
    }
  }

  // The four equality operators ask for membership, positively or negatively.
  lemma EqualityApplies(operator: Operator, value: Json, matcher: Matcher)
    requires Operands(operator).Some? && AuthoredOperator(operator)
    ensures Apply(operator, value, matcher) == Ok(Member(value, Operands(operator).value) == Positive(operator))
  {
    var operands := Operands(operator).value;
    if operator.Equals? || operator.NotEquals? {
      assert operands[0] == operator.operand;
    }
  }

  lemma NullIsNoMember(operands: seq<Json>)
    requires Null !in operands
    ensures !Member(Null, operands)
  {
  }

  // A verdict is right for every covered present value; a strict one also for absence.
  lemma VerdictHolds(links: Links, operator: Operator, static_: Static, value: Json, matcher: Matcher)
    requires AuthoredOperator(operator)
    requires Covers(links, static_, value) || (LeafVerdict(links, operator, static_).strict && value == Null)
    ensures var verdict := LeafVerdict(links, operator, static_);
            verdict.truth.Some? ==> Apply(operator, value, matcher) == Ok(verdict.truth.value)
  {
    var verdict := LeafVerdict(links, operator, static_);
    if verdict.truth.Some? {
      var operands := Operands(operator).value;
      EqualityApplies(operator, value, matcher);
      NoKeyMatches(value, operands);
      if Covers(links, static_, value) {
        ValuesCover(links, static_, value);
        var allowed := ValuesOf(links, static_).value;
        if verdict.strict {
          assert JsonKey(value) !in KeysOf(operands) * allowed;
        }
      } else {
        NullIsNoMember(operands);
      }
    }
  }

  // ---- Whole conditions ------------------------------------------------------------------------------

  // `_combine` over the strict verdicts of the leaves.
  function Truth(links: Links, condition: Condition, resolve: Resolver): Option<bool>
    decreases condition, 0
  {
    match condition
    case Leaf(source, operator) =>
      var verdict := LeafVerdict(links, operator, SourceStatic(source, resolve));
      if verdict.strict then verdict.truth else None
    case Not(operand) =>
      var inner := Truth(links, operand, resolve);
      if inner.None? then None else Some(!inner.value)
    case All(operands) =>
      if exists k | 0 <= k < |operands| :: Truth(links, operands[k], resolve) == Some(false) then Some(false)
      else if forall k | 0 <= k < |operands| :: Truth(links, operands[k], resolve) == Some(true) then Some(true)
      else None
    case AnyOf(operands) =>
      if exists k | 0 <= k < |operands| :: Truth(links, operands[k], resolve) == Some(true) then Some(true)
      else if forall k | 0 <= k < |operands| :: Truth(links, operands[k], resolve) == Some(false) then Some(false)
      else None
  }

  lemma SourceCovered(links: Links, source: Binding, resolve: Resolver, context: Json)
    requires AuthoredSource(source) && NarrowBinding(source) && Fitting(links, resolve, context)
    ensures var value := ResolveSource(source, context);
            value.Ok? ==> value.value == Null || Covers(links, SourceStatic(source, resolve), value.value)
  {
    match source
    case Literal(value) =>
      assert CoversOne(links, SourceStatic(source, resolve).alternatives[0], value);
    case Pointer(pointer, _) =>
      var found := Walk(Tokens(pointer), context);
      assert found.Some? ==> Covers(links, resolve(pointer), found.value);
    case FirstOf(members, _) =>
      var candidates := LookupAll(members, context);
      if candidates.Ok? && FirstPresent(candidates.value).Some? {
        FirstPresentFound(members, context);
        MemberCovers(links, members, resolve, context, FirstPresent(candidates.value).value, true);
      }
  }

  // What evaluation makes of a decided condition: its truth, unless it comes to a pointer
  // that is too long.
  function Decided(overlong: bool, truth: bool): Result<bool, ErrorCode> {
    if overlong then Err(InvalidConfiguration) else Ok(truth)
  }

  // Evaluation that succeeds never contradicts the static truth.
  predicate Agrees(truth: Option<bool>, result: Result<bool, ErrorCode>) {
    truth.Some? ==> result != Ok(!truth.value)
  }

  lemma AgreedIsDecided(truth: Option<bool>, overlong: bool, result: Result<bool, ErrorCode>)
    requires Agrees(truth, result) && (result.Err? <==> overlong)
             && (result.Err? ==> result.error == InvalidConfiguration)
    ensures truth.Some? ==> result == Decided(overlong, truth.value)
  {
    if truth.Some? && result.Ok? {
      assert result == Ok(result.value) && result.value == truth.value;
    }
  }

  lemma {:induction false} TruthAgrees(links: Links, condition: Condition, resolve: Resolver, context: Json,
                                       matcher: Matcher)
    requires AuthoredCondition(condition) && NarrowCondition(condition) && Fitting(links, resolve, context)
    ensures Agrees(Truth(links, condition, resolve), Evaluate(condition, context, matcher))
    decreases condition, 0
  {
    match condition
    case Leaf(source, operator) => LeafHolds(links, source, operator, resolve, context, matcher);
    case Not(operand) => TruthAgrees(links, operand, resolve, context, matcher);
    case All(operands) =>
      OperandsAgree(links, operands, resolve, context, matcher);
      CombinationHolds(links, operands, resolve, context, matcher);
    case AnyOf(operands) =>
      OperandsAgree(links, operands, resolve, context, matcher);
      CombinationHolds(links, operands, resolve, context, matcher);
  }

  lemma LeafHolds(links: Links, source: Binding, operator: Operator, resolve: Resolver, context: Json, matcher: Matcher)
    requires AuthoredSource(source) && AuthoredOperator(operator)
    requires NarrowBinding(source) && Fitting(links, resolve, context)
    ensures Agrees(Truth(links, Leaf(source, operator), resolve), Evaluate(Leaf(source, operator), context, matcher))
  {
    var value := ResolveSource(source, context);
    if value.Ok? {
      SourceCovered(links, source, resolve, context);
      if LeafVerdict(links, operator, SourceStatic(source, resolve)).strict {
        VerdictHolds(links, operator, SourceStatic(source, resolve), value.value, matcher);
      }
    }
  }

  lemma CombinationHolds(links: Links, operands: seq<Condition>, resolve: Resolver, context: Json, matcher: Matcher)
    requires forall k | 0 <= k < |operands| ::
               Agrees(Truth(links, operands[k], resolve), Evaluate(operands[k], context, matcher))
    ensures Agrees(Truth(links, All(operands), resolve), EvaluateAll(operands, 0, context, matcher))
    ensures Agrees(Truth(links, AnyOf(operands), resolve), EvaluateAny(operands, 0, context, matcher))
  {
    OperandsDecide(operands, 0, context, matcher);
  }

  lemma {:induction false} OperandsAgree(links: Links, operands: seq<Condition>, resolve: Resolver, context: Json,
                                        matcher: Matcher)
    requires forall k | 0 <= k < |operands| :: AuthoredCondition(operands[k]) && NarrowCondition(operands[k])
    requires Fitting(links, resolve, context)
    ensures forall k | 0 <= k < |operands| ::
              Agrees(Truth(links, operands[k], resolve), Evaluate(operands[k], context, matcher))
    decreases operands
  {
    forall k | 0 <= k < |operands|
      ensures Agrees(Truth(links, operands[k], resolve), Evaluate(operands[k], context, matcher))
    {
      TruthAgrees(links, operands[k], resolve, context, matcher);
    }
  }

  // Whenever the three-valued combination decides, evaluation returns exactly that in
  // every covered context, whether the values read are present or absent.
  lemma TruthHolds(links: Links, condition: Condition, resolve: Resolver, context: Json, matcher: Matcher)
    requires AuthoredCondition(condition) && NarrowCondition(condition) && Fitting(links, resolve, context)
    ensures var truth := Truth(links, condition, resolve);
            truth.Some? ==>
              Evaluate(condition, context, matcher) == Decided(OverlongCondition(condition, context, matcher),
                                                               truth.value)
  {
    FailsIffOverlong(condition, context, matcher);
    TruthAgrees(links, condition, resolve, context, matcher);
    AgreedIsDecided(Truth(links, condition, resolve), OverlongCondition(condition, context, matcher),
                    Evaluate(condition, context, matcher));
  }

  // ---- Dead route entries ---------------------------------------------------------------------------

  function EntryTruth(links: Links, entry: RouteEntry, resolve: Resolver): Option<bool> {
    if entry.condition.None? then None else Truth(links, entry.condition.value, resolve)
  }

  // Statically false, or after an entry whose condition always holds.
  predicate Dead(links: Links, entries: seq<RouteEntry>, resolve: Resolver, k: nat)
    requires k < |entries|
  {
    || EntryTruth(links, entries[k], resolve) == Some(false)
    || exists j | 0 <= j < k :: EntryTruth(links, entries[j], resolve) == Some(true)
  }

  // `_check_route_conditions`: `decided` once an entry always holds.
  method DeadEntries(links: Links, entries: seq<RouteEntry>, resolve: Resolver) returns (dead: set<nat>)
    ensures forall k: nat :: k in dead <==> k < |entries| && Dead(links, entries, resolve, k)
  {
    dead := {};
    var decided := false;
    for k := 0 to |entries|
      invariant decided <==> exists j | 0 <= j < k :: EntryTruth(links, entries[j], resolve) == Some(true)
      invariant forall j: nat :: j in dead <==> j < k && Dead(links, entries, resolve, j)
    {
      if decided {
        dead := dead + {k};
        continue;
      }
      if entries[k].condition.None? {
        continue;
      }
      var verdict := Truth(links, entries[k].condition.value, resolve);
      assert verdict == EntryTruth(links, entries[k], resolve);
      if verdict == Some(false) {
        dead := dead + {k};
      } else if verdict == Some(true) {
        decided := true;
      }
    }
  }

  // ---- Exhaustive case routing --------------------------------------------------------------------------

  predicate HasCase(cases: seq<Case>, key: string) {
    exists k | 0 <= k < |cases| :: cases[k].key == key
  }

  // No uncovered value is reported and default_covers is absent: every allowed string
  // has a case.  The routed field may only be a string or null.
  predicate Exhaustive(links: Links, binding: Binding, cases: seq<Case>, resolve: Resolver) {
    var static_ := BindingStatic(links, binding, resolve);
    && TypesOf(links, static_).Some? && TypesOf(links, static_).value <= {KString, KNull}
    && ValuesOf(links, static_).Some?
    && forall value | value in ValuesOf(links, static_).value && value.Str? :: HasCase(cases, value.s)
  }

  lemma {:induction false} CaseFound(cases: seq<Case>, key: string)
    ensures FindCase(cases, key).Some? <==> HasCase(cases, key)
  {
    if cases != [] && cases[0].key != key {
      CaseFound(cases[1..], key);
      if HasCase(cases, key) {
        var k :| 0 <= k < |cases| && cases[k].key == key;
        assert cases[1..][k - 1].key == key;
      }
      if HasCase(cases[1..], key) {
        var k :| 0 <= k < |cases[1..]| && cases[1..][k].key == key;
        assert cases[k + 1].key == key;
      }
    }
  }
}
