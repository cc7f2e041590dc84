/** Run-time evaluation of compiled conditions; evaluation never fails for data. */
module Conditions {
  import opened Foundations
  import opened Json
  import opened JsonEquality
  import opened Bindings

  const MAX_MATCH_LENGTH: nat := 1024

  datatype Order = Gt | Gte | Lt | Lte

  datatype Measure = Ordered(order: Order) | Exactly

  datatype Operator =
    | Present(expected: bool)
    | Empty(expected: bool)
    | Equals(operand: Json)
    | NotEquals(operand: Json)
    | In(operands: seq<Json>)
    | NotIn(operands: seq<Json>)
    | Compare(order: Order, bound: Json)
    | Matches(pattern: string)
    | Length(measure: Measure, count: int)

  datatype Condition =
    | Leaf(source: Binding, operator: Operator)
    | All(operands: seq<Condition>)
    | AnyOf(operands: seq<Condition>)
    | Not(operand: Condition)

  // The regular-expression engine is a parameter: full match of pattern and text.
  type Matcher = (string, string) -> bool

  predicate Holds(order: Order, value: real, bound: real) {
    match order
    case Gt => value > bound
    case Gte => value >= bound
    case Lt => value < bound
    case Lte => value <= bound
  }

  function Size(value: Json): int
    requires value.Str? || value.Arr? || value.Obj?
  {
    match value
    case Str(s) => |s|
    case Arr(items) => |items|
    case Obj(fields) => |fields|
  }

  predicate IsEmpty(value: Json) {
    value == Null || value == Str("") || value == Arr([]) || value == Obj(map[])
  }

  predicate Member(value: Json, operands: seq<Json>) {
    exists k | 0 <= k < |operands| :: JsonEqual(value, operands[k])
  }

  // One operator on one value; an absent value is Null.
  function Apply(operator: Operator, value: Json, matcher: Matcher): Result<bool, ErrorCode> {
    match operator
    case Present(expected) => Ok((value != Null) == expected)
    case Empty(expected) => Ok(IsEmpty(value) == expected)
    case Equals(operand) => Ok(JsonEqual(value, operand))
    case NotEquals(operand) => Ok(!JsonEqual(value, operand))
    case In(operands) => if operands == [] then Err(InvalidConfiguration) else Ok(Member(value, operands))
    case NotIn(operands) => if operands == [] then Err(InvalidConfiguration) else Ok(!Member(value, operands))
    case Compare(order, bound) =>
      if !IsNumber(bound) then Err(InvalidConfiguration)
      else Ok(IsNumber(value) && Holds(order, Number(value), Number(bound)))
    case Matches(pattern) =>
      Ok(value.Str? && |value.s| <= MAX_MATCH_LENGTH && matcher(pattern, value.s))
    case Length(measure, count) =>
      Ok((value.Str? || value.Arr? || value.Obj?) &&
         match measure
         case Exactly => Size(value) == count
         case Ordered(order) => Holds(order, Size(value) as real, count as real))
  }

  function Evaluate(condition: Condition, context: Json, matcher: Matcher): Result<bool, ErrorCode>
    decreases condition
  {
    match condition
    case Leaf(source, operator) =>
      var value :- ResolveSource(source, context);
      Apply(operator, value, matcher)
    case All(operands) =>
      if operands == [] then Err(InvalidConfiguration) else EvaluateAll(operands, 0, context, matcher)
    case AnyOf(operands) =>
      if operands == [] then Err(InvalidConfiguration) else EvaluateAny(operands, 0, context, matcher)
    case Not(operand) =>
      var result :- Evaluate(operand, context, matcher);
      Ok(!result)
  }

  // Short-circuits in authored order.
  function EvaluateAll(operands: seq<Condition>, k: nat, context: Json, matcher: Matcher): Result<bool, ErrorCode>
    requires k <= |operands|
    decreases operands, |operands| - k
  {
    if k == |operands| then Ok(true)
    else
      var first :- Evaluate(operands[k], context, matcher);
      if !first then Ok(false) else EvaluateAll(operands, k + 1, context, matcher)
  }

  function EvaluateAny(operands: seq<Condition>, k: nat, context: Json, matcher: Matcher): Result<bool, ErrorCode>
    requires k <= |operands|
    decreases operands, |operands| - k
  {
    if k == |operands| then Ok(false)
    else
      var first :- Evaluate(operands[k], context, matcher);
      if first then Ok(true) else EvaluateAny(operands, k + 1, context, matcher)
  }

  // A condition that never holds.
  const NEVER := Leaf(Literal(Null), Present(true))

  // What the authoring contract guarantees of a compiled condition.
  predicate AuthoredCondition(condition: Condition)
    decreases condition
  {
    match condition
    case Leaf(source, operator) => AuthoredSource(source) && AuthoredOperator(operator)
    case All(operands) => operands != [] && forall k | 0 <= k < |operands| :: AuthoredCondition(operands[k])
    case AnyOf(operands) => operands != [] && forall k | 0 <= k < |operands| :: AuthoredCondition(operands[k])
    case Not(operand) => AuthoredCondition(operand)
  }

  predicate AuthoredSource(source: Binding) {
    && Authored(source)
    && !source.Fields?
    && (source.Pointer? || source.FirstOf? ==> source.default == None)
  }

  predicate AuthoredOperator(operator: Operator) {
    && (operator.In? || operator.NotIn? ==> operator.operands != [])
    && (operator.Compare? ==> IsNumber(operator.bound))
  }

  // ---- Pointers the engine does not follow -------------------------------------------

  predicate ShortCondition(condition: Condition)
    decreases condition
  {
    match condition
    case Leaf(source, _) => Short(source)
    case All(operands) => forall k | 0 <= k < |operands| :: ShortCondition(operands[k])
    case AnyOf(operands) => forall k | 0 <= k < |operands| :: ShortCondition(operands[k])
    case Not(operand) => ShortCondition(operand)
  }

  // Evaluation comes to a source with a pointer that is too long: operands are
  // evaluated in order until one decides.
  predicate OverlongCondition(condition: Condition, context: Json, matcher: Matcher)
    decreases condition, 0
  {
    match condition
    case Leaf(source, _) => Overlong(source, context)
    case All(operands) => OverlongAmong(operands, 0, context, matcher, true)
    case AnyOf(operands) => OverlongAmong(operands, 0, context, matcher, false)
    case Not(operand) => OverlongCondition(operand, context, matcher)
  }

  // Some operand is overlong, and all before it have the truth value that goes on.
  predicate OverlongAmong(operands: seq<Condition>, from: nat, context: Json, matcher: Matcher, onward: bool)
    decreases operands, 1
  {
    exists k | from <= k < |operands| :: OverlongCondition(operands[k], context, matcher)
      && forall j | from <= j < k :: Evaluate(operands[j], context, matcher) == Ok(onward)
  }

  lemma OverlongAmongNext(operands: seq<Condition>, k: nat, context: Json, matcher: Matcher, onward: bool)
    requires k < |operands|
    ensures OverlongAmong(operands, k, context, matcher, onward) <==>
            OverlongCondition(operands[k], context, matcher)
            || (Evaluate(operands[k], context, matcher) == Ok(onward)
                && OverlongAmong(operands, k + 1, context, matcher, onward))
  {
  }

  lemma {:induction false} ShortConditionNeverOverlong(condition: Condition, context: Json, matcher: Matcher)
    requires ShortCondition(condition)
    ensures !OverlongCondition(condition, context, matcher)
    decreases condition
  {
    match condition
    case Leaf(source, _) => ShortNeverOverlong(source, context);
    case All(operands) =>
      forall k | 0 <= k < |operands| ensures !OverlongCondition(operands[k], context, matcher) {
        ShortConditionNeverOverlong(operands[k], context, matcher);
      }
    case AnyOf(operands) =>
      forall k | 0 <= k < |operands| ensures !OverlongCondition(operands[k], context, matcher) {
        ShortConditionNeverOverlong(operands[k], context, matcher);
      }
    case Not(operand) => ShortConditionNeverOverlong(operand, context, matcher);
  }

  // Evaluation of an authored condition fails exactly when it comes to a pointer that is
  // too long, always as a configuration error: no data makes it fail.
  lemma {:induction false} FailsIffOverlong(condition: Condition, context: Json, matcher: Matcher)
    requires AuthoredCondition(condition)
    ensures Evaluate(condition, context, matcher).Err? <==> OverlongCondition(condition, context, matcher)
    ensures Evaluate(condition, context, matcher).Err? ==>
              Evaluate(condition, context, matcher).error == InvalidConfiguration
    decreases condition, 0
  {
    match condition
    case Leaf(source, _) => SourceFailsIffOverlong(source, context);
    case All(operands) => OperandsFail(operands, 0, context, matcher);
    case AnyOf(operands) => OperandsFail(operands, 0, context, matcher);
    case Not(operand) => FailsIffOverlong(operand, context, matcher);
  }

  lemma SourceFailsIffOverlong(source: Binding, context: Json)
    requires AuthoredSource(source)
    ensures ResolveSource(source, context).Err? <==> Overlong(source, context)
    ensures ResolveSource(source, context).Err? ==> ResolveSource(source, context).error == InvalidConfiguration
  {
    if source.FirstOf? {
      LookupAllAuthored(source.members, context);
    }
  }

  lemma {:induction false} OperandsFail(operands: seq<Condition>, k: nat, context: Json, matcher: Matcher)
    requires k <= |operands|
    requires forall j | 0 <= j < |operands| :: AuthoredCondition(operands[j])
    ensures var r := EvaluateAll(operands, k, context, matcher);
            && (r.Err? <==> OverlongAmong(operands, k, context, matcher, true))
            && (r.Err? ==> r.error == InvalidConfiguration)
    ensures var r := EvaluateAny(operands, k, context, matcher);
            && (r.Err? <==> OverlongAmong(operands, k, context, matcher, false))
            && (r.Err? ==> r.error == InvalidConfiguration)
    decreases operands, |operands| - k
  {
    if k < |operands| {
      FailsIffOverlong(operands[k], context, matcher);
      OperandsFail(operands, k + 1, context, matcher);
      OverlongAmongNext(operands, k, context, matcher, true);
      OverlongAmongNext(operands, k, context, matcher, false);
    }
  }

  // With short pointers a condition has a truth value in every context.
  lemma EvaluationIsTotal(condition: Condition, context: Json, matcher: Matcher)
    requires AuthoredCondition(condition) && ShortCondition(condition)
    ensures Evaluate(condition, context, matcher).Ok?
  {
    FailsIffOverlong(condition, context, matcher);
    ShortConditionNeverOverlong(condition, context, matcher);
  }

  // What a finished list of operands says: all of them hold, or one of them does.
  lemma {:induction false} OperandsDecide(operands: seq<Condition>, k: nat, context: Json, matcher: Matcher)
    requires k <= |operands|
    ensures EvaluateAll(operands, k, context, matcher) == Ok(true) <==>
            forall j | k <= j < |operands| :: Evaluate(operands[j], context, matcher) == Ok(true)
    ensures EvaluateAll(operands, k, context, matcher) == Ok(false) ==>
            exists j | k <= j < |operands| :: Evaluate(operands[j], context, matcher) == Ok(false)
    ensures EvaluateAny(operands, k, context, matcher) == Ok(true) ==>
            exists j | k <= j < |operands| :: Evaluate(operands[j], context, matcher) == Ok(true)
    ensures EvaluateAny(operands, k, context, matcher) == Ok(false) <==>
            forall j | k <= j < |operands| :: Evaluate(operands[j], context, matcher) == Ok(false)
    decreases |operands| - k
  {
    if k < |operands| {
      OperandsDecide(operands, k + 1, context, matcher);
    }
  }
}
