/**
 What bindings deliver and when conditions hold, said without the functions that compute it:
 by the values at the ends of pointers, and by numbers, sizes and memberships.
 */
module Meaning {
  import opened Foundations
  import opened Json
  import opened JsonEquality
  import opened Pointers
  import opened Bindings
  import opened Conditions

  // ---- What a binding delivers ----------------------------------------------------------------

  // The value at the end of a pointer.
  predicate Found(pointer: string, context: Json, value: Json) {
    Walk(Tokens(pointer), context) == Some(value)
  }

  // Nothing is there, or null.
  predicate Lacking(pointer: string, context: Json) {
    Walk(Tokens(pointer), context) == None || Found(pointer, context, Null)
  }

  // The first member that is there and not null has the value.
  predicate FirstFound(members: seq<string>, context: Json, value: Json) {
    value != Null && exists k {:trigger FoundAt(members, k, context, value)} ::
      0 <= k < |members| && FoundAt(members, k, context, value)
  }

  predicate FoundAt(members: seq<string>, k: int, context: Json, value: Json) {
    && 0 <= k < |members| && Found(members[k], context, value)
    && forall j | 0 <= j < k :: Lacking(members[j], context)
  }

  predicate AllLacking(members: seq<string>, context: Json) {
    forall m | m in members :: Lacking(m, context)
  }

  // A default counts only where nothing is found; fields are delivered under their names.
  predicate Delivers(binding: Binding, context: Json, value: Json)
    decreases binding
  {
    match binding
    case Literal(literal) => value == literal
    case Pointer(pointer, default) =>
      Found(pointer, context, value) || (Walk(Tokens(pointer), context) == None && default == Some(value))
    case FirstOf(members, default) =>
      FirstFound(members, context, value) || (AllLacking(members, context) && default == Some(value))
    case Fields(fields) =>
      && value.Obj? && value.fields.Keys == (set k | 0 <= k < |fields| :: fields[k].name)
      && forall k | 0 <= k < |fields| ::
           fields[k].name in value.fields && Delivers(fields[k].binding, context, value.fields[fields[k].name])
  }

  // k: the first member with a value, or their number.
  lemma {:induction false} FirstMember(members: seq<string>, context: Json) returns (k: nat)
    requires LookupAll(members, context).Ok?
    ensures k <= |members| && forall j | 0 <= j < k :: Lacking(members[j], context)
    ensures k < |members| ==> !Lacking(members[k], context)
    ensures FirstPresent(LookupAll(members, context).value)
            == if k < |members| then Walk(Tokens(members[k]), context) else None
  {
    if members == [] {
      k := 0;
    } else {
      var rest := members[1..];
      var candidates := LookupAll(members, context).value;
      assert candidates[1..] == LookupAll(rest, context).value && candidates[0] == Walk(Tokens(members[0]), context);
      if Lacking(members[0], context) {
        var later := FirstMember(rest, context);
        k := later + 1;
        forall j | 0 <= j < k ensures Lacking(members[j], context) {
          assert j > 0 ==> members[j] == rest[j - 1];
        }
      } else {
        k := 0;
      }
    }
  }

  lemma MembersFound(members: seq<string>, context: Json)
    requires LookupAll(members, context).Ok?
    ensures var found := FirstPresent(LookupAll(members, context).value);
            && (found.None? <==> AllLacking(members, context))
            && (forall value :: found == Some(value) <==> FirstFound(members, context, value))
  {
    var k := FirstMember(members, context);
    if k < |members| {
      FirstIsUnique(members, k, context);
    } else {
      forall m | m in members ensures Lacking(m, context) {
      }
    }
  }

  lemma FirstIsUnique(members: seq<string>, k: nat, context: Json)
    requires k < |members| && !Lacking(members[k], context)
    requires forall j | 0 <= j < k :: Lacking(members[j], context)
    ensures forall value :: Walk(Tokens(members[k]), context) == Some(value) <==> FirstFound(members, context, value)
  {
    forall value, j | FoundAt(members, j, context, value) && value != Null ensures j == k {
      assert !Lacking(members[j], context);
    }
    forall value | Walk(Tokens(members[k]), context) == Some(value) ensures FirstFound(members, context, value) {
      assert FoundAt(members, k, context, value);
    }
  }

  // An authored binding that resolves delivers exactly this value.
  lemma {:induction false} ResolvesToDelivered(binding: Binding, context: Json)
    requires Authored(binding) && ResolveBinding(binding, context).Ok?
    ensures forall value :: ResolveBinding(binding, context) == Ok(value) <==> Delivers(binding, context, value)
    decreases binding
  {
    match binding
    case Literal(_) =>
    case Pointer(_, _) =>
    case FirstOf(members, _) => MembersFound(members, context);
    case Fields(fields) =>
      ArgumentValues(fields, 0, map[], context);
      var all := ResolveBinding(binding, context).value.fields;
      forall k | 0 <= k < |fields|
        ensures Ok(all[fields[k].name]) == ResolveBinding(fields[k].binding, context)
        ensures forall value :: value == all[fields[k].name] <==> Delivers(fields[k].binding, context, value)
      {
        ResolvesToDelivered(fields[k].binding, context);
      }
      FieldsDelivered(fields, context, all);
  }

  lemma FieldsDelivered(fields: seq<Named>, context: Json, all: Object)
    requires all.Keys == (set k | 0 <= k < |fields| :: fields[k].name)
    requires forall k | 0 <= k < |fields| ::
               fields[k].name in all
               && forall value :: value == all[fields[k].name] <==> Delivers(fields[k].binding, context, value)
    ensures forall value :: value == Obj(all) <==> Delivers(Fields(fields), context, value)
  {
    forall value | Delivers(Fields(fields), context, value) ensures value == Obj(all) {
      forall name | name in all ensures name in value.fields && value.fields[name] == all[name] {
        var k :| 0 <= k < |fields| && fields[k].name == name;
        assert Delivers(fields[k].binding, context, value.fields[name]);
      }
      assert value.fields == all;
    }
  }

  // ---- What a condition reads -----------------------------------------------------------------

  // Null stands for absence.
  predicate Reads(source: Binding, context: Json, value: Json) {
    match source
    case Literal(literal) => value == literal
    case Pointer(pointer, _) =>
      Found(pointer, context, value) || (value == Null && Walk(Tokens(pointer), context) == None)
    case FirstOf(members, _) =>
      FirstFound(members, context, value) || (value == Null && AllLacking(members, context))
    case Fields(_) => false
  }

  lemma SourceReads(source: Binding, context: Json)
    requires AuthoredSource(source) && ResolveSource(source, context).Ok?
    ensures forall value :: ResolveSource(source, context) == Ok(value) <==> Reads(source, context, value)
  {
    if source.FirstOf? {
      MembersFound(source.members, context);
    }
  }

  // ---- What each operator asks ----------------------------------------------------------------

  // The size of a text, list or object.
  predicate Sized(value: Json, size: int) {
    match value
    case Str(s) => size == |s|
    case Arr(items) => size == |items|
    case Obj(fields) => size == |fields|
    case _ => false
  }

  // A number, integer or float, of this amount.
  predicate AtValue(value: Json, amount: real) {
    match value
    case Int(i) => i as real == amount
    case Float(r) => r == amount
    case _ => false
  }

  // Amounts or sizes a and b in this order.
  predicate Sorted(order: Order, a: real, b: real) {
    match order
    case Gt => !(a <= b)
    case Gte => !(a < b)
    case Lt => a <= b && a != b
    case Lte => a < b || a == b
  }

  // The operator accepts the value.
  ghost predicate Accepts(operator: Operator, value: Json, matcher: Matcher) {
    match operator
    case Present(expected) => expected <==> value != Null
    case Empty(expected) => expected <==> (value == Null || Sized(value, 0))
    case Equals(operand) => JsonKey(value) == JsonKey(operand)
    case NotEquals(operand) => JsonKey(value) != JsonKey(operand)
    case In(operands) => exists operand :: operand in operands && JsonKey(operand) == JsonKey(value)
    case NotIn(operands) => forall operand :: operand in operands ==> JsonKey(operand) != JsonKey(value)
    case Compare(order, bound) => exists a, b :: AtValue(value, a) && AtValue(bound, b) && Sorted(order, a, b)
    case Matches(pattern) =>
      exists s :: value == Str(s) && |s| <= 1024 && matcher(pattern, s)
    case Length(Exactly, count) => Sized(value, count)
    case Length(Ordered(order), count) => exists n :: Sized(value, n) && Sorted(order, n as real, count as real)
  }

  lemma MemberByKey(value: Json, operands: seq<Json>)
    ensures Member(value, operands) <==> exists operand :: operand in operands && JsonKey(operand) == JsonKey(value)
  {
    forall k | 0 <= k < |operands|
      ensures JsonEqual(value, operands[k]) <==> JsonKey(value) == JsonKey(operands[k])
    {
      EqualIffSameKey(value, operands[k]);
    }
    if exists operand :: operand in operands && JsonKey(operand) == JsonKey(value) {
      var operand :| operand in operands && JsonKey(operand) == JsonKey(value);
      var k :| 0 <= k < |operands| && operands[k] == operand;
      assert JsonEqual(value, operands[k]);
    }
    if Member(value, operands) {
      var k :| 0 <= k < |operands| && JsonEqual(value, operands[k]);
      assert operands[k] in operands;
    }
  }

  // An authored operator always answers, and says exactly whether it accepts the value.
  lemma OperatorMeans(operator: Operator, value: Json, matcher: Matcher)
    requires AuthoredOperator(operator)
    ensures Apply(operator, value, matcher) == Ok(Accepts(operator, value, matcher))
  {
    match operator
    case Present(_) =>
    case Empty(_) =>
    case Equals(operand) => EqualIffSameKey(value, operand);
    case NotEquals(operand) => EqualIffSameKey(value, operand);
    case In(operands) => MemberByKey(value, operands);
    case NotIn(operands) => MemberByKey(value, operands);
    case Compare(order, bound) =>
      CompareMeans(order, bound, value, matcher);
    case Matches(_) =>
    case Length(Exactly, _) =>
    case Length(Ordered(order), count) =>
      LengthMeans(order, count, value, matcher);
  }

  lemma CompareMeans(order: Order, bound: Json, value: Json, matcher: Matcher)
    requires IsNumber(bound)
    ensures Apply(Compare(order, bound), value, matcher)
            == Ok(exists a, b :: AtValue(value, a) && AtValue(bound, b) && Sorted(order, a, b))
  {
    assert AtValue(bound, Number(bound));
    if IsNumber(value) {
      assert AtValue(value, Number(value));
    }
  }

  lemma LengthMeans(order: Order, count: int, value: Json, matcher: Matcher)
    ensures Apply(Length(Ordered(order), count), value, matcher)
            == Ok(exists n :: Sized(value, n) && Sorted(order, n as real, count as real))
  {
    if value.Str? || value.Arr? || value.Obj? {
      assert Sized(value, Size(value));
    }
  }

  // ---- The orders, spelled out -------------------------------------------------------------------

  lemma OrdersMean(bound: Json, value: Json, matcher: Matcher)
    requires IsNumber(bound)
    ensures Apply(Compare(Gt, bound), value, matcher) == Ok(IsNumber(value) && Number(value) > Number(bound))
    ensures Apply(Compare(Gte, bound), value, matcher) == Ok(IsNumber(value) && Number(value) >= Number(bound))
    ensures Apply(Compare(Lt, bound), value, matcher) == Ok(IsNumber(value) && Number(value) < Number(bound))
    ensures Apply(Compare(Lte, bound), value, matcher) == Ok(IsNumber(value) && Number(value) <= Number(bound))
  {
  }

  lemma LengthsMean(count: int, value: Json, size: int, matcher: Matcher)
    requires Sized(value, size)
    ensures Apply(Length(Exactly, count), value, matcher) == Ok(size == count)
    ensures Apply(Length(Ordered(Gt), count), value, matcher) == Ok(size > count)
    ensures Apply(Length(Ordered(Gte), count), value, matcher) == Ok(size >= count)
    ensures Apply(Length(Ordered(Lt), count), value, matcher) == Ok(size < count)
    ensures Apply(Length(Ordered(Lte), count), value, matcher) == Ok(size <= count)
  {
  }

  // On numbers the orders come in complementary pairs; on anything else all of them are false.
  lemma OrdersComplement(bound: Json, value: Json, matcher: Matcher)
    requires IsNumber(bound) && IsNumber(value)
    ensures Apply(Compare(Gt, bound), value, matcher) == Ok(true)
            <==> Apply(Compare(Lte, bound), value, matcher) == Ok(false)
    ensures Apply(Compare(Lt, bound), value, matcher) == Ok(true)
            <==> Apply(Compare(Gte, bound), value, matcher) == Ok(false)
  {
  }

  // An amount of 5 is above 3; null and the three empty values are empty, and null is absent.
  lemma OperatorInstances(matcher: Matcher)
    ensures Apply(Compare(Gt, Int(3)), Int(5), matcher) == Ok(true)
    ensures Apply(Compare(Gt, Int(5)), Int(3), matcher) == Ok(false)
    ensures Apply(Compare(Gte, Float(3.0)), Int(3), matcher) == Ok(true)
    ensures forall value | value in {Null, Str(""), Arr([]), Obj(map[])} ::
              Apply(Operator.Empty(true), value, matcher) == Ok(true)
              && Apply(Operator.Present(true), value, matcher) == Ok(value != Null)
    ensures Apply(Operator.Empty(true), Int(0), matcher) == Apply(Operator.Empty(true), Bool(false), matcher)
            == Ok(false)
  {
  }

  // ---- Whole conditions --------------------------------------------------------------------------

  ghost predicate Satisfied(condition: Condition, context: Json, matcher: Matcher)
    decreases condition
  {
    match condition
    case Leaf(source, operator) => exists value :: Reads(source, context, value) && Accepts(operator, value, matcher)
    case All(operands) => forall operand | operand in operands :: Satisfied(operand, context, matcher)
    case AnyOf(operands) => exists operand | operand in operands :: Satisfied(operand, context, matcher)
    case Not(operand) => !Satisfied(operand, context, matcher)
  }

  // Whatever evaluation answers is whether the condition is satisfied; it answers unless it
  // comes to a pointer that is too long.
  lemma {:induction false} EvaluationMeans(condition: Condition, context: Json, matcher: Matcher)
    requires AuthoredCondition(condition)
    ensures Evaluate(condition, context, matcher)
            == if OverlongCondition(condition, context, matcher) then Err(InvalidConfiguration)
               else Ok(Satisfied(condition, context, matcher))
    decreases condition, 0
  {
    FailsIffOverlong(condition, context, matcher);
    if Evaluate(condition, context, matcher).Ok? {
      match condition
      case Leaf(source, operator) =>
        SourceReads(source, context);
        var value := ResolveSource(source, context).value;
        OperatorMeans(operator, value, matcher);
      case All(operands) =>
        OperandsMean(operands, context, matcher);
        CombinationMeans(operands, context, matcher);
      case AnyOf(operands) =>
        OperandsMean(operands, context, matcher);
        CombinationMeans(operands, context, matcher);
      case Not(operand) => EvaluationMeans(operand, context, matcher);
    }
  }

  lemma {:induction false} OperandsMean(operands: seq<Condition>, context: Json, matcher: Matcher)
    requires forall k | 0 <= k < |operands| :: AuthoredCondition(operands[k])
    ensures forall k | 0 <= k < |operands| ::
              Evaluate(operands[k], context, matcher).Ok? ==>
                Evaluate(operands[k], context, matcher).value == Satisfied(operands[k], context, matcher)
    decreases operands
  {
    forall k | 0 <= k < |operands|
      ensures Evaluate(operands[k], context, matcher).Ok? ==>
                Evaluate(operands[k], context, matcher).value == Satisfied(operands[k], context, matcher)
    {
      EvaluationMeans(operands[k], context, matcher);
    }
  }

  lemma CombinationMeans(operands: seq<Condition>, context: Json, matcher: Matcher)
    requires forall k | 0 <= k < |operands| ::
               Evaluate(operands[k], context, matcher).Ok? ==>
                 Evaluate(operands[k], context, matcher).value == Satisfied(operands[k], context, matcher)
    ensures var all := EvaluateAll(operands, 0, context, matcher);
            all.Ok? ==> all.value == Satisfied(All(operands), context, matcher)
    ensures var some := EvaluateAny(operands, 0, context, matcher);
            some.Ok? ==> some.value == Satisfied(AnyOf(operands), context, matcher)
  {
    OperandsDecide(operands, 0, context, matcher);
    if EvaluateAll(operands, 0, context, matcher) == Ok(false) {
      var k :| 0 <= k < |operands| && Evaluate(operands[k], context, matcher) == Ok(false);
      assert operands[k] in operands && !Satisfied(operands[k], context, matcher);
    }
    if EvaluateAny(operands, 0, context, matcher) == Ok(true) {
      var k :| 0 <= k < |operands| && Evaluate(operands[k], context, matcher) == Ok(true);
      assert operands[k] in operands && Satisfied(operands[k], context, matcher);
    }
  }
}
