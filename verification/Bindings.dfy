/** Explicit bindings: literals, pointers, first_of candidates and object fields. */
module Bindings {
  import opened Foundations
  import opened Json
  import opened Pointers

  // A pointer or first_of binding is optional exactly when it has a default.
  datatype Binding =
    | Literal(value: Json)
    | Pointer(pointer: string, default: Option<Json>)
    | FirstOf(members: seq<string>, default: Option<Json>)
    | Fields(fields: seq<Named>)

  datatype Named = Named(name: string, binding: Binding)

  // ---- Resolution ----------------------------------------------------------

  // Every member is looked up before one is selected, so syntax errors never hide.
  function LookupAll(members: seq<string>, context: Json): Result<seq<Option<Json>>, ErrorCode> {
    if members == [] then Ok([])
    else
      var first :- Lookup(members[0], context);
      var rest :- LookupAll(members[1..], context);
      Ok([first] + rest)
  }

  function FirstPresent(candidates: seq<Option<Json>>): Option<Json> {
    if candidates == [] then None
    else if candidates[0].Some? && candidates[0].value != Null then candidates[0]
    else FirstPresent(candidates[1..])
  }

  function OrDefault(found: Option<Json>, default: Option<Json>): Result<Json, ErrorCode> {
    match found
    case Some(value) => Ok(value)
    case None =>
      match default
      case Some(value) => Freeze(value)
      case None => Err(MissingBinding)
  }

  function ResolveBinding(binding: Binding, context: Json): Result<Json, ErrorCode>
    decreases binding
  {
    match binding
    case Literal(value) => Freeze(value)
    case Pointer(pointer, default) =>
      var found :- Lookup(pointer, context);
      OrDefault(found, default)
    case FirstOf(members, default) =>
      if members == [] then Err(InvalidConfiguration)
      else
        var candidates :- LookupAll(members, context);
        OrDefault(FirstPresent(candidates), default)
    case Fields(fields) =>
      if fields == [] then Err(InvalidConfiguration)
      else
        var values :- ResolveFrom(fields, 0, map[], context);
        Ok(Obj(values))
  }

  function ResolveFrom(bindings: seq<Named>, k: nat, values: Object, context: Json)
    : Result<Object, ErrorCode>
    requires k <= |bindings|
    decreases bindings, |bindings| - k
  {
    if k == |bindings| then Ok(values)
    else if bindings[k].name in values then Err(InvalidConfiguration)
    else
      var value :- ResolveBinding(bindings[k].binding, context);
      ResolveFrom(bindings, k + 1, values[bindings[k].name := value], context)
  }

  function ResolveAll(bindings: seq<Named>, context: Json): Result<Object, ErrorCode> {
    ResolveFrom(bindings, 0, map[], context)
  }

  // resolve_bindings as it is written: one dictionary filled name by name.
  method ResolveBindings(bindings: seq<Named>, context: Json)
    returns (r: Result<Object, ErrorCode>)
    ensures r == ResolveAll(bindings, context)
  {
    var values: Object := map[];
    for k := 0 to |bindings|
      invariant ResolveFrom(bindings, k, values, context) == ResolveAll(bindings, context)
    {
      var Named(name, binding) := bindings[k];
      if name in values {
        return Err(InvalidConfiguration);
      }
      var value := ResolveBinding(binding, context);
      if value.Err? {
        return Err(value.error);
      }
      values := values[name := value.value];
    }
    return Ok(values);
  }

  // A condition's source: null counts as absent, so Ok(Null) is "not present".
  function ResolveSource(source: Binding, context: Json): Result<Json, ErrorCode> {
    match source
    case Literal(value) => Freeze(value)
    case Pointer(pointer, None) =>
      var found :- Lookup(pointer, context);
      Ok(if found.Some? then found.value else Null)
    case FirstOf(members, None) =>
      if members == [] then Err(InvalidConfiguration)
      else
        var candidates :- LookupAll(members, context);
        var found := FirstPresent(candidates);
        Ok(if found.Some? then found.value else Null)
    case _ => Err(InvalidConfiguration)
  }

  // ---- When a binding resolves ----------------------------------------------

  // What the authoring contract guarantees of a compiled binding.
  predicate Authored(binding: Binding)
    decreases binding
  {
    match binding
    case Literal(value) => Fits(value, 0, MAX_JSON_DEPTH)
    case Pointer(pointer, default) => WellFormed(pointer) && AuthoredDefault(default)
    case FirstOf(members, default) =>
      members != [] && (forall m | m in members :: WellFormed(m)) && AuthoredDefault(default)
    case Fields(fields) => fields != [] && AuthoredPairs(fields)
  }

  predicate AuthoredDefault(default: Option<Json>) {
    default.Some? ==> Fits(default.value, 0, MAX_JSON_DEPTH)
  }

  predicate AuthoredPairs(pairs: seq<Named>)
    decreases pairs
  {
    && (forall k | 0 <= k < |pairs| :: Authored(pairs[k].binding))
    && forall j, k | 0 <= j < k < |pairs| :: pairs[j].name != pairs[k].name
  }

  // A source of a value at run time.  A first_of member that resolves to null is
  // skipped like a missing one.
  predicate Resolvable(binding: Binding, context: Json)
    decreases binding
  {
    match binding
    case Literal(_) => true
    case Pointer(pointer, default) => default.Some? || Walk(Tokens(pointer), context).Some?
    case FirstOf(members, default) => default.Some? || exists m | m in members :: Present(m, context)
    case Fields(fields) => forall k | 0 <= k < |fields| :: Resolvable(fields[k].binding, context)
  }

  predicate AllResolvable(pairs: seq<Named>, context: Json) {
    forall k | 0 <= k < |pairs| :: Resolvable(pairs[k].binding, context)
  }

  predicate Present(pointer: string, context: Json) {
    var found := Walk(Tokens(pointer), context);
    found.Some? && found.value != Null
  }

  // ---- Pointers the engine does not follow -----------------------------------------

  // Compilation bounds no pointer, and the engine follows at most MAX_JSON_DEPTH tokens.
  predicate Short(binding: Binding)
    decreases binding
  {
    match binding
    case Literal(_) => true
    case Pointer(pointer, _) => !Long(pointer)
    case FirstOf(members, _) => forall m | m in members :: !Long(m)
    case Fields(fields) => ShortPairs(fields)
  }

  predicate ShortPairs(pairs: seq<Named>)
    decreases pairs
  {
    forall k | 0 <= k < |pairs| :: Short(pairs[k].binding)
  }

  // Resolution comes to a pointer that is too long: all members of a first_of are
  // looked up, and fields in order until one is missing.
  predicate Overlong(binding: Binding, context: Json)
    decreases binding
  {
    match binding
    case Literal(_) => false
    case Pointer(pointer, _) => Long(pointer)
    case FirstOf(members, _) => exists m | m in members :: Long(m)
    case Fields(fields) =>
      exists k | 0 <= k < |fields| :: Overlong(fields[k].binding, context)
        && forall j | 0 <= j < k :: Resolvable(fields[j].binding, context)
  }

  predicate OverlongPairs(pairs: seq<Named>, from: nat, context: Json) {
    exists k | from <= k < |pairs| :: Overlong(pairs[k].binding, context)
      && forall j | from <= j < k :: Resolvable(pairs[j].binding, context)
  }

  lemma {:induction false} ShortNeverOverlong(binding: Binding, context: Json)
    requires Short(binding)
    ensures !Overlong(binding, context)
    decreases binding
  {
    if binding.Fields? {
      forall k | 0 <= k < |binding.fields| ensures !Overlong(binding.fields[k].binding, context) {
        ShortNeverOverlong(binding.fields[k].binding, context);
      }
    }
  }

  lemma ShortPairsNeverOverlong(pairs: seq<Named>, context: Json)
    requires ShortPairs(pairs)
    ensures !OverlongPairs(pairs, 0, context)
  {
    forall k | 0 <= k < |pairs| ensures !Overlong(pairs[k].binding, context) {
      ShortNeverOverlong(pairs[k].binding, context);
    }
  }

  lemma {:induction false} LookupAllAuthored(members: seq<string>, context: Json)
    requires forall m | m in members :: WellFormed(m)
    ensures var candidates := LookupAll(members, context);
            && (candidates.Err? <==> exists m | m in members :: Long(m))
            && (candidates.Err? ==> candidates.error == InvalidConfiguration)
            && (candidates.Ok? ==>
                  (FirstPresent(candidates.value).Some? <==> exists m | m in members :: Present(m, context)))
  {
    if members != [] {
      assert members[0] in members;
      LookupAllAuthored(members[1..], context);
      assert forall m :: m in members <==> m == members[0] || m in members[1..];
      var candidates := LookupAll(members, context);
      if candidates.Ok? {
        assert candidates.value[1..] == LookupAll(members[1..], context).value;
        var first := candidates.value[0];
        if first.Some? && first.value != Null {
          assert Present(members[0], context);
        } else {
          assert !Present(members[0], context);
        }
      }
    }
  }

  // An authored binding resolves exactly when it has a source and no pointer that is
  // looked up is too long; a pointer that is too long is a configuration error, and
  // the only other failure is a missing binding.
  lemma {:induction false} ResolvesIffResolvable(binding: Binding, context: Json)
    requires Authored(binding)
    ensures ResolveBinding(binding, context).Ok? <==> Resolvable(binding, context) && !Overlong(binding, context)
    ensures ResolveBinding(binding, context).Err? ==>
              ResolveBinding(binding, context).error
              == if Overlong(binding, context) then InvalidConfiguration else MissingBinding
    decreases binding, 0
  {
    match binding
    case Literal(_) =>
    case Pointer(_, _) =>
    case FirstOf(members, _) => LookupAllAuthored(members, context);
    case Fields(fields) =>
      ResolvesFrom(fields, 0, map[], context);
      assert Overlong(binding, context) == OverlongPairs(fields, 0, context);
  }

  lemma {:induction false} ResolvesFrom(pairs: seq<Named>, k: nat, values: Object, context: Json)
    requires AuthoredPairs(pairs) && k <= |pairs| && Earlier(pairs, k, values)
    ensures var r := ResolveFrom(pairs, k, values, context);
            && (r.Ok? <==> !OverlongPairs(pairs, k, context)
                           && forall j | k <= j < |pairs| :: Resolvable(pairs[j].binding, context))
            && (r.Err? ==> r.error == if OverlongPairs(pairs, k, context) then InvalidConfiguration else MissingBinding)
    decreases pairs, |pairs| - k
  {
    if k < |pairs| {
      ResolvesIffResolvable(pairs[k].binding, context);
      OverlongNext(pairs, k, context);
      var value := ResolveBinding(pairs[k].binding, context);
      if value.Ok? {
        EarlierNext(pairs, k, values, value.value);
        ResolvesFrom(pairs, k + 1, values[pairs[k].name := value.value], context);
      }
    }
  }

  // The values are those of the first k pairs.
  predicate Earlier(pairs: seq<Named>, k: nat, values: Object) {
    forall name | name in values :: exists j | 0 <= j < k && j < |pairs| :: pairs[j].name == name
  }

  lemma EarlierNext(pairs: seq<Named>, k: nat, values: Object, value: Json)
    requires k < |pairs| && Earlier(pairs, k, values)
    ensures Earlier(pairs, k + 1, values[pairs[k].name := value])
  {
  }

  lemma OverlongNext(pairs: seq<Named>, k: nat, context: Json)
    requires k < |pairs|
    ensures OverlongPairs(pairs, k, context) <==>
            Overlong(pairs[k].binding, context)
            || (Resolvable(pairs[k].binding, context) && OverlongPairs(pairs, k + 1, context))
  {
  }

  // The same for a whole argument set.
  lemma ArgumentsResolve(pairs: seq<Named>, context: Json)
    requires AuthoredPairs(pairs)
    ensures ResolveAll(pairs, context).Ok? <==>
            !OverlongPairs(pairs, 0, context) && AllResolvable(pairs, context)
    ensures ResolveAll(pairs, context).Err? ==>
              ResolveAll(pairs, context).error
              == if OverlongPairs(pairs, 0, context) then InvalidConfiguration else MissingBinding
  {
    ResolvesFrom(pairs, 0, map[], context);
  }

  // What an argument set holds: exactly the bound names, each with its own value.
  lemma {:induction false} ArgumentValues(pairs: seq<Named>, k: nat, values: Object, context: Json)
    requires k <= |pairs|
    requires ResolveFrom(pairs, k, values, context).Ok?
    ensures var all := ResolveFrom(pairs, k, values, context).value;
            && all.Keys == values.Keys + (set j | k <= j < |pairs| :: pairs[j].name)
            && (forall name | name in values :: all[name] == values[name])
            && (forall j | k <= j < |pairs| ::
                  Ok(all[pairs[j].name]) == ResolveBinding(pairs[j].binding, context))
    decreases |pairs| - k
  {
    if k < |pairs| {
      var value := ResolveBinding(pairs[k].binding, context).value;
      ArgumentValues(pairs, k + 1, values[pairs[k].name := value], context);
    }
  }

  function NamesOf(pairs: seq<Named>): set<string> {
    set k | 0 <= k < |pairs| :: pairs[k].name
  }

  // The object holds exactly the bound names, each with the value of its own binding.
  predicate Binds(pairs: seq<Named>, context: Json, inputs: Object) {
    && inputs.Keys == NamesOf(pairs)
    && forall k | 0 <= k < |pairs| ::
         pairs[k].name in inputs && Ok(inputs[pairs[k].name]) == ResolveBinding(pairs[k].binding, context)
  }

  lemma ArgumentsBind(pairs: seq<Named>, context: Json, inputs: Object)
    requires ResolveAll(pairs, context) == Ok(inputs)
    ensures Binds(pairs, context, inputs)
  {
    ArgumentValues(pairs, 0, map[], context);
  }

  predicate DistinctPairs(pairs: seq<Named>) {
    forall j, k | 0 <= j < k < |pairs| :: pairs[j].name != pairs[k].name
  }

  lemma {:induction false} BoundFrom(pairs: seq<Named>, k: nat, values: Object, context: Json)
    requires DistinctPairs(pairs) && k <= |pairs|
    requires forall j | k <= j < |pairs| :: ResolveBinding(pairs[j].binding, context).Ok? && pairs[j].name !in values
    ensures ResolveFrom(pairs, k, values, context).Ok?
    decreases |pairs| - k
  {
    if k < |pairs| {
      BoundFrom(pairs, k + 1, values[pairs[k].name := ResolveBinding(pairs[k].binding, context).value], context);
    }
  }

  // Pairs of distinct names deliver exactly the object that holds their values.
  lemma BindsIff(pairs: seq<Named>, context: Json, inputs: Object)
    requires DistinctPairs(pairs)
    ensures ResolveAll(pairs, context) == Ok(inputs) <==> Binds(pairs, context, inputs)
  {
    if Binds(pairs, context, inputs) {
      BoundFrom(pairs, 0, map[], context);
      var all := ResolveAll(pairs, context).value;
      ArgumentsBind(pairs, context, all);
      forall name | name in inputs ensures all[name] == inputs[name] {
        var k :| 0 <= k < |pairs| && pairs[k].name == name;
        assert ResolveBinding(pairs[k].binding, context) == Ok(inputs[pairs[k].name]);
      }
      assert all == inputs;
    }
    if ResolveAll(pairs, context) == Ok(inputs) {
      ArgumentsBind(pairs, context, inputs);
    }
  }

  // A required first_of is not safe merely because one of its pointers exists:
  // a null member is skipped, and the run fails with a missing binding.
  lemma NullMemberIsMissing(member: string, context: Json)
    requires Admissible(member) && Walk(Tokens(member), context) == Some(Null)
    ensures ResolveBinding(Pointer(member, None), context) == Ok(Null)
    ensures ResolveBinding(FirstOf([member], None), context) == Err(MissingBinding)
  {
    LookupAllAuthored([member], context);
    ResolvesIffResolvable(FirstOf([member], None), context);
  }

  // "/payload/a/a/...": a pointer into the payload with this many tokens below.
  function DeepTokens(count: nat): seq<string> {
    ["payload"] + seq(count, _ => "a")
  }

  function DeepPointer(count: nat): string {
    Spell(DeepTokens(count))
  }

  lemma DeepPointerReads(count: nat)
    ensures Tokens(DeepPointer(count)) == DeepTokens(count) && |DeepTokens(count)| == count + 1
    ensures WellFormed(DeepPointer(count)) && (Long(DeepPointer(count)) <==> count + 1 > MAX_JSON_DEPTH)
  {
    SpellRoundTrip(DeepTokens(count));
  }

  // A pointer of 65 tokens into the payload fails as a configuration error in every context,
  // even with a default; with 64 tokens the default is delivered.
  lemma LongPointerIsMisconfigured(default: Json, context: Json)
    requires Fits(default, 0, MAX_JSON_DEPTH)
    ensures |Tokens(DeepPointer(MAX_JSON_DEPTH))| == MAX_JSON_DEPTH + 1
    ensures Tokens(DeepPointer(MAX_JSON_DEPTH))[0] == "payload"
    ensures Authored(Pointer(DeepPointer(MAX_JSON_DEPTH), Some(default)))
    ensures ResolveBinding(Pointer(DeepPointer(MAX_JSON_DEPTH), Some(default)), context) == Err(InvalidConfiguration)
    ensures ResolveBinding(Pointer(DeepPointer(MAX_JSON_DEPTH - 1), Some(default)), context).Ok?
  {
    DeepPointerReads(MAX_JSON_DEPTH);
    DeepPointerReads(MAX_JSON_DEPTH - 1);
    LongFails(DeepPointer(MAX_JSON_DEPTH), default, context);
    ShortDelivers(DeepPointer(MAX_JSON_DEPTH - 1), default, context);
  }

  lemma LongFails(pointer: string, default: Json, context: Json)
    requires WellFormed(pointer) && Long(pointer)
    ensures ResolveBinding(Pointer(pointer, Some(default)), context) == Err(InvalidConfiguration)
  {
    ResolvesIffResolvable(Pointer(pointer, None), context);
    assert Overlong(Pointer(pointer, None), context);
  }

  lemma ShortDelivers(pointer: string, default: Json, context: Json)
    requires WellFormed(pointer) && !Long(pointer) && Fits(default, 0, MAX_JSON_DEPTH)
    ensures ResolveBinding(Pointer(pointer, Some(default)), context).Ok?
  {
    ResolvesIffResolvable(Pointer(pointer, Some(default)), context);
  }

  // Every pointer of a binding, including object fields and candidates.
  function PointersOf(binding: Binding): seq<string>
    decreases binding, 0
  {
    match binding
    case Literal(_) => []
    case Pointer(pointer, _) => [pointer]
    case FirstOf(members, _) => members
    case Fields(fields) => PairPointers(fields)
  }

  function PairPointers(pairs: seq<Named>): seq<string>
    decreases pairs, 1
  {
    if pairs == [] then [] else PointersOf(pairs[0].binding) + PairPointers(pairs[1..])
  }
}
