/**
 Static views of JSON Schema nodes.  `Valid` collects necessary conditions of validity in
 JSON Schema 2020-12 (Core sections 10.2 and 10.3, Validation section 6.1), so whatever
 is proved of every valid value holds of every value a validator accepts.
 */
module StaticSchemas {
  import opened Foundations
  import opened Json
  import opened JsonEquality
  import opened Pointers

  datatype Kind = KNull | KBoolean | KString | KInteger | KNumber | KObject | KArray

  datatype TypeDecl = OneType(kind: Kind) | Types(kinds: set<Kind>)

  // The keywords static analysis reads.  `blocked`: allOf, not or if is present;
  // `branching`: then or else is present; `patterned`: patternProperties is not empty.
  datatype Schema =
    | Never
    | Always
    | Node(reference: Option<string>,
           type_: Option<TypeDecl>,
           const_: Option<Json>,
           enum_: Option<seq<Json>>,
           anyOf: Option<seq<Schema>>,
           oneOf: Option<seq<Schema>>,
           blocked: bool,
           branching: bool,
           properties: Option<map<string, Schema>>,
           patterned: bool,
           additional: Option<Schema>,
           prefixItems: Option<seq<Schema>>,
           items: Option<Schema>,
           maxItems: Option<int>)

  const OPEN := Node(None, None, None, None, None, None, false, false, None, false, None, None, None, None)

  // A schema in its resource, and the local references of every resource.
  datatype View = View(schema: Schema, home: string) {
    function Unknown(): View {
      View(OPEN, home)
    }
  }

  type Links = map<(string, string), View>

  // ---- Values and types --------------------------------------------------------------

  function KindOf(value: Json): Kind {
    match value
    case Null => KNull
    case Bool(_) => KBoolean
    case Str(_) => KString
    case Int(_) => KInteger
    case Float(_) => KNumber
    case Obj(_) => KObject
    case Arr(_) => KArray
  }

  // An integral float is an integer, and an integer a number.
  predicate OfKind(kind: Kind, value: Json) {
    match kind
    case KInteger => value.Int? || (value.Float? && value.r == value.r.Floor as real)
    case KNumber => IsNumber(value)
    case _ => KindOf(value) == kind
  }

  predicate OfSome(kinds: set<Kind>, value: Json) {
    exists kind :: kind in kinds && OfKind(kind, value)
  }

  function Declared(decl: TypeDecl): set<Kind> {
    match decl
    case OneType(kind) => {kind}
    case Types(kinds) => kinds
  }

  // The schema of one property, where this node constrains it.
  function PropertySchema(schema: Schema, name: string): Option<Schema>
    requires schema.Node?
  {
    if schema.properties.Some? && name in schema.properties.value then Some(schema.properties.value[name])
    else if schema.patterned then None
    else schema.additional
  }

  function ItemSchema(schema: Schema, index: nat): Option<Schema>
    requires schema.Node?
  {
    if schema.prefixItems.Some? && index < |schema.prefixItems.value| then Some(schema.prefixItems.value[index])
    else schema.items
  }

  // The keywords that look at the value itself.
  predicate Plain(schema: Schema, value: Json)
    requires schema.Node?
  {
    && (schema.type_.Some? ==> OfSome(Declared(schema.type_.value), value))
    && (schema.const_.Some? ==> JsonEqual(schema.const_.value, value))
    && (schema.enum_.Some? ==> exists k :: 0 <= k < |schema.enum_.value| && JsonEqual(schema.enum_.value[k], value))
    && (schema.maxItems.Some? && value.Arr? ==> |value.items| <= schema.maxItems.value)
  }

  greatest predicate Valid(links: Links, view: View, value: Json) {
    !view.schema.Never?
    && (view.schema.Node? ==>
          var schema := view.schema;
          && Plain(schema, value)
          && (schema.reference.Some? && (view.home, schema.reference.value) in links ==>
                Valid(links, links[(view.home, schema.reference.value)], value))
          && (schema.anyOf.Some? && schema.anyOf.value != [] ==>
                exists k :: 0 <= k < |schema.anyOf.value|
                    && Valid(links, View(schema.anyOf.value[k], view.home), value))
          && (schema.oneOf.Some? && schema.oneOf.value != [] ==>
                exists k :: 0 <= k < |schema.oneOf.value|
                    && Valid(links, View(schema.oneOf.value[k], view.home), value))
          && (value.Obj? ==> forall name :: name in value.fields && PropertySchema(schema, name).Some? ==>
                               Valid(links, View(PropertySchema(schema, name).value, view.home), value.fields[name]))
          && (value.Arr? ==> forall k :: 0 <= k < |value.items| && ItemSchema(schema, k).Some? ==>
                               Valid(links, View(ItemSchema(schema, k).value, view.home), value.items[k])))
  }

  lemma OpenIsValid(links: Links, home: string, value: Json)
    ensures Valid(links, View(OPEN, home), value)
  {
  }

  // ---- Following references ------------------------------------------------------------

  // `resolved`: the first view without a followable reference; a cycle is unknown.
  function Resolve(links: Links, view: View, seen: set<View>): (resolved: View)
    ensures !(resolved.schema.Node? && resolved.schema.reference.Some?)
    decreases links.Values - seen
  {
    if !view.schema.Node? || view.schema.reference.None? then view
    else if (view.home, view.schema.reference.value) !in links then view.Unknown()
    else
      var target := links[(view.home, view.schema.reference.value)];
      assert target in links.Values;
      if target in seen then target.Unknown()
      else
        assert target in links.Values - seen;
        Resolve(links, target, seen + {target})
  }

  function Resolved(links: Links, view: View): View {
    Resolve(links, view, {view})
  }

  lemma {:induction false} ResolveValid(links: Links, view: View, seen: set<View>, value: Json)
    requires Valid(links, view, value)
    ensures Valid(links, Resolve(links, view, seen), value)
    decreases links.Values - seen
  {
    if view.schema.Node? && view.schema.reference.Some? {
      OpenIsValid(links, view.home, value);
      if (view.home, view.schema.reference.value) in links {
        var target := links[(view.home, view.schema.reference.value)];
        assert target in links.Values;
        OpenIsValid(links, target.home, value);
        if target !in seen {
          assert target in links.Values - seen;
          ResolveValid(links, target, seen + {target}, value);
        }
      }
    }
  }

  // The loop of `resolved`.
  method ResolveReferences(links: Links, view: View) returns (current: View)
    ensures current == Resolved(links, view)
  {
    current := view;
    var seen: set<View> := {view};
    while current.schema.Node? && current.schema.reference.Some?
      invariant Resolve(links, current, seen) == Resolved(links, view)
      decreases links.Values - seen
    {
      if (current.home, current.schema.reference.value) !in links {
        return current.Unknown();
      }
      current := links[(current.home, current.schema.reference.value)];
      assert current in links.Values;
      if current in seen {
        return current.Unknown();
      }
      assert current in links.Values - seen;
      seen := seen + {current};
    }
  }

  // ---- One step below a view ------------------------------------------------------------------

  function SchemaTypes(links: Links, view: View): Option<set<Kind>> {
    var schema := Resolved(links, view).schema;
    if !schema.Node? then None
    else if schema.type_.Some? then Some(Declared(schema.type_.value))
    else if schema.const_.Some? then Some({KindOf(schema.const_.value)})
    else if schema.enum_.Some? then Some(set k | 0 <= k < |schema.enum_.value| :: KindOf(schema.enum_.value[k]))
    else None
  }

  predicate Applicators(schema: Schema)
    requires schema.Node?
  {
    schema.blocked || schema.branching || schema.anyOf.Some? || schema.oneOf.Some?
  }

  const MAX_INDEX_DIGITS: nat := 18

  function ArrayChild(view: View, token: string): Option<View>
    requires view.schema.Node?
  {
    if !IsIndex(token) || |token| > MAX_INDEX_DIGITS then None
    else if view.schema.maxItems.Some? && ParseIndex(token) >= view.schema.maxItems.value then None
    else
      var child := ItemSchema(view.schema, ParseIndex(token));
      if child == Some(Never) then None
      else Some(View(if child.Some? then child.value else OPEN, view.home))
  }

  function ObjectChild(view: View, types: Option<set<Kind>>, token: string): Option<View>
    requires view.schema.Node?
  {
    var schema := view.schema;
    var listed := schema.properties.Some? && token in schema.properties.value;
    if !listed && (schema.patterned || (types.Some? && types.value != {KObject})) then Some(view.Unknown())
    else
      var child := PropertySchema(schema, token);
      if child == Some(Never) then None
      else Some(View(if child.Some? then child.value else OPEN, view.home))
  }

  // `SchemaView.child`: None only for a path that is statically impossible.
  function Child(links: Links, original: View, token: string): Option<View> {
    var view := Resolved(links, original);
    if view.schema.Never? then None
    else if view.schema.Always? || Applicators(view.schema) then Some(view.Unknown())
    else
      var types := SchemaTypes(links, view);
      if types.Some? && KObject !in types.value && KArray !in types.value then None
      else if IsIndex(token) && types != Some({KArray})
          && (types.None? || KArray in types.value) then Some(view.Unknown())
      else if types == Some({KArray}) then ArrayChild(view, token)
      else ObjectChild(view, types, token)
  }

  // The analysis reads indexes of at most 18 digits: longer ones select nothing from an
  // array shorter than 10^18.
  predicate Short(value: Json) {
    value.Arr? ==> |value.items| < 1_000_000_000_000_000_000
  }

  predicate Narrow(token: string) {
    IsIndex(token) ==> |token| <= MAX_INDEX_DIGITS
  }

  lemma EqualKinds(one: Json, other: Json)
    requires JsonEqual(one, other)
    ensures OfKind(KindOf(one), other) || (one.Float? && other.Int?) || (one.Int? && other.Float?)
    ensures other.Obj? ==> KindOf(one) == KObject
    ensures other.Arr? ==> KindOf(one) == KArray
  {
  }

  // The declared types cover every valid object and array.
  lemma ContainerTyped(links: Links, view: View, value: Json)
    requires Valid(links, view, value) && (value.Obj? || value.Arr?) && SchemaTypes(links, view).Some?
    ensures KindOf(value) in SchemaTypes(links, view).value
  {
    ResolveValid(links, view, {view}, value);
    var schema := Resolved(links, view).schema;
    assert Plain(schema, value);
    if schema.type_.Some? {
      var kind :| kind in Declared(schema.type_.value) && OfKind(kind, value);
    } else if schema.const_.Some? {
      EqualKinds(schema.const_.value, value);
    } else {
      var k :| 0 <= k < |schema.enum_.value| && JsonEqual(schema.enum_.value[k], value);
      EqualKinds(schema.enum_.value[k], value);
    }
  }

  lemma {:induction false} IndexFits(key: string)
    requires IsIndex(key) && |key| > MAX_INDEX_DIGITS
    ensures ParseIndex(key) >= 1_000_000_000_000_000_000
  {
    assert key[0] != '0';
    IndexAtLeast(key);
    Power10Monotone(18, |key| - 1);
    assert Power10(2) == 100 && Power10(4) == 10_000 && Power10(6) == 1_000_000 && Power10(8) == 100_000_000;
    assert Power10(10) == 10_000_000_000 && Power10(12) == 1_000_000_000_000 && Power10(14) == 100_000_000_000_000;
    assert Power10(16) == 10_000_000_000_000_000 && Power10(18) == 1_000_000_000_000_000_000;
  }

  lemma ArrayChildCovers(links: Links, view: View, value: Json, token: string, below: Json)
    requires view.schema.Node? && Valid(links, view, value) && value.Arr? && (Narrow(token) || Short(value))
    requires Select(value, token) == Some(below)
    ensures ArrayChild(view, token).Some? && Valid(links, ArrayChild(view, token).value, below)
  {
    SelectsItem(value.items, token);
    if |token| > MAX_INDEX_DIGITS {
      IndexFits(token);
    }
    assert Plain(view.schema, value);
    OpenIsValid(links, view.home, below);
  }

  lemma ObjectChildCovers(links: Links, view: View, types: Option<set<Kind>>, value: Json, token: string, below: Json)
    requires view.schema.Node? && Valid(links, view, value) && value.Obj? && Select(value, token) == Some(below)
    ensures ObjectChild(view, types, token).Some? && Valid(links, ObjectChild(view, types, token).value, below)
  {
    OpenIsValid(links, view.home, below);
  }

  // Whatever a pointer token selects from a valid value is valid for the child view; a
  // path the view calls impossible never selects anything.
  lemma ChildCovers(links: Links, original: View, value: Json, token: string, below: Json)
    requires Valid(links, original, value) && (Narrow(token) || Short(value)) && Select(value, token) == Some(below)
    ensures Child(links, original, token).Some? && Valid(links, Child(links, original, token).value, below)
  {
    var view := Resolved(links, original);
    ResolveValid(links, original, {original}, value);
    OpenIsValid(links, view.home, below);
    if view.schema.Node? && !Applicators(view.schema) {
      var types := SchemaTypes(links, view);
      if types.Some? {
        ContainerTyped(links, view, value);
      }
      if value.Arr? {
        SelectsItem(value.items, token);
        ArrayChildCovers(links, view, value, token, below);
      } else {
        ObjectChildCovers(links, view, types, value, token, below);
      }
    }
  }

  // ---- Where the reading of indexes fails ---------------------------------------------------

  // An array and nothing else, with no keyword that combines schemas.
  predicate ArrayView(links: Links, view: View) {
    && view.schema.Node? && Resolved(links, view) == view && !Applicators(view.schema)
    && SchemaTypes(links, view) == Some({KArray})
  }

  // Below such a view a token that selects an item of a valid array is called impossible
  // exactly when it has more than 18 digits.
  lemma LongIndexIsImpossible(links: Links, view: View, value: Json, token: string)
    requires ArrayView(links, view) && Valid(links, view, value) && value.Arr? && Select(value, token).Some?
    ensures Child(links, view, token).None? <==> |token| > MAX_INDEX_DIGITS
  {
    SelectsItem(value.items, token);
    if |token| <= MAX_INDEX_DIGITS {
      ArrayChildCovers(links, view, value, token, Select(value, token).value);
    }
  }

  const LIST := View(OPEN.(type_ := Some(OneType(KArray))), "")

  // Any array satisfies the schema of arrays, so for every longer index there is an array in
  // which it selects an item, although the analysis calls it impossible.
  lemma LongIndexSelects(token: string) returns (value: Json)
    requires IsIndex(token) && |token| > MAX_INDEX_DIGITS
    ensures Valid(map[], LIST, value) && Select(value, token) == Some(Null) && Child(map[], LIST, token).None?
  {
    value := Arr(seq(ParseIndex(token) + 1, _ => Null));
    assert OfKind(KArray, value) && KArray in Declared(OneType(KArray));
    SelectsItem(value.items, token);
    assert ArrayView(map[], LIST);
    LongIndexIsImpossible(map[], LIST, value, token);
  }

  // The first index of 19 digits.
  lemma NineteenDigits() returns (token: string, value: Json)
    ensures IsIndex(token) && |token| == 19
    ensures Valid(map[], LIST, value) && Select(value, token) == Some(Null) && Child(map[], LIST, token).None?
  {
    token := "1000000000000000000";
    value := LongIndexSelects(token);
  }
}
