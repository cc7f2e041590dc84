/** The three separately written JSON equalities, and why they are one relation. */
module JsonEquality {
  import opened Foundations
  import opened Json

  // Deep equality of the condition evaluator: no coercion, numbers by value.
  predicate JsonEqual(left: Json, right: Json)
    decreases left
  {
    if left.Bool? || right.Bool? then
      left.Bool? && right.Bool? && left.b == right.b
    else if IsNumber(left) && IsNumber(right) then
      Number(left) == Number(right)
    else if left.Str? || right.Str? then
      left.Str? && right.Str? && left.s == right.s
    else if left.Null? || right.Null? then
      left.Null? && right.Null?
    else if left.Obj? && right.Obj? then
      && left.fields.Keys == right.fields.Keys
      && forall k | k in left.fields :: JsonEqual(left.fields[k], right.fields[k])
    else if left.Arr? && right.Arr? then
      && |left.items| == |right.items|
      && forall k | 0 <= k < |left.items| :: JsonEqual(left.items[k], right.items[k])
    else
      false
  }

  // The value behind the compiler's canonical key: integral floats become
  // integers at every depth.  Two values have the same key text exactly when
  // these canonical values coincide.
  function JsonKey(j: Json): Json
    decreases j
  {
    match j
    case Float(r) => if r == r.Floor as real then Int(r.Floor) else j
    case Arr(items) => Arr(seq(|items|, k requires 0 <= k < |items| => JsonKey(items[k])))
    case Obj(fields) => Obj(map k | k in fields :: JsonKey(fields[k]))
    case _ => j
  }

  // ---- Code point order of object keys ------------------------------------

  predicate KeyLe(a: string, b: string) {
    a == [] || (b != [] && (a[0] < b[0] || (a[0] == b[0] && KeyLe(a[1..], b[1..]))))
  }

  lemma {:induction false} KeyLeTotal(a: string, b: string)
    ensures KeyLe(a, b) || KeyLe(b, a)
  {
    if a != [] && b != [] && a[0] == b[0] {
      KeyLeTotal(a[1..], b[1..]);
    }
  }

  lemma {:induction false} KeyLeTransitive(a: string, b: string, c: string)
    requires KeyLe(a, b) && KeyLe(b, c)
    ensures KeyLe(a, c)
  {
    if a != [] && a[0] == b[0] == c[0] {
      KeyLeTransitive(a[1..], b[1..], c[1..]);
    }
  }

  lemma {:induction false} LeastKeyExists(keys: set<string>) returns (least: string)
    requires keys != {}
    ensures least in keys && forall k | k in keys :: KeyLe(least, k)
  {
    var k :| k in keys;
    if keys == {k} {
      least := k;
      KeyLeTotal(k, k);
    } else {
      var rest := LeastKeyExists(keys - {k});
      KeyLeTotal(k, rest);
      KeyLeTotal(k, k);
      least := if KeyLe(k, rest) then k else rest;
      forall other | other in keys ensures KeyLe(least, other) {
        if other != k && least == k {
          KeyLeTransitive(k, rest, other);
        }
      }
    }
  }

  ghost function LeastKey(keys: set<string>): (least: string)
    requires keys != {}
    ensures least in keys
  {
    LeastKeyExistsPlain(keys);
    var least :| least in keys && forall k | k in keys :: KeyLe(least, k);
    least
  }

  lemma LeastKeyExistsPlain(keys: set<string>)
    requires keys != {}
    ensures exists least :: least in keys && forall k | k in keys :: KeyLe(least, k)
  {
    var _ := LeastKeyExists(keys);
  }

  // ---- The registration check's comparison --------------------------------

  predicate SafeToken(key: string) {
    && 1 <= |key| <= 64
    && forall k | 0 <= k < |key| ::
      'A' <= key[k] <= 'Z' || 'a' <= key[k] <= 'z' || '0' <= key[k] <= '9' || key[k] in "_$.-"
  }

  function Digits(n: nat): string {
    if n < 10 then [('0' as int + n) as char] else Digits(n / 10) + [('0' as int + n % 10) as char]
  }

  function OrRoot(path: string): string {
    if path == "" then "/" else path
  }

  // The pointer of the first difference in canonical key order, or None.
  ghost function FirstDifference(left: Json, right: Json, path: string): Option<string>
    decreases left, 1, 0
  {
    if left.Obj? && right.Obj? then
      FirstFieldDifference(left, right, left.fields.Keys + right.fields.Keys, path)
    else if left.Arr? && right.Arr? then
      if |left.items| != |right.items| then Some(OrRoot(path))
      else FirstItemDifference(left, right, 0, path)
    else if IsNumber(left) && IsNumber(right) then
      if Number(left) != Number(right) then Some(OrRoot(path)) else None
    else if left != right then Some(OrRoot(path)) else None
  }

  ghost function FirstFieldDifference(left: Json, right: Json, keys: set<string>, path: string): Option<string>
    requires left.Obj? && right.Obj? && keys <= left.fields.Keys + right.fields.Keys
    decreases left, 0, |keys|
  {
    if keys == {} then None
    else
      var key := LeastKey(keys);
      var here := path + "/" + (if SafeToken(key) then key else "*");
      if key !in left.fields || key !in right.fields then Some(here)
      else
        var found := FirstDifference(left.fields[key], right.fields[key], here);
        if found.Some? then found else FirstFieldDifference(left, right, keys - {key}, path)
  }

  ghost function FirstItemDifference(left: Json, right: Json, index: nat, path: string): Option<string>
    requires left.Arr? && right.Arr? && |left.items| == |right.items| && index <= |left.items|
    decreases left, 0, |left.items| - index
  {
    if index == |left.items| then None
    else
      var found := FirstDifference(left.items[index], right.items[index], path + "/" + Digits(index));
      if found.Some? then found else FirstItemDifference(left, right, index + 1, path)
  }

  // ---- The three relations coincide ---------------------------------------

  lemma IntegralKey(a: Json, b: Json)
    requires IsNumber(a) && IsNumber(b)
    ensures JsonKey(a) == JsonKey(b) <==> Number(a) == Number(b)
  {
  }

  lemma {:induction false} EqualIffSameKey(a: Json, b: Json)
    ensures JsonEqual(a, b) <==> JsonKey(a) == JsonKey(b)
    decreases a
  {
    if a.Arr? && b.Arr? {
      if |a.items| == |b.items| {
        forall k | 0 <= k < |a.items|
          ensures JsonEqual(a.items[k], b.items[k]) <==> JsonKey(a).items[k] == JsonKey(b).items[k]
        {
          EqualIffSameKey(a.items[k], b.items[k]);
        }
      } else {
        assert |JsonKey(a).items| != |JsonKey(b).items|;
      }
    } else if a.Obj? && b.Obj? {
      assert JsonKey(a).fields.Keys == a.fields.Keys && JsonKey(b).fields.Keys == b.fields.Keys;
      if a.fields.Keys == b.fields.Keys {
        forall k | k in a.fields
          ensures JsonEqual(a.fields[k], b.fields[k]) <==> JsonKey(a).fields[k] == JsonKey(b).fields[k]
        {
          EqualIffSameKey(a.fields[k], b.fields[k]);
        }
      }
    } else if IsNumber(a) && IsNumber(b) {
      IntegralKey(a, b);
    }
  }

  lemma {:induction false} EqualIffNoDifference(a: Json, b: Json, path: string)
    ensures JsonEqual(a, b) <==> FirstDifference(a, b, path).None?
    decreases a, 1, 0
  {
    if a.Obj? && b.Obj? {
      FieldsEqualIffNoDifference(a, b, a.fields.Keys + b.fields.Keys, path);
    } else if a.Arr? && b.Arr? && |a.items| == |b.items| {
      ItemsEqualIffNoDifference(a, b, 0, path);
    }
  }

  lemma {:induction false} FieldsEqualIffNoDifference(a: Json, b: Json, keys: set<string>, path: string)
    requires a.Obj? && b.Obj? && keys <= a.fields.Keys + b.fields.Keys
    ensures FirstFieldDifference(a, b, keys, path).None? <==>
            forall k | k in keys :: k in a.fields && k in b.fields && JsonEqual(a.fields[k], b.fields[k])
    decreases a, 0, |keys|
  {
    if keys != {} {
      var key := LeastKey(keys);
      if key in a.fields && key in b.fields {
        EqualIffNoDifference(a.fields[key], b.fields[key], path + "/" + (if SafeToken(key) then key else "*"));
        FieldsEqualIffNoDifference(a, b, keys - {key}, path);
        assert keys == (keys - {key}) + {key};
      }
    }
  }

  lemma {:induction false} ItemsEqualIffNoDifference(a: Json, b: Json, index: nat, path: string)
    requires a.Arr? && b.Arr? && |a.items| == |b.items| && index <= |a.items|
    ensures FirstItemDifference(a, b, index, path).None? <==>
            forall k | index <= k < |a.items| :: JsonEqual(a.items[k], b.items[k])
    decreases a, 0, |a.items| - index
  {
    if index < |a.items| {
      EqualIffNoDifference(a.items[index], b.items[index], path + "/" + Digits(index));
      ItemsEqualIffNoDifference(a, b, index + 1, path);
    }
  }

  // Equality, equal canonical keys and "no difference" are one equivalence relation.
  lemma OneEquivalence(a: Json, b: Json, c: Json)
    ensures JsonEqual(a, b) <==> JsonKey(a) == JsonKey(b)
    ensures JsonEqual(a, b) <==> FirstDifference(a, b, "").None?
    ensures JsonEqual(a, a)
    ensures JsonEqual(a, b) ==> JsonEqual(b, a)
    ensures JsonEqual(a, b) && JsonEqual(b, c) ==> JsonEqual(a, c)
  {
    EqualIffNoDifference(a, b, "");
    EqualIffSameKey(a, a);
    EqualIffSameKey(a, b);
    EqualIffSameKey(b, a);
    EqualIffSameKey(b, c);
    EqualIffSameKey(a, c);
  }
}
