/** Bindings that replace others of the same name, and the objects they deliver together. */
module Overrides {
  import opened Foundations
  import opened Json
  import opened Bindings

  // A boundary binding is replaced by the override of its name.
  function Override(base: seq<Named>, overrides: seq<Named>): seq<Named> {
    seq(|base|, k requires 0 <= k < |base| => Named(base[k].name, FindBinding(overrides, base[k])))
  }

  function FindBinding(overrides: seq<Named>, base: Named): Binding {
    if overrides == [] then base.binding
    else if overrides[0].name == base.name then overrides[0].binding
    else FindBinding(overrides[1..], base)
  }

  predicate Overridden(overrides: seq<Named>, name: string) {
    exists k | 0 <= k < |overrides| :: overrides[k].name == name
  }

  // A routed flow's own bindings, each replaced by the override of its name.
  predicate Rebinds(base: seq<Named>, overrides: seq<Named>, context: Json, next: Object) {
    && next.Keys == NamesOf(base)
    && (forall k | 0 <= k < |overrides| && overrides[k].name in next ::
          Ok(next[overrides[k].name]) == ResolveBinding(overrides[k].binding, context))
    && forall k | 0 <= k < |base| && !Overridden(overrides, base[k].name) ::
         base[k].name in next && Ok(next[base[k].name]) == ResolveBinding(base[k].binding, context)
  }

  // An item's own input with the overridden keys.
  predicate Replaces(payload: Object, overrides: seq<Named>, context: Json, next: Object) {
    && next.Keys == payload.Keys + NamesOf(overrides)
    && (forall k | 0 <= k < |overrides| ::
          overrides[k].name in next && Ok(next[overrides[k].name]) == ResolveBinding(overrides[k].binding, context))
    && forall name | name in payload && !Overridden(overrides, name) :: name in next && next[name] == payload[name]
  }

  lemma {:induction false} BindingFound(overrides: seq<Named>, base: Named)
    requires DistinctPairs(overrides)
    ensures !Overridden(overrides, base.name) ==> FindBinding(overrides, base) == base.binding
    ensures forall k | 0 <= k < |overrides| && overrides[k].name == base.name ::
              FindBinding(overrides, base) == overrides[k].binding
  {
    if overrides != [] && overrides[0].name != base.name {
      var rest := overrides[1..];
      BindingFound(rest, base);
      assert forall k | 1 <= k < |overrides| :: overrides[k] == rest[k - 1];
      assert Overridden(rest, base.name) ==> Overridden(overrides, base.name);
    }
  }

  lemma OverrideBinds(base: seq<Named>, overrides: seq<Named>, context: Json, next: Object)
    requires DistinctPairs(base) && DistinctPairs(overrides)
    ensures Binds(Override(base, overrides), context, next) <==> Rebinds(base, overrides, context, next)
  {
    var pairs := Override(base, overrides);
    OverrideNames(base, overrides);
    if next.Keys == NamesOf(base) {
      OverrideDelivers(base, overrides, context, next);
      forall k | 0 <= k < |base|
        ensures pairs[k].name == base[k].name && pairs[k].binding == FindBinding(overrides, base[k])
      {
      }
    }
  }

  lemma OverrideNames(base: seq<Named>, overrides: seq<Named>)
    ensures NamesOf(Override(base, overrides)) == NamesOf(base)
  {
    var pairs := Override(base, overrides);
    forall name ensures name in NamesOf(pairs) <==> name in NamesOf(base) {
      if name in NamesOf(base) {
        var k :| 0 <= k < |base| && base[k].name == name;
        assert pairs[k].name == name;
      }
    }
  }

  lemma NamesAreOverridden(overrides: seq<Named>, name: string)
    ensures name in NamesOf(overrides) <==> Overridden(overrides, name)
  {
  }

  predicate Delivers(base: seq<Named>, overrides: seq<Named>, context: Json, next: Object) {
    forall k | 0 <= k < |base| ::
      base[k].name in next && Ok(next[base[k].name]) == ResolveBinding(FindBinding(overrides, base[k]), context)
  }

  lemma OverrideDelivers(base: seq<Named>, overrides: seq<Named>, context: Json, next: Object)
    requires DistinctPairs(overrides) && next.Keys == NamesOf(base)
    ensures Delivers(base, overrides, context, next) <==> Rebinds(base, overrides, context, next)
  {
    forall k | 0 <= k < |base| ensures base[k].name in next {
    }
    forall j, k | 0 <= j < |base| && 0 <= k < |overrides| && overrides[k].name == base[j].name
      ensures FindBinding(overrides, base[j]) == overrides[k].binding
    {
      BindingFound(overrides, base[j]);
    }
    forall k | 0 <= k < |base| && !Overridden(overrides, base[k].name)
      ensures FindBinding(overrides, base[k]) == base[k].binding
    {
      BindingFound(overrides, base[k]);
    }
    forall k | 0 <= k < |base| && Overridden(overrides, base[k].name)
      ensures exists j | 0 <= j < |overrides| :: overrides[j].name == base[k].name
    {
    }
  }

  lemma ReplaceBinds(payload: Object, overrides: seq<Named>, context: Json, values: Object, next: Object)
    requires DistinctPairs(overrides) && Replaces(payload, overrides, context, next)
    requires values == map name | name in next && Overridden(overrides, name) :: next[name]
    ensures Binds(overrides, context, values) && next == payload + values
  {
    forall name ensures name in NamesOf(overrides) <==> Overridden(overrides, name) {
      NamesAreOverridden(overrides, name);
    }
    forall k | 0 <= k < |overrides| ensures overrides[k].name in NamesOf(overrides) {
    }
    assert values.Keys == NamesOf(overrides);
  }

  lemma BindsReplace(payload: Object, overrides: seq<Named>, context: Json, values: Object)
    requires Binds(overrides, context, values)
    ensures Replaces(payload, overrides, context, payload + values)
  {
    forall name ensures name in NamesOf(overrides) <==> Overridden(overrides, name) {
      NamesAreOverridden(overrides, name);
    }
    forall k | 0 <= k < |overrides| ensures overrides[k].name in NamesOf(overrides) {
    }
  }

  // An input is replaced by its overrides exactly when all of them resolve.
  lemma ReplacesIff(payload: Object, overrides: seq<Named>, context: Json, next: Object)
    requires DistinctPairs(overrides)
    ensures var resolved := ResolveAll(overrides, context);
            Replaces(payload, overrides, context, next) <==> resolved.Ok? && next == payload + resolved.value
  {
    var resolved := ResolveAll(overrides, context);
    if Replaces(payload, overrides, context, next) {
      var values := map name | name in next && Overridden(overrides, name) :: next[name];
      ReplaceBinds(payload, overrides, context, values, next);
      BindsIff(overrides, context, values);
    }
    if resolved.Ok? {
      ArgumentsBind(overrides, context, resolved.value);
      BindsReplace(payload, overrides, context, resolved.value);
    }
  }
}
