/** JSON values as the engine freezes them: finite numbers, string keys, no aliasing. */
module Json {
  import opened Foundations

  // Python keeps integers and floats apart; a finite float is modelled as a real.
  datatype Json =
    | Null
    | Bool(b: bool)
    | Int(i: int)
    | Float(r: real)
    | Str(s: string)
    | Arr(items: seq<Json>)
    | Obj(fields: map<string, Json>)

  type Object = map<string, Json>

  const MAX_JSON_DEPTH: nat := 64
  const MAX_EXECUTION_JSON_DEPTH: nat := 192

  predicate IsNumber(j: Json) {
    j.Int? || j.Float?
  }

  function Number(j: Json): real
    requires IsNumber(j)
  {
    if j.Int? then j.i as real else j.r
  }

  // The depth-bounded walk of freeze_json: every node sits at most maxDepth deep.
  predicate Fits(j: Json, depth: int, maxDepth: int)
    decreases j
  {
    && depth <= maxDepth
    && (j.Arr? ==> forall k | 0 <= k < |j.items| :: Fits(j.items[k], depth + 1, maxDepth))
    && (j.Obj? ==> forall k | k in j.fields :: Fits(j.fields[k], depth + 1, maxDepth))
  }

  // Freezing copies without coercion, so it is the identity on what it accepts.
  function Freeze(j: Json, maxDepth: nat := MAX_JSON_DEPTH): Result<Json, ErrorCode> {
    if Fits(j, 0, maxDepth) then Ok(j) else Err(InvalidInput)
  }

  lemma {:induction false} FitsWeaken(j: Json, depth: int, maxDepth: int, depth': int, maxDepth': int)
    requires Fits(j, depth, maxDepth)
    requires depth' + maxDepth <= depth + maxDepth'
    ensures Fits(j, depth', maxDepth')
    decreases j
  {
    if j.Arr? {
      forall k | 0 <= k < |j.items| ensures Fits(j.items[k], depth' + 1, maxDepth') {
        FitsWeaken(j.items[k], depth + 1, maxDepth, depth' + 1, maxDepth');
      }
    } else if j.Obj? {
      forall k | k in j.fields ensures Fits(j.fields[k], depth' + 1, maxDepth') {
        FitsWeaken(j.fields[k], depth + 1, maxDepth, depth' + 1, maxDepth');
      }
    }
  }

  // The value of a collection item without inputs.
  function ItemValue(k: int, flow: string): Json {
    Obj(map["id" := Str(ItemName(k)), "flow" := Str(flow), "input" := Obj(map[])])
  }

  lemma ValueFits(k: int, flow: string)
    ensures Fits(ItemValue(k, flow), 1, MAX_JSON_DEPTH)
  {
  }
}
