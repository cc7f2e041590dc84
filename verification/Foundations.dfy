/** Shared result types, the canonical failures of the engine, and the shapes of names. */
module Foundations {

  datatype Option<+T> = None | Some(value: T)

  datatype Result<+T, +E> = Ok(value: T) | Err(error: E) {
    predicate IsFailure() {
      Err?
    }

    function PropagateFailure<U>(): Result<U, E>
      requires Err?
    {
      Err(error)
    }

    function Extract(): T
      requires Ok?
    {
      value
    }
  }

  // The codes the engine itself raises.  A code that only adapters raise is
  // Reported with its public text: the engine never inspects it.
  datatype ErrorCode =
    | InvalidConfiguration
    | InvalidInput
    | InvalidOutput
    | MissingBinding
    | RequestTimeout
    | RunTimeout
    | StepLimitReached
    | DependencyFailure
    | Conflict
    | ModelRequestLimitReached
    | ToolCallLimitReached
    | CapacityExceeded
    | Reported(text: string, explanation: string)

  // ---- Names and text ----------------------------------------------------------------

  predicate Blank(c: char) {
    c == ' ' || '\t' <= c <= '\r' || 28 as char <= c <= 31 as char
  }

  predicate LowerAlnum(c: char) {
    'a' <= c <= 'z' || '0' <= c <= '9'
  }

  // [a-z][a-z0-9]*(_[a-z0-9]+)*
  predicate IsItemId(s: string) {
    && s != ""
    && 'a' <= s[0] <= 'z'
    && s[|s| - 1] != '_'
    && forall k | 0 <= k < |s| :: LowerAlnum(s[k]) || (s[k] == '_' && k > 0 && s[k - 1] != '_')
  }

  // "a", "aa", "aaa", ...: valid item ids, pairwise distinct.
  function ItemName(k: int): string {
    if k < 0 then "" else seq(k + 1, _ => 'a')
  }

  lemma ItemNames(j: nat, k: nat)
    ensures IsItemId(ItemName(k))
    ensures ItemName(j) == ItemName(k) ==> j == k
  {
    assert |ItemName(j)| == j + 1 && |ItemName(k)| == k + 1;
  }
}
