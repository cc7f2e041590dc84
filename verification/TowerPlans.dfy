/**
 Towers of flows.  Flow 1 has an operation step; the flow above an operation flow is an item
 flow that repeats once through it, and the flow above an item flow is a collection over it.
 */
module TowerPlans {
  import opened Foundations
  import opened Json
  import opened Bindings
  import opened Conditions
  import opened Plans

  // ---- The plan --------------------------------------------------------------------------

  function TowerName(j: int): string {
    ItemName(j)
  }

  function Items(j: int): Json {
    Arr([ItemValue(0, TowerName(j))])
  }

  lemma ItemsFit(j: int)
    ensures Fits(Items(j), 0, MAX_JSON_DEPTH)
  {
    ValueFits(0, TowerName(j));
  }

  function TowerStep(j: int): Step {
    if Odd(j) && j > 1 then Collection("s", None, Literal(Items(j - 1)), [TowerName(j - 1)], 1)
    else Operation("s", None, Handler, [])
  }

  function TowerRepeat(until: Condition, j: int): Option<Repeat> {
    if !Odd(j) then Some(Repeat(2, until, Some(TowerName(j - 1)), [], None, [])) else None
  }

  function TowerFlow(until: Condition, top: int, j: int): Flow {
    Flow(TowerName(j), [], [TowerStep(j)], None, if j == top then Some(Direct(ToOutcome(EndCompleted))) else None, None,
         false, j != top, TowerRepeat(until, j), None)
  }

  function TowerNames(top: int): set<string> {
    set j | 1 <= j <= top :: TowerName(j)
  }

  function Floor(name: string): int {
    |name| - 1
  }

  lemma NameFloor(j: int, top: int)
    requires j >= 0
    ensures Floor(TowerName(j)) == j && TowerName(j) != ""
    ensures TowerName(j) in TowerNames(top) <==> 1 <= j <= top
  {
    assert |TowerName(j)| == j + 1;
    if TowerName(j) in TowerNames(top) {
      var i :| 1 <= i <= top && TowerName(i) == TowerName(j);
      ItemNames(i, j);
    }
  }

  lemma FloorName(name: string, top: int)
    requires name in TowerNames(top)
    ensures 1 <= Floor(name) <= top && TowerName(Floor(name)) == name
  {
    var j :| 1 <= j <= top && TowerName(j) == name;
    NameFloor(j, top);
  }

  function TowerOrder(top: int): seq<string> {
    seq(if top > 0 then top else 0, k => TowerName(k + 1))
  }

  // The numbers of collection flows and of the lowest flow.
  predicate Odd(j: int) {
    j > 0 && j % 2 == 1
  }

  // Flow number `top` is routed and starts the run; the others are callable.
  function TowerPlan(until: Condition, top: int): Plan {
    Plan(TowerOrder(top),
         map n | n in TowerNames(top) :: TowerFlow(until, top, Floor(n)),
         StartFlow(TowerName(top)), None)
  }

  lemma TowerAt(until: Condition, top: int, j: int)
    requires 1 <= j <= top
    ensures TowerName(j) in TowerPlan(until, top).flows
    ensures TowerPlan(until, top).At(TowerName(j)) == TowerFlow(until, top, j)
  {
    NameFloor(j, top);
  }

  function TowerRank(top: int): map<string, nat> {
    map n | n in TowerNames(top) :: if Floor(n) > 0 then Floor(n) else 0
  }

  function TowerDepths(top: int): map<string, nat> {
    map n | n in TowerNames(top) :: if Floor(n) > 0 then (Floor(n) - 1) / 2 else 0
  }
}
