/** Request relations of a decision: references, consistency, and why valid ones can be scheduled. */
module Relations {
  import opened Graphs

  // Identifiers are any comparable values.
  datatype Relation<N(==)> =
    | ConditionalOn(request: N, predicate_: N, requiredValue: bool)
    | Requires(request: N, required: N)
    | Precedes(before: N, after: N)
    | MutuallyExclusive(requests: seq<N>)

  datatype Arc<N> = Arc(source: N, target: N)

  function Targets<N(==)>(arcs: seq<Arc<N>>, a: N): seq<N> {
    if arcs == [] then []
    else
      var last := arcs[|arcs| - 1];
      Targets(arcs[..|arcs| - 1], a) + if last.source == a then [last.target] else []
  }

  // The adjacency lists both checks build: a key for every source.
  function Adjacency<N(==, !new)>(arcs: seq<Arc<N>>): Graph<N> {
    map a | a in (set k | 0 <= k < |arcs| :: arcs[k].source) :: Targets(arcs, a)
  }

  lemma {:induction false} TargetsListed<N(!new)>(arcs: seq<Arc<N>>, a: N, b: N)
    ensures b in Targets(arcs, a) <==> exists k :: 0 <= k < |arcs| && arcs[k] == Arc(a, b)
  {
    if arcs != [] {
      var init, last := arcs[..|arcs| - 1], arcs[|arcs| - 1];
      TargetsListed(init, a, b);
      if b in Targets(init, a) {
        var k :| 0 <= k < |init| && init[k] == Arc(a, b);
        assert arcs[k] == Arc(a, b);
      }
      if k :| 0 <= k < |arcs| && arcs[k] == Arc(a, b) {
        if k < |arcs| - 1 {
          assert init[k] == Arc(a, b);
        }
      }
    }
  }

  lemma ArcIsEdge<N(!new)>(arcs: seq<Arc<N>>, a: N, b: N)
    ensures Edge(Adjacency(arcs), a, b) <==> exists k :: 0 <= k < |arcs| && arcs[k] == Arc(a, b)
  {
    TargetsListed(arcs, a, b);
    if k :| 0 <= k < |arcs| && arcs[k] == Arc(a, b) {
      assert arcs[k].source == a;
    }
  }

  ghost predicate Cyclic<N(!new)>(arcs: seq<Arc<N>>) {
    exists p :: IsCycle(Adjacency(arcs), p)
  }

  // ---- Orders without backward edges ------------------------------------------------

  // Every edge of a listed node leads to a node listed before it.
  ghost predicate Backward<N(!new)>(g: Graph<N>, order: seq<N>) {
    forall k, b {:trigger Edge(g, order[k], b)} | 0 <= k < |order| && Edge(g, order[k], b) :: b in order[..k]
  }

  predicate Distinct<N(==)>(order: seq<N>) {
    forall j, k | 0 <= j < k < |order| :: order[j] != order[k]
  }

  lemma BackwardGrows<N(!new)>(g: Graph<N>, order: seq<N>, n: N)
    requires Backward(g, order) && Distinct(order) && n !in order
    requires forall b | Edge(g, n, b) :: b in order
    ensures Backward(g, order + [n]) && Distinct(order + [n])
  {
    var order' := order + [n];
    forall k, b | 0 <= k < |order'| && Edge(g, order'[k], b) ensures b in order'[..k] {
      if k < |order| {
        assert order'[k] == order[k] && order'[..k] == order[..k];
      } else {
        assert order'[..k] == order;
      }
    }
  }

  // Following edges moves strictly towards the front.
  lemma {:induction false} PathMovesBack<N(!new)>(g: Graph<N>, order: seq<N>, p: seq<N>, k: nat)
    requires Backward(g, order) && IsPath(g, p) && k < |order| && order[k] == p[0]
    ensures |p| > 1 ==> p[|p| - 1] in order[..k]
    decreases |p|
  {
    if |p| > 1 {
      assert Edge(g, order[k], p[1]);
      var j :| 0 <= j < k && order[j] == p[1];
      PathMovesBack(g, order, p[1..], j);
      if |p| > 2 {
        var i :| 0 <= i < j && order[i] == p[|p| - 1];
        assert order[..k][i] == p[|p| - 1];
      }
    }
  }

  lemma BackwardIsAcyclic<N(!new)>(g: Graph<N>, order: seq<N>, p: seq<N>)
    requires Backward(g, order) && Distinct(order) && g.Keys <= Members(order)
    ensures !IsCycle(g, p)
  {
    if IsCycle(g, p) {
      assert Edge(g, p[0], p[1]);
      var k :| 0 <= k < |order| && order[k] == p[0];
      PathMovesBack(g, order, p, k);
    }
  }

  // ---- The recursive search ------------------------------------------------------------

  ghost function Nodes<N(!new)>(g: Graph<N>): set<N> {
    g.Keys + (set a, b | a in g && b in g[a] :: b)
  }

  // The two sets the nested `visit` closes over, and the order in which nodes finish.
  class CycleSearch<N(==, !new)> {
    const graph: Graph<N>
    var visiting: set<N>
    var visited: set<N>
    ghost var finished: seq<N>

    constructor (graph: Graph<N>)
      ensures this.graph == graph && visiting == {} && Finished() && finished == []
    {
      this.graph := graph;
      visiting, visited, finished := {}, {}, [];
    }

    // Finished nodes lead only to finished nodes, in finishing order.
    ghost predicate Finished()
      reads this
    {
      Members(finished) == visited && visited <= Nodes(graph) && Distinct(finished) && Backward(graph, finished)
    }

    // The nodes being visited form the path that led here.
    ghost predicate Along(path: seq<N>)
      reads this
    {
      && visiting !! visited && visiting == Members(path) && visiting <= Nodes(graph)
      && forall k | 0 <= k < |path| - 1 :: Edge(graph, path[k], path[k + 1])
    }

    method Visit(node: N, ghost path: seq<N>) returns (cyclic: bool)
      requires Finished() && Along(path)
      requires node in Nodes(graph) && (path != [] ==> Edge(graph, path[|path| - 1], node))
      modifies this
      ensures cyclic ==> exists p :: IsCycle(graph, p)
      ensures !cyclic ==>
                Finished() && Along(path) && old(finished) <= finished && node in visited && visiting == old(visiting)
      decreases Nodes(graph) - visiting
    {
      if node in visiting {
        ghost var k :| 0 <= k < |path| && path[k] == node;
        assert IsCycle(graph, path[k..] + [node]);
        return true;
      }
      if node in visited {
        return false;
      }
      visiting := visiting + {node};
      ghost var path' := path + [node];
      var children := Successors(graph, node);
      for k := 0 to |children|
        invariant Finished() && Along(path') && visiting == old(visiting) + {node}
        invariant old(finished) <= finished
        invariant forall j | 0 <= j < k :: children[j] in visited
      {
        assert Edge(graph, node, children[k]);
        var found := Visit(children[k], path');
        if found {
          return true;
        }
      }
      visiting := visiting - {node};
      BackwardGrows(graph, finished, node);
      visited := visited + {node};
      finished := finished + [node];
      return false;
    }
  }

  // `_has_directed_cycle`: exactly when the arcs have a cycle; otherwise the finishing
  // order proves that they have none.
  method HasDirectedCycle<N(==, !new)>(arcs: seq<Arc<N>>) returns (cyclic: bool, ghost finished: seq<N>)
    ensures cyclic <==> Cyclic(arcs)
    ensures !cyclic ==> Backward(Adjacency(arcs), finished) && Distinct(finished)
    ensures !cyclic ==> Adjacency(arcs).Keys <= Members(finished) <= Nodes(Adjacency(arcs))
  {
    var graph := Adjacency(arcs);
    var search := new CycleSearch(graph);
    for k := 0 to |arcs|
      invariant search.graph == graph && search.Finished() && search.Along([])
      invariant forall j | 0 <= j < k :: arcs[j].source in search.visited
    {
      var found := search.Visit(arcs[k].source, []);
      if found {
        return true, [];
      }
    }
    finished := search.finished;
    forall p ensures !IsCycle(graph, p) {
      BackwardIsAcyclic(graph, finished, p);
    }
    return false, finished;
  }

  // ---- The validation ----------------------------------------------------------------------

  datatype Problem =
    | UnknownRequest | UnknownPredicate | SelfReference
    | DuplicateRelation | RelationCycle | ConflictingCondition | ExclusiveDependency

  // `_relation_key`: the order inside an exclusive group does not matter.
  datatype Key<N(==)> = Exact(relation: Relation<N>) | Group(requests: set<N>)

  function KeyOf<N(==, !new)>(relation: Relation<N>): Key<N> {
    if relation.MutuallyExclusive? then Group(Members(relation.requests)) else Exact(relation)
  }

  function RequireArcs<N(==)>(relations: seq<Relation<N>>): seq<Arc<N>> {
    if relations == [] then []
    else
      var last := relations[|relations| - 1];
      RequireArcs(relations[..|relations| - 1]) + if last.Requires? then [Arc(last.required, last.request)] else []
  }

  function DirectedArcs<N(==)>(relations: seq<Relation<N>>): seq<Arc<N>> {
    if relations == [] then []
    else
      var last := relations[|relations| - 1];
      DirectedArcs(relations[..|relations| - 1])
      + if last.Requires? then [Arc(last.required, last.request)]
        else if last.Precedes? then [Arc(last.before, last.after)] else []
  }

  predicate RequestsKnown<N(==, !new)>(units: set<N>, relation: Relation<N>) {
    match relation
    case ConditionalOn(request, _, _) => request in units
    case Requires(request, required) => request in units && required in units
    case Precedes(before, after) => before in units && after in units
    case MutuallyExclusive(requests) => Members(requests) <= units
  }

  predicate ReadsItself<N(==)>(relation: Relation<N>) {
    (relation.Requires? && relation.request == relation.required)
    || (relation.Precedes? && relation.before == relation.after)
  }

  predicate Sound<N(==, !new)>(units: set<N>, predicates: set<N>, relation: Relation<N>) {
    && RequestsKnown(units, relation)
    && (relation.ConditionalOn? ==> relation.predicate_ in predicates)
    && !ReadsItself(relation)
  }

  predicate Clash<N(==)>(one: Relation<N>, other: Relation<N>) {
    one.ConditionalOn? && other.ConditionalOn? && one.request == other.request && one.predicate_ == other.predicate_
    && one.requiredValue != other.requiredValue
  }

  // Two members of one group, one of which transitively requires the other.
  ghost predicate Entangled<N(!new)>(g: Graph<N>, group: seq<N>, i: nat, j: nat)
    requires i < |group| && j < |group|
  {
    Reach(g, group[i], group[j]) || Reach(g, group[j], group[i])
  }

  ghost predicate Untangled<N(!new)>(g: Graph<N>, group: seq<N>) {
    forall i, j | 0 <= i < j < |group| :: !Entangled(g, group, i, j)
  }

  // The declarative meaning of a relation list without problems.
  ghost predicate Consistent<N(!new)>(units: set<N>, predicates: set<N>, relations: seq<Relation<N>>) {
    && (forall k | 0 <= k < |relations| :: Sound(units, predicates, relations[k]))
    && (forall j, k | 0 <= j < k < |relations| :: KeyOf(relations[j]) != KeyOf(relations[k]))
    && (forall j, k | 0 <= j < |relations| && 0 <= k < |relations| :: !Clash(relations[j], relations[k]))
    && !Cyclic(DirectedArcs(relations))
    && forall k | 0 <= k < |relations| && relations[k].MutuallyExclusive? ::
      Untangled(Adjacency(RequireArcs(relations)), relations[k].requests)
  }

  function LocalProblems<N(==, !new)>(units: set<N>, predicates: set<N>,
                                      relation: Relation<N>): (problems: seq<Problem>)
    ensures problems == [] <==> Sound(units, predicates, relation)
  {
    (if RequestsKnown(units, relation) then [] else [UnknownRequest])
    + (if relation.ConditionalOn? && relation.predicate_ !in predicates then [UnknownPredicate] else [])
    + (if ReadsItself(relation) then [SelfReference] else [])
  }

  method HasDuplicate<N(==, !new)>(relations: seq<Relation<N>>) returns (duplicate: bool)
    ensures duplicate <==> exists j, k :: 0 <= j < k < |relations| && KeyOf(relations[j]) == KeyOf(relations[k])
  {
    var keys: set<Key<N>> := {};
    for k := 0 to |relations|
      invariant forall key :: key in keys <==> exists j :: 0 <= j < k && KeyOf(relations[j]) == key
      invariant forall i, j | 0 <= i < j < k :: KeyOf(relations[i]) != KeyOf(relations[j])
    {
      var key := KeyOf(relations[k]);
      if key in keys {
        return true;
      }
      keys := keys + {key};
    }
    return false;
  }

  method HasClash<N(==, !new)>(relations: seq<Relation<N>>) returns (clash: bool)
    ensures clash <==> exists j, k :: 0 <= j < |relations| && 0 <= k < |relations| && Clash(relations[j], relations[k])
  {
    var conditions: map<(N, N), set<bool>> := map[];
    for k := 0 to |relations|
      invariant forall r, q, v :: (r, q) in conditions && v in conditions[(r, q)] <==>
                  exists j :: 0 <= j < k && relations[j] == ConditionalOn(r, q, v)
    {
      if relations[k].ConditionalOn? {
        var pair := (relations[k].request, relations[k].predicate_);
        var values := if pair in conditions then conditions[pair] else {};
        conditions := conditions[pair := values + {relations[k].requiredValue}];
      }
    }
    clash := exists pair | pair in conditions :: true in conditions[pair] && false in conditions[pair];
    if clash {
      var pair :| pair in conditions && true in conditions[pair] && false in conditions[pair];
      var (request, predicate_) := pair;
      assert (request, predicate_) in conditions && true in conditions[(request, predicate_)];
      assert false in conditions[(request, predicate_)];
      var j :| 0 <= j < |relations| && relations[j] == ConditionalOn(request, predicate_, true);
      var k :| 0 <= k < |relations| && relations[k] == ConditionalOn(request, predicate_, false);
      assert Clash(relations[j], relations[k]);
    } else {
      forall j, k | 0 <= j < |relations| && 0 <= k < |relations| ensures !Clash(relations[j], relations[k]) {
        var one, other := relations[j], relations[k];
        assert one.ConditionalOn? ==> (one.request, one.predicate_) in conditions;
      }
    }
  }

  // Every pair of every group, in both directions.
  method HasEntangled<N(==, !new)>(relations: seq<Relation<N>>) returns (entangled: bool)
    ensures entangled <==> exists k :: 0 <= k < |relations| && relations[k].MutuallyExclusive?
                             && !Untangled(Adjacency(RequireArcs(relations)), relations[k].requests)
  {
    var graph := Adjacency(RequireArcs(relations));
    for k := 0 to |relations|
      invariant forall i | 0 <= i < k && relations[i].MutuallyExclusive? :: Untangled(graph, relations[i].requests)
    {
      if relations[k].MutuallyExclusive? {
        var found := GroupEntangled(graph, relations[k].requests);
        if found {
          return true;
        }
      }
    }
    return false;
  }

  method GroupEntangled<N(==, !new)>(graph: Graph<N>, group: seq<N>) returns (entangled: bool)
    ensures entangled <==> !Untangled(graph, group)
  {
    for i := 0 to |group|
      invariant forall a, b | 0 <= a < i && a < b < |group| :: !Entangled(graph, group, a, b)
    {
      for j := i + 1 to |group|
        invariant forall a, b | 0 <= a < i && a < b < |group| :: !Entangled(graph, group, a, b)
        invariant forall b | i < b < j :: !Entangled(graph, group, i, b)
      {
        var forth := Reaches(graph, group[i], group[j]);
        var back := Reaches(graph, group[j], group[i]);
        if forth || back {
          assert Entangled(graph, group, i, j);
          return true;
        }
      }
    }
    return false;
  }

  // ---- Consistent relations can be scheduled ---------------------------------------------------

  // a comes strictly before b.
  predicate Earlier<N(==)>(order: seq<N>, a: N, b: N) {
    exists i, j :: 0 <= i < j < |order| && order[i] == a && order[j] == b
  }

  // A total order of all units that respects every requires and precedes relation.
  predicate Schedule<N(==, !new)>(units: set<N>, relations: seq<Relation<N>>, order: seq<N>) {
    && Members(order) == units && Distinct(order)
    && forall k | 0 <= k < |relations| ::
      (relations[k].Requires? ==> Earlier(order, relations[k].required, relations[k].request))
      && (relations[k].Precedes? ==> Earlier(order, relations[k].before, relations[k].after))
  }

  function Reversed<N>(order: seq<N>): (reversed: seq<N>)
    ensures |reversed| == |order| && forall k | 0 <= k < |order| :: reversed[k] == order[|order| - 1 - k]
  {
    seq(|order|, k requires 0 <= k < |order| => order[|order| - 1 - k])
  }

  lemma {:induction false} DirectedListed<N(!new)>(relations: seq<Relation<N>>, k: nat)
    requires k < |relations|
    ensures relations[k].Requires? ==> Arc(relations[k].required, relations[k].request) in DirectedArcs(relations)
    ensures relations[k].Precedes? ==> Arc(relations[k].before, relations[k].after) in DirectedArcs(relations)
  {
    if k < |relations| - 1 {
      DirectedListed(relations[..|relations| - 1], k);
    }
  }

  lemma {:induction false} DirectedKnown<N(!new)>(units: set<N>, relations: seq<Relation<N>>, arc: Arc<N>)
    requires forall k | 0 <= k < |relations| :: RequestsKnown(units, relations[k])
    requires arc in DirectedArcs(relations)
    ensures arc.source in units && arc.target in units
  {
    if arc in DirectedArcs(relations[..|relations| - 1]) {
      DirectedKnown(units, relations[..|relations| - 1], arc);
    }
  }

  lemma {:induction false} Listed<N(!new)>(s: set<N>) returns (order: seq<N>)
    ensures Members(order) == s && Distinct(order)
  {
    order := [];
    if s != {} {
      var x :| x in s;
      var rest := Listed(s - {x});
      order := rest + [x];
      assert x !in Members(rest);
      assert Members(order) == Members(rest) + {x};
    }
  }

  lemma ArcsKnown<N(!new)>(units: set<N>, relations: seq<Relation<N>>)
    requires forall k | 0 <= k < |relations| :: RequestsKnown(units, relations[k])
    ensures Nodes(Adjacency(DirectedArcs(relations))) <= units
  {
    var arcs := DirectedArcs(relations);
    var g := Adjacency(arcs);
    forall a | a in g ensures a in units {
      var k :| 0 <= k < |arcs| && arcs[k].source == a;
      DirectedKnown(units, relations, arcs[k]);
    }
    forall a, b | a in g && b in g[a] ensures b in units {
      assert Edge(g, a, b);
      ArcIsEdge(arcs, a, b);
      var k :| 0 <= k < |arcs| && arcs[k] == Arc(a, b);
      DirectedKnown(units, relations, arcs[k]);
    }
  }

  lemma EdgeEarlier<N(!new)>(g: Graph<N>, rest: seq<N>, finished: seq<N>, a: N, b: N)
    requires Backward(g, finished) && g.Keys <= Members(finished) && Edge(g, a, b)
    ensures Earlier(rest + Reversed(finished), a, b)
  {
    var i :| 0 <= i < |finished| && finished[i] == a;
    assert Edge(g, finished[i], b);
    var j :| 0 <= j < i && finished[j] == b;
    var order, n := rest + Reversed(finished), |finished|;
    assert order[|rest| + (n - 1 - i)] == a && order[|rest| + (n - 1 - j)] == b;
  }

  lemma JoinDistinct<N(!new)>(rest: seq<N>, finished: seq<N>)
    requires Distinct(rest) && Distinct(finished) && Members(rest) !! Members(finished)
    ensures Distinct(rest + Reversed(finished))
    ensures Members(rest + Reversed(finished)) == Members(rest) + Members(finished)
  {
    var order, n := rest + Reversed(finished), |finished|;
    forall x | x in Members(finished) ensures x in order {
      var k :| 0 <= k < n && finished[k] == x;
      assert order[|rest| + (n - 1 - k)] == x;
    }
    forall x | x in order ensures x in Members(rest) + Members(finished) {
      var k :| 0 <= k < |order| && order[k] == x;
      if k >= |rest| {
        assert x == finished[n - 1 - (k - |rest|)];
      }
    }
    forall j, k | 0 <= j < k < |order| ensures order[j] != order[k] {
      if j < |rest| && k >= |rest| {
        assert order[j] in Members(rest) && finished[n - 1 - (k - |rest|)] in Members(finished);
      }
    }
  }

  // The finishing order, reversed, after the units no relation orders.
  lemma ScheduleFrom<N(!new)>(units: set<N>, relations: seq<Relation<N>>, finished: seq<N>) returns (order: seq<N>)
    requires forall k | 0 <= k < |relations| :: RequestsKnown(units, relations[k])
    requires var g := Adjacency(DirectedArcs(relations));
             Backward(g, finished) && Distinct(finished) && g.Keys <= Members(finished) <= Nodes(g)
    ensures Schedule(units, relations, order)
  {
    var arcs := DirectedArcs(relations);
    var g := Adjacency(arcs);
    ArcsKnown(units, relations);
    var rest := Listed(units - Members(finished));
    order := rest + Reversed(finished);
    JoinDistinct(rest, finished);
    forall k | 0 <= k < |relations|
      ensures relations[k].Requires? ==> Earlier(order, relations[k].required, relations[k].request)
      ensures relations[k].Precedes? ==> Earlier(order, relations[k].before, relations[k].after)
    {
      DirectedListed(relations, k);
      if relations[k].Requires? {
        ArcEdge(arcs, relations[k].required, relations[k].request);
        EdgeEarlier(g, rest, finished, relations[k].required, relations[k].request);
      } else if relations[k].Precedes? {
        ArcEdge(arcs, relations[k].before, relations[k].after);
        EdgeEarlier(g, rest, finished, relations[k].before, relations[k].after);
      }
    }
  }

  lemma ArcEdge<N(!new)>(arcs: seq<Arc<N>>, a: N, b: N)
    requires Arc(a, b) in arcs
    ensures Edge(Adjacency(arcs), a, b)
  {
    ArcIsEdge(arcs, a, b);
    var k :| 0 <= k < |arcs| && arcs[k] == Arc(a, b);
  }

  // ---- The whole validation ------------------------------------------------------------------

  function Report(problems: seq<Problem>, found: bool, problem: Problem): (reported: seq<Problem>)
    ensures reported == [] <==> problems == [] && !found
    ensures forall p :: p in reported <==> p in problems || (found && p == problem)
  {
    if found then problems + [problem] else problems
  }

  // `validate_request_relations`: problems are reported exactly when the list is
  // inconsistent, a cycle exactly when there is one, and a list without problems can be
  // scheduled.
  method ValidateRelations<N(==, !new)>(units: set<N>, predicates: set<N>, relations: seq<Relation<N>>)
    returns (problems: seq<Problem>, ghost order: seq<N>)
    ensures problems == [] <==> Consistent(units, predicates, relations)
    ensures RelationCycle in problems <==> Cyclic(DirectedArcs(relations))
    ensures problems == [] ==> Schedule(units, relations, order)
  {
    problems, order := [], [];
    for k := 0 to |relations|
      invariant problems == [] <==> forall j | 0 <= j < k :: Sound(units, predicates, relations[j])
      invariant RelationCycle !in problems
    {
      problems := problems + LocalProblems(units, predicates, relations[k]);
    }
    var duplicate := HasDuplicate(relations);
    problems := Report(problems, duplicate, DuplicateRelation);
    var cyclic, finished := HasDirectedCycle(DirectedArcs(relations));
    problems := Report(problems, cyclic, RelationCycle);
    var clash := HasClash(relations);
    problems := Report(problems, clash, ConflictingCondition);
    var entangled := HasEntangled(relations);
    problems := Report(problems, entangled, ExclusiveDependency);
    if problems == [] {
      order := ScheduleFrom(units, relations, finished);
    }
  }
}
