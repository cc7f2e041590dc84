/**
 Graphs whose edges say how much collection nesting they add: paths, their weight, and the
 ranks and depths that certify a graph acyclic and shallow.
 */
module WeightedLinks {
  import opened Graphs

  // An edge and its collection nesting weight.
  datatype Link<+N> = Link(target: N, weight: nat)

  type Links<N(==)> = map<N, seq<Link<N>>>

  function Targets<N(==)>(links: seq<Link<N>>): set<N> {
    set l | l in links :: l.target
  }

  predicate LinkTo<N(==)>(links: Links<N>, a: N, b: N) {
    a in links && b in Targets(links[a])
  }

  function Plain<N(==)>(links: Links<N>): Graph<N> {
    map n | n in links :: seq(|links[n]|, k requires 0 <= k < |links[n]| => links[n][k].target)
  }

  lemma PlainEdge<N(!new)>(links: Links<N>, a: N, b: N)
    ensures Edge(Plain(links), a, b) <==> LinkTo(links, a, b)
  {
    if LinkTo(links, a, b) {
      var l :| l in links[a] && l.target == b;
      var k :| 0 <= k < |links[a]| && links[a][k] == l;
      assert Plain(links)[a][k] == b;
    }
  }

  // ---- Depth along paths ------------------------------------------------------

  ghost predicate Follows<N(!new)>(links: Links<N>, a: N, path: seq<Link<N>>) {
    path == [] || (a in links && path[0] in links[a] && Follows(links, path[0].target, path[1..]))
  }

  function PathWeight<N>(path: seq<Link<N>>): nat {
    if path == [] then 0 else path[0].weight + PathWeight(path[1..])
  }

  // max(call_depths[target] + weight, default=0)
  function Nesting<N(==)>(links: seq<Link<N>>, depths: map<N, nat>): nat {
    if links == [] then 0
    else
      var rest := Nesting(links[1..], depths);
      var here := (if links[0].target in depths then depths[links[0].target] else 0) + links[0].weight;
      if here > rest then here else rest
  }

  lemma {:induction false} NestingBounds<N(!new)>(links: seq<Link<N>>, depths: map<N, nat>, k: nat)
    requires k < |links| && links[k].target in depths
    ensures depths[links[k].target] + links[k].weight <= Nesting(links, depths)
  {
    if k > 0 {
      NestingBounds(links[1..], depths, k - 1);
    }
  }

  lemma {:induction false} NestingAttained<N(!new)>(links: seq<Link<N>>, depths: map<N, nat>) returns (k: nat)
    requires forall l | l in links :: l.target in depths
    ensures links != [] ==> k < |links| && depths[links[k].target] + links[k].weight == Nesting(links, depths)
  {
    k := 0;
    if |links| > 1 {
      var rest := NestingAttained(links[1..], depths);
      if Nesting(links, depths) != depths[links[0].target] + links[0].weight {
        k := rest + 1;
      }
    }
  }

  // A rank that every link lowers, and depths that satisfy the nesting equation.
  ghost predicate Ranked<N(!new)>(links: Links<N>, rank: map<N, nat>) {
    forall a, b {:trigger LinkTo(links, a, b)} | a in rank && LinkTo(links, a, b) :: b in rank && rank[b] < rank[a]
  }

  ghost predicate Measured<N(!new)>(links: Links<N>, depths: map<N, nat>) {
    forall a | a in depths :: a in links && depths[a] == Nesting(links[a], depths)
  }

  // call_depths[a] is the maximum collection weight over all paths below a.
  lemma {:induction false} DepthBounds<N(!new)>(links: Links<N>, rank: map<N, nat>, depths: map<N, nat>,
                                                a: N, path: seq<Link<N>>)
    requires Ranked(links, rank) && Measured(links, depths) && rank.Keys == depths.Keys
    requires a in depths && Follows(links, a, path)
    ensures PathWeight(path) <= depths[a]
  {
    if path != [] {
      var k :| 0 <= k < |links[a]| && links[a][k] == path[0];
      assert LinkTo(links, a, path[0].target);
      DepthBounds(links, rank, depths, path[0].target, path[1..]);
      NestingBounds(links[a], depths, k);
    }
  }

  lemma {:induction false} DepthAttained<N(!new)>(links: Links<N>, rank: map<N, nat>, depths: map<N, nat>, a: N)
    returns (path: seq<Link<N>>)
    requires Ranked(links, rank) && Measured(links, depths) && rank.Keys == depths.Keys && a in depths
    ensures Follows(links, a, path) && PathWeight(path) == depths[a]
    decreases rank[a]
  {
    if links[a] == [] {
      path := [];
    } else {
      forall l | l in links[a] ensures l.target in depths {
        assert LinkTo(links, a, l.target);
      }
      var k := NestingAttained(links[a], depths);
      var first := links[a][k];
      assert LinkTo(links, a, first.target);
      var rest := DepthAttained(links, rank, depths, first.target);
      path := [first] + rest;
    }
  }

  lemma {:induction false} RankFalls<N(!new)>(links: Links<N>, rank: map<N, nat>, p: seq<N>)
    requires Ranked(links, rank) && IsPath(Plain(links), p) && p[0] in rank && |p| > 1
    ensures p[|p| - 1] in rank && rank[p[|p| - 1]] < rank[p[0]]
    decreases |p|
  {
    assert Edge(Plain(links), p[0], p[1]);
    PlainEdge(links, p[0], p[1]);
    if |p| > 2 {
      RankFalls(links, rank, p[1..]);
    }
  }

  lemma RankedHasNoCycle<N(!new)>(links: Links<N>, rank: map<N, nat>, p: seq<N>)
    requires Ranked(links, rank) && p != [] && p[0] in rank
    ensures !IsCycle(Plain(links), p)
  {
    if IsCycle(Plain(links), p) {
      RankFalls(links, rank, p);
    }
  }

  // ---- What certificates mean ------------------------------------------------------------

  ghost predicate Acyclic<N(!new)>(links: Links<N>, roots: set<N>) {
    forall p :: IsCycle(Plain(links), p) ==> !ReachFrom(Plain(links), roots, p[0])
  }

  ghost predicate Shallow<N(!new)>(links: Links<N>, roots: set<N>, limit: nat) {
    forall n, path :: Follows(links, n, path) && ReachFrom(Plain(links), roots, n) ==> PathWeight(path) <= limit
  }

  lemma RankedIsAcyclic<N(!new)>(links: Links<N>, rank: map<N, nat>, roots: set<N>)
    requires Ranked(links, rank) && rank.Keys == links.Keys
    ensures Acyclic(links, roots)
  {
    forall p | IsCycle(Plain(links), p) ensures false {
      assert Edge(Plain(links), p[0], p[1]);
      RankedHasNoCycle(links, rank, p);
    }
  }

  lemma MeasuredIsShallow<N(!new)>(links: Links<N>, rank: map<N, nat>, depths: map<N, nat>, roots: set<N>, limit: nat)
    requires Ranked(links, rank) && Measured(links, depths) && rank.Keys == depths.Keys == links.Keys
    requires forall n | n in depths :: depths[n] <= limit
    ensures Shallow(links, roots, limit)
  {
    forall n, path | Follows(links, n, path) && ReachFrom(Plain(links), roots, n) ensures PathWeight(path) <= limit {
      if path != [] {
        DepthBounds(links, rank, depths, n, path);
      }
    }
  }
}
