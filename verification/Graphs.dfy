/** Directed graphs over flow names: paths, reachability and the worklist search. */
module Graphs {

  type Graph<N(==)> = map<N, seq<N>>

  predicate Edge<N(==, !new)>(g: Graph<N>, a: N, b: N) {
    a in g && b in g[a]
  }

  ghost predicate IsPath<N(!new)>(g: Graph<N>, p: seq<N>) {
    p != [] && forall k | 0 <= k < |p| - 1 :: Edge(g, p[k], p[k + 1])
  }

  ghost predicate Connects<N(!new)>(g: Graph<N>, a: N, b: N, p: seq<N>) {
    IsPath(g, p) && p[0] == a && p[|p| - 1] == b
  }

  ghost predicate Reach<N(!new)>(g: Graph<N>, a: N, b: N) {
    exists p :: Connects(g, a, b, p)
  }

  ghost predicate IsCycle<N(!new)>(g: Graph<N>, p: seq<N>) {
    IsPath(g, p) && |p| > 1 && p[0] == p[|p| - 1]
  }

  // One edge and then any path.
  ghost predicate Beyond<N(!new)>(g: Graph<N>, a: N, b: N) {
    exists c :: Edge(g, a, c) && Reach(g, c, b)
  }

  // ---- Path algebra ----------------------------------------------------------

  lemma ReachSelf<N(!new)>(g: Graph<N>, a: N)
    ensures Reach(g, a, a)
  {
    assert Connects(g, a, a, [a]);
  }

  lemma ReachEdge<N(!new)>(g: Graph<N>, a: N, b: N)
    requires Edge(g, a, b)
    ensures Reach(g, a, b)
  {
    assert Connects(g, a, b, [a, b]);
  }

  lemma JoinPaths<N(!new)>(g: Graph<N>, p: seq<N>, q: seq<N>)
    requires IsPath(g, p) && IsPath(g, q) && p[|p| - 1] == q[0]
    ensures IsPath(g, p + q[1..])
    ensures (p + q[1..])[|p + q[1..]| - 1] == q[|q| - 1]
  {
    var r := p + q[1..];
    forall k | 0 <= k < |r| - 1 ensures Edge(g, r[k], r[k + 1]) {
      if k >= |p| - 1 {
        assert r[k] == q[k - |p| + 1] && r[k + 1] == q[k - |p| + 2];
      }
    }
  }

  lemma ReachTransitive<N(!new)>(g: Graph<N>, a: N, b: N, c: N)
    requires Reach(g, a, b) && Reach(g, b, c)
    ensures Reach(g, a, c)
  {
    var p :| Connects(g, a, b, p);
    var q :| Connects(g, b, c, q);
    JoinPaths(g, p, q);
    assert Connects(g, a, c, p + q[1..]);
  }

  lemma ReachExtend<N(!new)>(g: Graph<N>, a: N, b: N, c: N)
    requires Reach(g, a, b) && Edge(g, b, c)
    ensures Reach(g, a, c)
  {
    ReachEdge(g, b, c);
    ReachTransitive(g, a, b, c);
  }

  ghost predicate Closed<N(!new)>(g: Graph<N>, s: set<N>) {
    forall a, b {:trigger Edge(g, a, b)} | a in s && Edge(g, a, b) :: b in s
  }

  lemma {:induction false} PathStaysInside<N(!new)>(g: Graph<N>, s: set<N>, p: seq<N>)
    requires Closed(g, s) && IsPath(g, p) && p[0] in s
    ensures forall k | 0 <= k < |p| :: p[k] in s
  {
    if |p| > 1 {
      assert Edge(g, p[0], p[1]);
      PathStaysInside(g, s, p[1..]);
      forall k | 0 <= k < |p| ensures p[k] in s {
        if k > 0 {
          assert p[k] == p[1..][k - 1];
        }
      }
    }
  }

  lemma ReachStaysInside<N(!new)>(g: Graph<N>, s: set<N>, a: N, b: N)
    requires Closed(g, s) && a in s && Reach(g, a, b)
    ensures b in s
  {
    var p :| Connects(g, a, b, p);
    PathStaysInside(g, s, p);
  }

  // ---- Reachability from a set of roots -----------------------------------------

  ghost predicate ReachFrom<N(!new)>(g: Graph<N>, roots: set<N>, n: N) {
    exists r :: r in roots && Reach(g, r, n)
  }

  // Nothing lies beyond a node without edges.
  lemma SinkReaches<N(!new)>(g: Graph<N>, a: N, b: N)
    requires a in g && g[a] == [] && Reach(g, a, b)
    ensures a == b
  {
    var p :| Connects(g, a, b, p);
    assert |p| > 1 ==> Edge(g, p[0], p[1]);
  }

  lemma FromRoot<N(!new)>(g: Graph<N>, roots: set<N>, r: N)
    requires r in roots
    ensures ReachFrom(g, roots, r)
  {
    ReachSelf(g, r);
  }

  lemma FromSingle<N(!new)>(g: Graph<N>, a: N, b: N)
    ensures ReachFrom(g, {a}, b) <==> Reach(g, a, b)
  {
    if Reach(g, a, b) {
      assert a in {a};
    }
  }

  lemma FromExtend<N(!new)>(g: Graph<N>, roots: set<N>, a: N, b: N)
    requires ReachFrom(g, roots, a) && Edge(g, a, b)
    ensures ReachFrom(g, roots, b)
  {
    var r :| r in roots && Reach(g, r, a);
    ReachExtend(g, r, a, b);
  }

  lemma FromStaysInside<N(!new)>(g: Graph<N>, s: set<N>, roots: set<N>, n: N)
    requires Closed(g, s) && roots <= s && ReachFrom(g, roots, n)
    ensures n in s
  {
    var r :| r in roots && Reach(g, r, n);
    ReachStaysInside(g, s, r, n);
  }

  // ---- Worklist search --------------------------------------------------------

  function Successors<N(==, !new)>(g: Graph<N>, a: N): seq<N> {
    if a in g then g[a] else []
  }

  function Members<N(==, !new)>(names: seq<N>): set<N> {
    set n | n in names
  }

  ghost function Universe<N(!new)>(g: Graph<N>, roots: set<N>): set<N> {
    g.Keys + (set a, b | a in g && b in g[a] :: b) + roots
  }

  // The search's invariant.  `pending` is read as a set; what has been seen is
  // closed except for edges into pending nodes.
  ghost predicate Searching<N(!new)>(g: Graph<N>, roots: set<N>, seen: set<N>, pending: set<N>) {
    && seen + pending <= Universe(g, roots)
    && (forall n | n in seen + pending :: ReachFrom(g, roots, n))
    && roots <= seen + pending
    && forall a, b {:trigger Edge(g, a, b)} | a in seen && Edge(g, a, b) :: b in seen + pending
  }

  lemma SearchBegins<N(!new)>(g: Graph<N>, roots: set<N>)
    ensures Searching(g, roots, {}, roots)
  {
    forall r | r in roots ensures ReachFrom(g, roots, r) {
      FromRoot(g, roots, r);
    }
  }

  lemma SearchSkips<N(!new)>(g: Graph<N>, roots: set<N>, seen: set<N>, rest: set<N>, current: N)
    requires Searching(g, roots, seen, rest + {current})
    ensures current in seen ==> Searching(g, roots, seen, rest)
    ensures current in Universe(g, roots) && ReachFrom(g, roots, current)
  {
    assert current in seen + (rest + {current});
  }

  lemma SearchVisits<N(!new)>(g: Graph<N>, roots: set<N>, seen: set<N>, rest: set<N>, current: N)
    requires Searching(g, roots, seen, rest + {current})
    ensures Searching(g, roots, seen + {current}, rest + Members(Successors(g, current)))
  {
    var more := Members(Successors(g, current));
    SearchSkips(g, roots, seen, rest, current);
    forall n | n in more ensures ReachFrom(g, roots, n) && n in Universe(g, roots) {
      assert Edge(g, current, n);
      FromExtend(g, roots, current, n);
    }
    var before, after := seen + (rest + {current}), seen + {current} + (rest + more);
    assert after == before + more;
    VisitCloses(g, seen, current, before, after, more);
  }

  // The successors of a visited node are pending.
  lemma VisitCloses<N(!new)>(g: Graph<N>, seen: set<N>, current: N, before: set<N>, after: set<N>, more: set<N>)
    requires forall a, b {:trigger Edge(g, a, b)} | a in seen && Edge(g, a, b) :: b in before
    requires after == before + more && more == Members(Successors(g, current))
    ensures forall a, b {:trigger Edge(g, a, b)} | a in seen + {current} && Edge(g, a, b) :: b in after
  {
  }

  lemma SearchEnds<N(!new)>(g: Graph<N>, roots: set<N>, seen: set<N>, n: N)
    requires Searching(g, roots, seen, {})
    ensures n in seen <==> ReachFrom(g, roots, n)
  {
    if ReachFrom(g, roots, n) {
      FromStaysInside(g, seen, roots, n);
    }
  }

  lemma LastPending<N(!new)>(pending: seq<N>)
    requires pending != []
    ensures Members(pending) == Members(pending[..|pending| - 1]) + {pending[|pending| - 1]}
  {
    assert pending == pending[..|pending| - 1] + [pending[|pending| - 1]];
  }

  lemma MorePending<N(!new)>(pending: seq<N>, more: seq<N>)
    ensures Members(pending + more) == Members(pending) + Members(more)
  {
  }

  // The depth-first search for one goal.
  method Reaches<N(==, !new)>(g: Graph<N>, start: N, goal: N) returns (found: bool)
    ensures found <==> Reach(g, start, goal)
  {
    var pending, seen := [start], {};
    ghost var roots := {start};
    assert Members(pending) == roots;
    SearchBegins(g, roots);
    FromSingle(g, start, goal);
    while pending != []
      invariant Searching(g, roots, seen, Members(pending)) && goal !in seen
      decreases Universe(g, roots) - seen, |pending|
    {
      var current := pending[|pending| - 1];
      LastPending(pending);
      pending := pending[..|pending| - 1];
      SearchSkips(g, roots, seen, Members(pending), current);
      SearchVisits(g, roots, seen, Members(pending), current);
      if current == goal {
        return true;
      }
      if current in seen {
        continue;
      }
      seen := seen + {current};
      MorePending(pending, Successors(g, current));
      pending := pending + Successors(g, current);
    }
    SearchEnds(g, roots, seen, goal);
    return false;
  }

  // Every node reachable from the candidates, by the same worklist.
  method Closure<N(==, !new)>(g: Graph<N>, candidates: seq<N>) returns (seen: set<N>)
    ensures forall n :: n in seen <==> ReachFrom(g, Members(candidates), n)
  {
    var pending := candidates;
    seen := {};
    ghost var roots := Members(candidates);
    SearchBegins(g, roots);
    while pending != []
      invariant Searching(g, roots, seen, Members(pending))
      decreases Universe(g, roots) - seen, |pending|
    {
      var current := pending[|pending| - 1];
      LastPending(pending);
      pending := pending[..|pending| - 1];
      SearchSkips(g, roots, seen, Members(pending), current);
      SearchVisits(g, roots, seen, Members(pending), current);
      if current in seen {
        continue;
      }
      seen := seen + {current};
      MorePending(pending, Successors(g, current));
      pending := pending + Successors(g, current);
    }
    forall n ensures n in seen <==> ReachFrom(g, roots, n) {
      SearchEnds(g, roots, seen, n);
    }
  }

  // ---- Transfer between graphs ------------------------------------------------------

  // A path that ends inside s lies in h, when every edge into s comes from s and is
  // an edge of h.
  lemma {:induction false} TransferBackward<N(!new)>(g: Graph<N>, h: Graph<N>, s: set<N>, p: seq<N>)
    requires forall a, b {:trigger Edge(g, a, b)} | Edge(g, a, b) && b in s :: a in s && Edge(h, a, b)
    requires IsPath(g, p) && p[|p| - 1] in s
    ensures IsPath(h, p)
    decreases |p|
  {
    if |p| > 1 {
      var shorter := p[..|p| - 1];
      assert Edge(g, p[|p| - 2], p[|p| - 1]);
      TransferBackward(g, h, s, shorter);
      forall k | 0 <= k < |p| - 1 ensures Edge(h, p[k], p[k + 1]) {
        if k < |p| - 2 {
          assert Edge(h, shorter[k], shorter[k + 1]);
        }
      }
    }
  }

  lemma TransferForward<N(!new)>(g: Graph<N>, h: Graph<N>, p: seq<N>)
    requires forall a, b {:trigger Edge(g, a, b)} | Edge(g, a, b) :: Edge(h, a, b)
    requires IsPath(g, p)
    ensures IsPath(h, p)
  {
  }

  lemma CycleThrough<N(!new)>(g: Graph<N>, n: N, target: N) returns (p: seq<N>)
    requires Edge(g, n, target) && Reach(g, target, n)
    ensures IsPath(g, p) && |p| > 1 && p[0] == n && p[|p| - 1] == n
  {
    var q :| Connects(g, target, n, q);
    p := [n] + q;
    forall k | 0 <= k < |p| - 1 ensures Edge(g, p[k], p[k + 1]) {
      if k > 0 {
        assert Edge(g, q[k - 1], q[k]);
      }
    }
  }

  // ---- Reversal -----------------------------------------------------------------

  ghost predicate Reverses<N(!new)>(g: Graph<N>, back: Graph<N>) {
    forall a, b :: Edge(g, a, b) <==> Edge(back, b, a)
  }

  lemma {:induction false} ReversedReach<N(!new)>(g: Graph<N>, back: Graph<N>, a: N, b: N)
    requires Reverses(g, back)
    ensures Reach(g, a, b) <==> Reach(back, b, a)
  {
    if Reach(g, a, b) {
      var p :| Connects(g, a, b, p);
      ReversedPath(g, back, p);
    }
    if Reach(back, b, a) {
      var p :| Connects(back, b, a, p);
      ReversedPath(back, g, p);
    }
  }

  lemma ReversedPath<N(!new)>(g: Graph<N>, back: Graph<N>, p: seq<N>)
    requires Reverses(g, back) && IsPath(g, p)
    ensures Reach(back, p[|p| - 1], p[0])
  {
    var q := seq(|p|, k requires 0 <= k < |p| => p[|p| - 1 - k]);
    forall k | 0 <= k < |q| - 1 ensures Edge(back, q[k], q[k + 1]) {
      assert Edge(g, p[|p| - 2 - k], p[|p| - 1 - k]);
    }
    assert Connects(back, p[|p| - 1], p[0], q);
  }
}
