/** Dominators and ancestors of the routed graph, as the graph validation computes them. */
module Dominators {
  import opened Graphs

  ghost predicate EntryPath<N(!new)>(g: Graph<N>, starts: set<N>, p: seq<N>, n: N) {
    IsPath(g, p) && p[0] in starts && p[|p| - 1] == n
  }

  // The independent definition: d lies on every path from a start to n.
  ghost predicate OnEveryEntryPath<N(!new)>(g: Graph<N>, starts: set<N>, d: N, n: N) {
    forall p :: EntryPath(g, starts, p, n) ==> d in p
  }

  ghost predicate RoutedGraph<N(!new)>(g: Graph<N>, starts: set<N>, entry: N) {
    && entry !in g
    && Closed(g, g.Keys)
    && starts <= g.Keys
    && forall n | n in g :: ReachFrom(g, starts, n)
  }

  lemma SomeEntryPath<N(!new)>(g: Graph<N>, starts: set<N>, n: N, entry: N) returns (p: seq<N>)
    requires RoutedGraph(g, starts, entry) && n in g
    ensures EntryPath(g, starts, p, n)
    ensures forall d | d in p :: d in g
  {
    var r :| r in starts && Reach(g, r, n);
    p :| Connects(g, r, n, p);
    PathStaysInside(g, g.Keys, p);
  }

  // ---- The dominator equation ---------------------------------------------------

  type Sets<N(==)> = map<N, set<N>>

  // The predecessors of each flow, with the virtual root before the starts.
  ghost predicate Precede<N(!new)>(g: Graph<N>, starts: set<N>, preds: Sets<N>, entry: N) {
    && preds.Keys == g.Keys
    && forall n, q {:trigger q in preds[n]} {:trigger Edge(g, q, n)} | n in preds ::
         q in preds[n] <==> Edge(g, q, n) || (q == entry && n in starts)
  }

  function Predecessors<N(==, !new)>(g: Graph<N>, starts: set<N>, entry: N): Sets<N> {
    map n | n in g ::
      (set a | a in g && n in g[a]) + (if n in starts then {entry} else {})
  }

  function Everything<N(==, !new)>(dom: Sets<N>): set<N> {
    set n, d | n in dom && d in dom[n] :: d
  }

  ghost predicate InUpdate<N(!new)>(dom: Sets<N>, parents: set<N>, n: N, d: N)
    requires forall q | q in parents :: q in dom
  {
    d == n || (parents != {} && forall q | q in parents :: d in dom[q])
  }

  // One application of the dominator equation at n.
  function Update<N(==, !new)>(dom: Sets<N>, parents: set<N>, n: N): (updated: set<N>)
    requires forall q | q in parents :: q in dom
    ensures forall d :: d in updated <==> InUpdate(dom, parents, n, d)
  {
    if parents == {} then {n}
    else
      var common := set d | d in Everything(dom) && forall q | q in parents :: d in dom[q];
      assert forall d | InUpdate(dom, parents, n, d) && d != n :: d in common by {
        var q :| q in parents;
      }
      common + {n}
  }

  ghost predicate Tracks<N(!new)>(preds: Sets<N>, dom: Sets<N>, entry: N) {
    && dom.Keys == preds.Keys + {entry}
    && entry !in preds
    && (forall n, q {:trigger q in preds[n]} | n in preds && q in preds[n] :: q in dom)
    && dom[entry] == {entry}
  }

  // Every step only shrinks a set: the map lies above the equation.
  ghost predicate Shrinking<N(!new)>(preds: Sets<N>, dom: Sets<N>, entry: N)
    requires Tracks(preds, dom, entry)
  {
    forall n | n in preds :: Update(dom, preds[n], n) <= dom[n]
  }

  ghost predicate Complete<N(!new)>(g: Graph<N>, starts: set<N>, dom: Sets<N>, entry: N) {
    forall n, d {:trigger OnEveryEntryPath(g, starts, d, n)} | n in dom && n != entry
        && OnEveryEntryPath(g, starts, d, n) :: d in dom[n]
  }

  ghost predicate Solved<N(!new)>(preds: Sets<N>, dom: Sets<N>, entry: N)
    requires Tracks(preds, dom, entry)
  {
    forall n | n in preds :: dom[n] == Update(dom, preds[n], n)
  }

  // ---- Progress -------------------------------------------------------------------

  ghost function Weight<N(!new)>(names: seq<N>, dom: Sets<N>): nat {
    if names == [] then 0
    else (if names[0] in dom then |dom[names[0]]| else 0) + Weight(names[1..], dom)
  }

  lemma {:induction false} WeightDrops<N(!new)>(names: seq<N>, dom: Sets<N>, dom': Sets<N>, n: N)
    requires forall m | m in names :: m in dom && m in dom' && dom'[m] <= dom[m]
    ensures Weight(names, dom') <= Weight(names, dom)
    ensures n in names && dom'[n] < dom[n] ==> Weight(names, dom') < Weight(names, dom)
  {
    if names != [] {
      SubsetSize(dom'[names[0]], dom[names[0]]);
      WeightDrops(names[1..], dom, dom', n);
    }
  }

  lemma {:induction false} SubsetSize<N(!new)>(a: set<N>, b: set<N>)
    requires a <= b
    ensures |a| <= |b| && (a != b ==> |a| < |b|)
  {
    assert b == a + (b - a);
    if a != b {
      var x :| x in b - a;
    }
  }

  lemma UpdateMonotone<N(!new)>(dom: Sets<N>, dom': Sets<N>, parents: set<N>, n: N)
    requires dom.Keys == dom'.Keys && forall m | m in dom :: dom'[m] <= dom[m]
    requires forall q | q in parents :: q in dom
    ensures Update(dom', parents, n) <= Update(dom, parents, n)
  {
    forall d | InUpdate(dom', parents, n, d) ensures InUpdate(dom, parents, n, d) {
    }
  }

  lemma UpdateShrinks<N(!new)>(preds: Sets<N>, dom: Sets<N>, n: N, entry: N)
    requires Tracks(preds, dom, entry) && Shrinking(preds, dom, entry) && n in preds
    ensures var dom' := dom[n := Update(dom, preds[n], n)];
            && Tracks(preds, dom', entry) && Shrinking(preds, dom', entry)
            && forall m | m in dom :: dom'[m] <= dom[m]
  {
    var dom' := dom[n := Update(dom, preds[n], n)];
    forall m | m in preds ensures Update(dom', preds[m], m) <= dom'[m] {
      UpdateMonotone(dom, dom', preds[m], m);
    }
  }

  // ---- Completeness: nothing that dominates is ever removed -------------------------

  lemma DominatesPredecessor<N(!new)>(g: Graph<N>, starts: set<N>, d: N, n: N, q: N)
    requires OnEveryEntryPath(g, starts, d, n) && d != n && Edge(g, q, n)
    ensures OnEveryEntryPath(g, starts, d, q)
  {
    forall p | EntryPath(g, starts, p, q) ensures d in p {
      assert EntryPath(g, starts, p + [n], n);
    }
  }

  lemma StartDominator<N(!new)>(g: Graph<N>, starts: set<N>, d: N, n: N)
    requires OnEveryEntryPath(g, starts, d, n) && n in starts
    ensures d == n
  {
    assert EntryPath(g, starts, [n], n);
  }

  lemma DominatesUpdate<N(!new)>(g: Graph<N>, starts: set<N>, preds: Sets<N>, dom: Sets<N>, n: N, d: N, entry: N)
    requires RoutedGraph(g, starts, entry) && Precede(g, starts, preds, entry) && n in g
    requires Tracks(preds, dom, entry) && Complete(g, starts, dom, entry)
    requires OnEveryEntryPath(g, starts, d, n)
    ensures InUpdate(dom, preds[n], n, d)
  {
    if d != n {
      if n in starts {
        StartDominator(g, starts, d, n);
      }
      var p := SomeEntryPath(g, starts, n, entry);
      assert |p| > 1 && Edge(g, p[|p| - 2], p[|p| - 1]);
      assert p[|p| - 2] in preds[n];
      forall q | q in preds[n] ensures d in dom[q] {
        assert Edge(g, q, n) && q != entry;
        DominatesPredecessor(g, starts, d, n, q);
      }
    }
  }

  lemma UpdateKeepsComplete<N(!new)>(g: Graph<N>, starts: set<N>, preds: Sets<N>, dom: Sets<N>, n: N, entry: N)
    requires RoutedGraph(g, starts, entry) && Precede(g, starts, preds, entry) && n in g
    requires Tracks(preds, dom, entry) && Complete(g, starts, dom, entry)
    ensures Complete(g, starts, dom[n := Update(dom, preds[n], n)], entry)
  {
    forall d | OnEveryEntryPath(g, starts, d, n) ensures d in Update(dom, preds[n], n) {
      DominatesUpdate(g, starts, preds, dom, n, d, entry);
    }
  }

  // ---- Soundness: what remains at the fixpoint dominates ----------------------------

  lemma {:induction false} FixpointSound<N(!new)>(g: Graph<N>, starts: set<N>, preds: Sets<N>, dom: Sets<N>,
                                         d: N, p: seq<N>, entry: N)
    requires Precede(g, starts, preds, entry) && Tracks(preds, dom, entry) && Solved(preds, dom, entry)
    requires IsPath(g, p) && p[0] in starts && forall n | n in p :: n in g
    requires d != entry && d in dom[p[|p| - 1]]
    ensures d in p
    decreases |p|
  {
    var n := p[|p| - 1];
    assert InUpdate(dom, preds[n], n, d);
    if d != n {
      if |p| > 1 {
        var shorter := p[..|p| - 1];
        assert Edge(g, p[|p| - 2], p[|p| - 1]);
        assert p[|p| - 2] in preds[n];
        FixpointSound(g, starts, preds, dom, d, shorter, entry);
      }
    }
  }

  function Top<N(==, !new)>(nodes: set<N>, entry: N): Sets<N> {
    (map n | n in nodes :: nodes + {entry})[entry := {entry}]
  }

  lemma TopAbove<N(!new)>(nodes: set<N>, parents: set<N>, n: N, entry: N)
    requires n in nodes && parents <= Top(nodes, entry).Keys
    ensures Update(Top(nodes, entry), parents, n) <= nodes + {entry}
  {
    forall d | InUpdate(Top(nodes, entry), parents, n, d) && d != n ensures d in nodes + {entry} {
      var q :| q in parents;
    }
  }

  lemma TopTracks<N(!new)>(g: Graph<N>, starts: set<N>, preds: Sets<N>, entry: N)
    requires RoutedGraph(g, starts, entry) && Precede(g, starts, preds, entry)
    ensures Tracks(preds, Top(g.Keys, entry), entry)
  {
    forall n, q {:trigger q in preds[n]} | n in preds && q in preds[n] ensures q in Top(g.Keys, entry) {
      assert Edge(g, q, n) || q == entry;
    }
  }

  lemma TopShrinking<N(!new)>(nodes: set<N>, preds: Sets<N>, entry: N)
    requires preds.Keys == nodes && Tracks(preds, Top(nodes, entry), entry)
    ensures Shrinking(preds, Top(nodes, entry), entry)
  {
    var dom := Top(nodes, entry);
    forall n | n in preds ensures Update(dom, preds[n], n) <= dom[n] {
      TopAbove(nodes, preds[n], n, entry);
    }
  }

  lemma TopComplete<N(!new)>(g: Graph<N>, starts: set<N>, entry: N)
    requires RoutedGraph(g, starts, entry)
    ensures Complete(g, starts, Top(g.Keys, entry), entry)
  {
    var dom := Top(g.Keys, entry);
    forall n, d | n in dom && n != entry && OnEveryEntryPath(g, starts, d, n) ensures d in dom[n] {
      var p := SomeEntryPath(g, starts, n, entry);
      assert d in p;
    }
  }

  lemma FixpointExact<N(!new)>(g: Graph<N>, starts: set<N>, preds: Sets<N>, dom: Sets<N>, n: N, d: N, entry: N)
    requires RoutedGraph(g, starts, entry) && Precede(g, starts, preds, entry) && n in g
    requires Tracks(preds, dom, entry) && Solved(preds, dom, entry) && Complete(g, starts, dom, entry)
    ensures d in dom[n] && d != entry <==> OnEveryEntryPath(g, starts, d, n)
  {
    if d in dom[n] && d != entry {
      forall p | EntryPath(g, starts, p, n) ensures d in p {
        PathStaysInside(g, g.Keys, p);
        FixpointSound(g, starts, preds, dom, d, p, entry);
      }
    }
    if OnEveryEntryPath(g, starts, d, n) {
      var p := SomeEntryPath(g, starts, n, entry);
      assert d in p;
    }
  }

  // ---- The loop ----------------------------------------------------------------------

  // What every step of the loop keeps.
  ghost predicate Approximates<N(!new)>(g: Graph<N>, starts: set<N>, preds: Sets<N>, dom: Sets<N>, entry: N) {
    Tracks(preds, dom, entry) && Shrinking(preds, dom, entry) && Complete(g, starts, dom, entry)
  }

  lemma PredecessorsPrecede<N(!new)>(g: Graph<N>, starts: set<N>, entry: N)
    requires RoutedGraph(g, starts, entry)
    ensures Precede(g, starts, Predecessors(g, starts, entry), entry)
  {
  }

  lemma TopApproximates<N(!new)>(g: Graph<N>, starts: set<N>, preds: Sets<N>, entry: N)
    requires RoutedGraph(g, starts, entry) && Precede(g, starts, preds, entry)
    ensures Approximates(g, starts, preds, Top(g.Keys, entry), entry)
  {
    TopTracks(g, starts, preds, entry);
    TopShrinking(g.Keys, preds, entry);
    TopComplete(g, starts, entry);
  }

  lemma StepApproximates<N(!new)>(names: seq<N>, g: Graph<N>, starts: set<N>, preds: Sets<N>, dom: Sets<N>, n: N,
                                  entry: N)
    requires RoutedGraph(g, starts, entry) && Precede(g, starts, preds, entry) && Members(names) == g.Keys
    requires Approximates(g, starts, preds, dom, entry) && n in names && Update(dom, preds[n], n) != dom[n]
    ensures var dom' := dom[n := Update(dom, preds[n], n)];
            && Approximates(g, starts, preds, dom', entry)
            && Weight(names, dom') < Weight(names, dom)
  {
    assert n in Members(names);
    UpdateShrinks(preds, dom, n, entry);
    UpdateKeepsComplete(g, starts, preds, dom, n, entry);
    assert forall m | m in names :: m in Members(names);
    WeightDrops(names, dom, dom[n := Update(dom, preds[n], n)], n);
  }

  lemma MembersStep<N(!new)>(names: seq<N>, k: nat)
    requires k < |names|
    ensures Members(names[..k + 1]) == Members(names[..k]) + {names[k]}
  {
    assert names[..k + 1] == names[..k] + [names[k]];
  }

  // The body of the `changed` loop: one pass over every routed flow.
  method Pass<N(==, !new)>(names: seq<N>, g: Graph<N>, starts: set<N>, preds: Sets<N>, before: Sets<N>, entry: N)
    returns (dom: Sets<N>, changed: bool)
    requires RoutedGraph(g, starts, entry) && Precede(g, starts, preds, entry) && Members(names) == g.Keys
    requires Approximates(g, starts, preds, before, entry) && before.Keys == Members(names) + {entry}
    ensures Approximates(g, starts, preds, dom, entry) && dom.Keys == before.Keys
    ensures changed ==> Weight(names, dom) < Weight(names, before)
    ensures !changed ==> dom == before && Solved(preds, dom, entry)
  {
    dom, changed := before, false;
    for k := 0 to |names|
      invariant Approximates(g, starts, preds, dom, entry) && dom.Keys == before.Keys
      invariant !changed ==> dom == before
      invariant !changed ==> forall n | n in Members(names[..k]) :: before[n] == Update(before, preds[n], n)
      invariant changed ==> Weight(names, dom) < Weight(names, before)
    {
      MembersStep(names, k);
      var n := names[k];
      assert n in Members(names);
      var updated := Update(dom, preds[n], n);
      if updated != dom[n] {
        StepApproximates(names, g, starts, preds, dom, n, entry);
        dom, changed := dom[n := updated], true;
      }
    }
    assert names[..|names|] == names;
  }

  // The `changed` loop computes exactly the flows on every entry path.
  method ComputeDominators<N(==, !new)>(names: seq<N>, g: Graph<N>, starts: set<N>, entry: N) returns (result: Sets<N>)
    requires RoutedGraph(g, starts, entry) && Members(names) == g.Keys
    ensures result.Keys == g.Keys
    ensures forall n, d | n in g :: d in result[n] <==> OnEveryEntryPath(g, starts, d, n)
  {
    var preds := Predecessors(g, starts, entry);
    PredecessorsPrecede(g, starts, entry);
    var dom := Top(g.Keys, entry);
    TopApproximates(g, starts, preds, entry);
    var changed := true;
    while changed
      invariant Approximates(g, starts, preds, dom, entry) && dom.Keys == g.Keys + {entry}
      invariant !changed ==> Solved(preds, dom, entry)
      decreases Weight(names, dom), changed
    {
      assert forall n | n in names :: n in Members(names);
      dom, changed := Pass(names, g, starts, preds, dom, entry);
    }
    result := map n | n in g :: dom[n] - {entry};
    forall n, d | n in g ensures d in result[n] <==> OnEveryEntryPath(g, starts, d, n) {
      FixpointExact(g, starts, preds, dom, n, d, entry);
    }
  }

  // ---- Ancestors --------------------------------------------------------------

  lemma LastEdge<N(!new)>(g: Graph<N>, a: N, n: N)
    ensures Beyond(g, a, n) <==> exists q :: Reach(g, a, q) && Edge(g, q, n)
  {
    if Beyond(g, a, n) {
      var c :| Edge(g, a, c) && Reach(g, c, n);
      var p :| Connects(g, c, n, p);
      if |p| == 1 {
        ReachSelf(g, a);
      } else {
        assert Connects(g, c, p[|p| - 2], p[..|p| - 1]) && Edge(g, p[|p| - 2], n);
        ReachEdge(g, a, c);
        ReachTransitive(g, a, c, p[|p| - 2]);
      }
    }
    if q :| Reach(g, a, q) && Edge(g, q, n) {
      var p :| Connects(g, a, q, p);
      if |p| == 1 {
        ReachSelf(g, n);
      } else {
        assert Connects(g, p[1], q, p[1..]) && Edge(g, a, p[1]);
        ReachExtend(g, p[1], q, n);
      }
    }
  }

  lemma BackwardClosure<N(!new)>(g: Graph<N>, back: Graph<N>, n: N, a: N)
    requires Reverses(g, back)
    ensures ReachFrom(back, Members(Successors(back, n)), a) <==> Beyond(g, a, n)
  {
    LastEdge(g, a, n);
    if ReachFrom(back, Members(Successors(back, n)), a) {
      var q :| q in Successors(back, n) && Reach(back, q, a);
      assert Edge(back, n, q);
      ReversedReach(g, back, a, q);
    }
    if q :| Reach(g, a, q) && Edge(g, q, n) {
      assert Edge(back, n, q);
      ReversedReach(g, back, a, q);
    }
  }

  // The backward worklist of every flow finds exactly the flows that can lead to it.
  method ComputeAncestors<N(==, !new)>(names: seq<N>, g: Graph<N>, back: Graph<N>) returns (result: Sets<N>)
    requires Reverses(g, back)
    ensures forall n :: n in result <==> n in names
    ensures forall n, a | n in names :: a in result[n] <==> Beyond(g, a, n)
  {
    result := map[];
    for k := 0 to |names|
      invariant forall n :: n in result <==> n in names[..k]
      invariant forall n, a | n in result :: a in result[n] <==> Beyond(g, a, n)
    {
      var n := names[k];
      var seen := Closure(back, Successors(back, n));
      forall a ensures a in seen <==> Beyond(g, a, n) {
        BackwardClosure(g, back, n, a);
      }
      result := result[n := seen];
    }
  }

  // ---- Both ---------------------------------------------------------------------

  // Exact dominators and exact ancestors of a routed graph.
  ghost predicate Analysed<N(!new)>(g: Graph<N>, starts: set<N>, dominators: Sets<N>, ancestors: Sets<N>) {
    && dominators.Keys == g.Keys && ancestors.Keys == g.Keys
    && (forall n, d | n in g :: d in dominators[n] <==> OnEveryEntryPath(g, starts, d, n))
    && (forall n, a | n in g :: a in ancestors[n] <==> Beyond(g, a, n))
  }

  ghost predicate Inside<N(!new)>(g: Graph<N>, dominators: Sets<N>) {
    forall n {:trigger dominators[n]} {:trigger n in dominators} | n in g :: n in dominators && dominators[n] <= g.Keys
  }

  // Dominators are nodes of the graph.
  lemma DominatorsInside<N(!new)>(g: Graph<N>, starts: set<N>, dominators: Sets<N>, ancestors: Sets<N>, entry: N)
    requires Analysed(g, starts, dominators, ancestors) && RoutedGraph(g, starts, entry)
    ensures Inside(g, dominators)
  {
    forall n | n in g ensures n in dominators && dominators[n] <= g.Keys {
      var p := SomeEntryPath(g, starts, n, entry);
      forall d | d in dominators[n] ensures d in g {
        assert OnEveryEntryPath(g, starts, d, n);
        assert d in p;
      }
    }
  }

  // Every dominator lies on every entry path: whoever follows the routes has passed it.
  ghost predicate Passed<N(!new)>(g: Graph<N>, starts: set<N>, dominators: Sets<N>) {
    forall n, p {:trigger EntryPath(g, starts, p, n)} | n in g && EntryPath(g, starts, p, n) ::
      n in dominators && forall d | d in dominators[n] :: d in p
  }

  lemma DominatorsPassed<N(!new)>(g: Graph<N>, starts: set<N>, dominators: Sets<N>, ancestors: Sets<N>)
    requires Analysed(g, starts, dominators, ancestors)
    ensures Passed(g, starts, dominators)
  {
    forall n, p | n in g && EntryPath(g, starts, p, n)
      ensures n in dominators && forall d | d in dominators[n] :: d in p
    {
      forall d | d in dominators[n] ensures d in p {
        assert OnEveryEntryPath(g, starts, d, n);
      }
    }
  }

  method Analyse<N(==, !new)>(names: seq<N>, g: Graph<N>, starts: set<N>, back: Graph<N>, entry: N)
    returns (dominators: Sets<N>, ancestors: Sets<N>)
    requires RoutedGraph(g, starts, entry) && Members(names) == g.Keys && Reverses(g, back)
    ensures Analysed(g, starts, dominators, ancestors)
  {
    dominators := ComputeDominators(names, g, starts, entry);
    ancestors := ComputeAncestors(names, g, back);
    assert forall n | n in g :: n in Members(names);
    assert ancestors.Keys == Members(names);
  }
}
