/**
 The depth-first pass of the graph validation: it rejects cycles and collection
 nesting beyond the limit, and computes the nesting below every flow.
 */
module DepthFirst {
  import opened Graphs
  import opened WeightedLinks

  datatype Task<+N> = Enter(name: N) | Exit(name: N)

  datatype Verdict<N> =
    | Accepted(depths: map<N, nat>)
    | Cycle(path: seq<N>)
    | TooDeep(name: N, depth: nat)

  // ---- The explicit stack ---------------------------------------------------------

  // The names on the path being explored: those whose exit is pending.
  function Exits<N>(pending: seq<Task<N>>): seq<N> {
    if pending == [] then []
    else
      var last := pending[|pending| - 1];
      Exits(pending[..|pending| - 1]) + if last.Exit? then [last.name] else []
  }

  // Every pending task was pushed by a link from the nearest exit below it.
  ghost predicate Pushed<N(!new)>(links: Links<N>, starts: set<N>, pending: seq<Task<N>>)
    decreases |pending|
  {
    pending == [] ||
    var below, last := pending[..|pending| - 1], pending[|pending| - 1];
    && Pushed(links, starts, below)
    && (if Exits(below) == [] then last.name in starts
        else LinkTo(links, Exits(below)[|Exits(below)| - 1], last.name))
  }

  // The links of a node being explored lead to finished or still pending nodes.
  ghost predicate Covered<N(!new)>(links: Links<N>, visited: set<N>, pending: seq<Task<N>>) {
    forall k, b {:trigger LinkTo(links, pending[k].name, b)} |
      0 <= k < |pending| && pending[k].Exit? && LinkTo(links, pending[k].name, b) ::
      b in visited || exists j | k < j < |pending| :: pending[j].name == b
  }

  function Names<N(==)>(pending: seq<Task<N>>): set<N> {
    set t | t in pending :: t.name
  }

  lemma PopTask<N(!new)>(pending: seq<Task<N>>)
    requires pending != []
    ensures Names(pending) == Names(pending[..|pending| - 1]) + {pending[|pending| - 1].name}
  {
    assert pending == pending[..|pending| - 1] + [pending[|pending| - 1]];
  }

  lemma PushTasks<N(!new)>(base: seq<Task<N>>, more: seq<Task<N>>)
    ensures Names(base + more) == Names(base) + Names(more)
  {
  }

  lemma {:induction false} ExitsIsPath<N(!new)>(links: Links<N>, starts: set<N>, pending: seq<Task<N>>)
    requires Pushed(links, starts, pending)
    ensures Exits(pending) != [] ==> IsPath(Plain(links), Exits(pending)) && Exits(pending)[0] in starts
    decreases |pending|
  {
    if pending != [] {
      var below, last := pending[..|pending| - 1], pending[|pending| - 1];
      ExitsIsPath(links, starts, below);
      if last.Exit? && Exits(below) != [] {
        PlainEdge(links, Exits(below)[|Exits(below)| - 1], last.name);
        JoinPaths(Plain(links), Exits(below), [Exits(below)[|Exits(below)| - 1], last.name]);
        assert Exits(pending) == Exits(below) + [Exits(below)[|Exits(below)| - 1], last.name][1..];
      }
    }
  }

  function Children<N>(links: seq<Link<N>>): seq<Task<N>> {
    if links == [] then [] else Children(links[1..]) + [Enter(links[0].target)]
  }

  lemma {:induction false} ChildrenNames<N(!new)>(links: seq<Link<N>>)
    ensures Names(Children(links)) == Targets(links)
    ensures forall k | 0 <= k < |Children(links)| :: Children(links)[k].Enter?
  {
    if links != [] {
      ChildrenNames(links[1..]);
      PushTasks(Children(links[1..]), [Enter(links[0].target)]);
      assert links == [links[0]] + links[1..];
    }
  }

  // Entering a: its exit and its children are pushed in its place.
  lemma {:induction false} PushedEnter<N(!new)>(links: Links<N>, starts: set<N>, below: seq<Task<N>>, a: N,
                                                children: seq<Task<N>>)
    requires Pushed(links, starts, below + [Enter(a)])
    requires forall k | 0 <= k < |children| :: children[k].Enter? && LinkTo(links, a, children[k].name)
    ensures Pushed(links, starts, below + [Exit(a)] + children)
    ensures Exits(below + [Exit(a)] + children) == Exits(below) + [a]
    decreases |children|
  {
    var base := below + [Exit(a)];
    assert base[..|base| - 1] == below && (below + [Enter(a)])[..|below|] == below;
    if children == [] {
      assert base + children == base;
    } else {
      var shorter := children[..|children| - 1];
      PushedEnter(links, starts, below, a, shorter);
      assert (base + children)[..|base + children| - 1] == base + shorter;
    }
  }

  // ---- The search invariant -----------------------------------------------------------

  ghost predicate Exploring<N(!new)>(links: Links<N>, starts: set<N>, pending: seq<Task<N>>, visited: set<N>) {
    && Pushed(links, starts, pending)
    && Covered(links, visited, pending)
    && Known(links, starts, visited + Names(pending))
    && Apart(Exits(pending), visited)
  }

  // The starts, and nothing that is not reachable.
  ghost predicate Known<N(!new)>(links: Links<N>, starts: set<N>, nodes: set<N>) {
    starts <= nodes && forall n | n in nodes :: n in links && ReachFrom(Plain(links), starts, n)
  }

  predicate Apart<N(==)>(exits: seq<N>, visited: set<N>) {
    forall n | n in exits :: n !in visited
  }

  ghost predicate Finished<N(!new)>(links: Links<N>, visited: set<N>, depths: map<N, nat>, rank: map<N, nat>) {
    && depths.Keys == visited && rank.Keys == visited
    && Ranked(links, rank) && Measured(links, depths)
    && forall n | n in visited :: rank[n] < |visited|
  }

  ghost predicate ClosedLinks<N(!new)>(links: Links<N>, starts: set<N>) {
    && starts <= links.Keys
    && forall a, b {:trigger LinkTo(links, a, b)} | LinkTo(links, a, b) :: b in links
  }

  lemma {:induction false} BeginTasks<N(!new)>(links: Links<N>, starts: set<N>, pending: seq<Task<N>>)
    requires ClosedLinks(links, starts)
    requires forall k | 0 <= k < |pending| :: pending[k].Enter? && pending[k].name in starts
    ensures Pushed(links, starts, pending) && Exits(pending) == []
  {
    if pending != [] {
      BeginTasks(links, starts, pending[..|pending| - 1]);
    }
  }

  lemma Begin<N(!new)>(links: Links<N>, starts: set<N>, pending: seq<Task<N>>)
    requires ClosedLinks(links, starts) && Names(pending) == starts
    requires forall k | 0 <= k < |pending| :: pending[k].Enter?
    ensures Exploring(links, starts, pending, {}) && Exits(pending) == []
  {
    forall k | 0 <= k < |pending| ensures pending[k].name in starts {
      assert pending[k].name in Names(pending);
    }
    BeginTasks(links, starts, pending);
    forall n | n in starts ensures ReachFrom(Plain(links), starts, n) {
      FromRoot(Plain(links), starts, n);
    }
  }

  // A finished node on top is dropped.
  lemma Skip<N(!new)>(links: Links<N>, starts: set<N>, below: seq<Task<N>>, a: N, visited: set<N>)
    requires Exploring(links, starts, below + [Enter(a)], visited) && a in visited
    ensures Exploring(links, starts, below, visited)
  {
    SameSet(visited, a);
    DropTop(links, starts, below, Enter(a), visited, visited);
    OpenExits(below, a);
  }

  lemma SameSet<N(!new)>(visited: set<N>, a: N)
    requires a in visited
    ensures visited + {a} == visited
  {
  }

  // What dropping the top task keeps, once its node counts as visited.
  lemma DropTop<N(!new)>(links: Links<N>, starts: set<N>, below: seq<Task<N>>, top: Task<N>, visited: set<N>,
                         after: set<N>)
    requires Exploring(links, starts, below + [top], visited) && after == visited + {top.name}
    ensures Pushed(links, starts, below) && Covered(links, after, below) && Known(links, starts, after + Names(below))
  {
    var pending := below + [top];
    assert pending[..|pending| - 1] == below;
    PopTask(pending);
    assert after + Names(below) == visited + Names(pending);
    CoveredPop(links, visited, below, top, top.name);
  }

  lemma CoveredPop<N(!new)>(links: Links<N>, visited: set<N>, below: seq<Task<N>>, top: Task<N>, a: N)
    requires Covered(links, visited, below + [top]) && top.name == a
    ensures Covered(links, visited + {a}, below)
  {
    var pending := below + [top];
    forall k, b | 0 <= k < |below| && below[k].Exit? && LinkTo(links, below[k].name, b)
      ensures b in visited + {a} || exists j | k < j < |below| :: below[j].name == b
    {
      assert LinkTo(links, pending[k].name, b);
      if b !in visited && b != a {
        var j :| k < j < |pending| && pending[j].name == b;
        assert j < |below| && below[j].name == b;
      }
    }
  }

  lemma CoveredEnter<N(!new)>(links: Links<N>, visited: set<N>, below: seq<Task<N>>, a: N, children: seq<Task<N>>)
    requires Covered(links, visited, below + [Enter(a)])
    requires forall k | 0 <= k < |children| :: children[k].Enter?
    requires forall b | LinkTo(links, a, b) :: b in Names(children)
    ensures Covered(links, visited, below + [Exit(a)] + children)
  {
    var pending, before := below + [Exit(a)] + children, below + [Enter(a)];
    forall k, b | 0 <= k < |pending| && pending[k].Exit? && LinkTo(links, pending[k].name, b)
      ensures b in visited || exists j | k < j < |pending| :: pending[j].name == b
    {
      if k == |below| {
        assert b in Names(children);
        var t :| t in children && t.name == b;
        var j :| 0 <= j < |children| && children[j] == t;
        assert pending[|below| + 1 + j].name == b;
      } else {
        assert LinkTo(links, before[k].name, b);
        if b !in visited {
          var j :| k < j < |before| && before[j].name == b;
          assert pending[j].name == b;
        }
      }
    }
  }

  lemma ChildrenLinks<N(!new)>(links: Links<N>, a: N)
    requires a in links
    ensures forall b :: LinkTo(links, a, b) <==> b in Names(Children(links[a]))
    ensures forall k | 0 <= k < |Children(links[a])| ::
              Children(links[a])[k].Enter? && LinkTo(links, a, Children(links[a])[k].name)
  {
    var children := Children(links[a]);
    ChildrenNames(links[a]);
    forall k | 0 <= k < |children| ensures LinkTo(links, a, children[k].name) {
      assert children[k].name in Names(children);
    }
  }

  // An unfinished node on top is entered.
  lemma Open<N(!new)>(links: Links<N>, starts: set<N>, below: seq<Task<N>>, a: N, visited: set<N>)
    requires ClosedLinks(links, starts)
    requires Exploring(links, starts, below + [Enter(a)], visited) && a !in visited
    ensures a in links
    ensures var pending := below + [Exit(a)] + Children(links[a]);
            Exploring(links, starts, pending, visited) && Exits(pending) == Exits(below) + [a]
  {
    var before, children := below + [Enter(a)], Children(links[a]);
    var pending := below + [Exit(a)] + children;
    assert before[..|before| - 1] == below;
    PopTask(before);
    assert a in visited + Names(before);
    ChildrenLinks(links, a);
    PushedEnter(links, starts, below, a, children);
    CoveredEnter(links, visited, below, a, children);
    OpenNames(below, a, children);
    forall n | n in Names(children) ensures n in links && ReachFrom(Plain(links), starts, n) {
      PlainEdge(links, a, n);
      FromExtend(Plain(links), starts, a, n);
    }
    OpenExits(below, a);
  }

  lemma OpenNames<N(!new)>(below: seq<Task<N>>, a: N, children: seq<Task<N>>)
    ensures Names(below + [Exit(a)] + children) == Names(below) + {a} + Names(children)
  {
    PushTasks(below + [Exit(a)], children);
    PushTasks(below, [Exit(a)]);
  }

  lemma OpenExits<N(!new)>(below: seq<Task<N>>, a: N)
    ensures Exits(below + [Enter(a)]) == Exits(below)
  {
    assert (below + [Enter(a)])[..|below|] == below;
  }

  lemma TopExit<N(!new)>(below: seq<Task<N>>, a: N)
    ensures Exits(below + [Exit(a)]) == Exits(below) + [a]
  {
    assert (below + [Exit(a)])[..|below|] == below;
  }

  // The exit of a node on top: all its links are finished.
  lemma Close<N(!new)>(links: Links<N>, starts: set<N>, below: seq<Task<N>>, a: N, visited: set<N>)
    requires Exploring(links, starts, below + [Exit(a)], visited)
    requires a !in Exits(below)
    ensures Exploring(links, starts, below, visited + {a})
    ensures a in links && a !in visited
    ensures forall b | LinkTo(links, a, b) :: b in visited
  {
    var pending := below + [Exit(a)];
    TopExit(below, a);
    DropTop(links, starts, below, Exit(a), visited, visited + {a});
    assert a in Exits(pending);
    forall n | n in Exits(below) ensures n !in visited + {a} {
      assert n in Exits(pending);
    }
    forall b | LinkTo(links, a, b) ensures b in visited {
      assert LinkTo(links, pending[|below|].name, b);
    }
  }

  lemma FinishOne<N(!new)>(links: Links<N>, visited: set<N>, depths: map<N, nat>, rank: map<N, nat>, a: N)
    requires Finished(links, visited, depths, rank) && a !in visited && a in links
    requires forall b | LinkTo(links, a, b) :: b in visited
    ensures Finished(links, visited + {a}, depths[a := Nesting(links[a], depths)], rank[a := |visited|])
  {
    RankOne(links, visited, rank, a);
    MeasureOne(links, visited, depths, rank, a);
    assert |visited + {a}| == |visited| + 1;
  }

  lemma RankOne<N(!new)>(links: Links<N>, visited: set<N>, rank: map<N, nat>, a: N)
    requires Ranked(links, rank) && rank.Keys == visited && a !in visited
    requires forall n | n in visited :: rank[n] < |visited|
    requires forall b | LinkTo(links, a, b) :: b in visited
    ensures Ranked(links, rank[a := |visited|])
  {
  }

  lemma MeasureOne<N(!new)>(links: Links<N>, visited: set<N>, depths: map<N, nat>, rank: map<N, nat>, a: N)
    requires Measured(links, depths) && Ranked(links, rank) && depths.Keys == rank.Keys == visited && a !in visited
             && a in links
    requires forall b | LinkTo(links, a, b) :: b in visited
    ensures Measured(links, depths[a := Nesting(links[a], depths)])
  {
    var depths' := depths[a := Nesting(links[a], depths)];
    forall n | n in depths' ensures n in links && depths'[n] == Nesting(links[n], depths') {
      forall l | l in links[n] ensures l.target in visited {
        assert LinkTo(links, n, l.target);
      }
      NestingStable(links[n], depths, depths');
    }
  }

  lemma {:induction false} NestingStable<N(!new)>(links: seq<Link<N>>, depths: map<N, nat>, depths': map<N, nat>)
    requires forall l | l in links :: l.target in depths && l.target in depths' && depths[l.target] == depths'[l.target]
    ensures Nesting(links, depths) == Nesting(links, depths')
  {
    if links != [] {
      NestingStable(links[1..], depths, depths');
    }
  }

  lemma CycleFound<N(!new)>(links: Links<N>, starts: set<N>, below: seq<Task<N>>, a: N, k: nat)
    requires Pushed(links, starts, below + [Enter(a)])
    requires k < |Exits(below)| && Exits(below)[k] == a
    ensures IsCycle(Plain(links), Exits(below)[k..] + [a])
    ensures ReachFrom(Plain(links), starts, a)
  {
    var g, stack := Plain(links), Exits(below);
    assert (below + [Enter(a)])[..|below|] == below;
    ExitsIsPath(links, starts, below);
    PlainEdge(links, stack[|stack| - 1], a);
    var p := stack[k..] + [a];
    forall i | 0 <= i < |p| - 1 ensures Edge(g, p[i], p[i + 1]) {
      if i + 1 < |p| - 1 {
        assert Edge(g, stack[k + i], stack[k + i + 1]);
      }
    }
    assert Connects(g, stack[0], a, stack[..k + 1]);
  }

  lemma AllFinished<N(!new)>(links: Links<N>, starts: set<N>, visited: set<N>, n: N)
    requires Exploring(links, starts, [], visited)
    requires forall a, b {:trigger LinkTo(links, a, b)} | a in visited && LinkTo(links, a, b) :: b in visited
    ensures n in visited <==> ReachFrom(Plain(links), starts, n)
  {
    var g := Plain(links);
    if ReachFrom(g, starts, n) {
      forall a, b {:trigger Edge(g, a, b)} | a in visited && Edge(g, a, b) ensures b in visited {
        PlainEdge(links, a, b);
      }
      FromStaysInside(g, visited, starts, n);
    }
  }

  // ---- The pass ------------------------------------------------------------------------

  function IndexOf<N(==)>(s: seq<N>, n: N): (k: nat)
    requires n in s
    ensures k < |s| && s[k] == n
  {
    if s[0] == n then 0 else 1 + IndexOf(s[1..], n)
  }

  function StartTasks<N(==)>(starts: seq<N>): seq<Task<N>> {
    if starts == [] then [] else StartTasks(starts[1..]) + [Enter(starts[0])]
  }

  lemma {:induction false} StartNames<N(!new)>(starts: seq<N>)
    ensures Names(StartTasks(starts)) == Members(starts)
    ensures forall k | 0 <= k < |StartTasks(starts)| :: StartTasks(starts)[k].Enter?
  {
    if starts != [] {
      StartNames(starts[1..]);
      PushTasks(StartTasks(starts[1..]), [Enter(starts[0])]);
      assert starts == [starts[0]] + starts[1..];
    }
  }

  ghost predicate Distinct<N>(s: seq<N>) {
    forall j, k | 0 <= j < k < |s| :: s[j] != s[k]
  }

  lemma SplitLast<N(!new)>(s: seq<N>)
    requires s != []
    ensures s == s[..|s| - 1] + [s[|s| - 1]]
  {
  }

  lemma PushDistinct<N(!new)>(s: seq<N>, a: N)
    requires Distinct(s) && a !in s
    ensures Distinct(s + [a]) && Members(s + [a]) == Members(s) + {a}
  {
  }

  lemma PopDistinct<N(!new)>(s: seq<N>, a: N)
    requires Distinct(s + [a])
    ensures Distinct(s) && a !in s && Members(s + [a]) == Members(s) + {a}
  {
    forall j, k | 0 <= j < k < |s| ensures s[j] != s[k] {
      assert (s + [a])[j] == s[j] && (s + [a])[k] == s[k];
    }
    forall j | 0 <= j < |s| ensures s[j] != a {
      assert (s + [a])[j] == s[j] && (s + [a])[|s|] == a;
    }
  }

  // Everything the pass keeps.
  ghost predicate Progress<N(!new)>(links: Links<N>, roots: set<N>, limit: nat, pending: seq<Task<N>>, stack: seq<N>,
                                    visited: set<N>, depths: map<N, nat>, rank: map<N, nat>) {
    && Exploring(links, roots, pending, visited)
    && stack == Exits(pending) && Distinct(stack)
    && Finished(links, visited, depths, rank)
    && forall n | n in depths :: depths[n] <= limit
  }

  ghost function Unseen<N(!new)>(links: Links<N>, visited: set<N>, stack: seq<N>): set<N> {
    links.Keys - visited - Members(stack)
  }

  // What a verdict of the pass means.
  ghost predicate Sound<N(!new)>(links: Links<N>, roots: set<N>, limit: nat, verdict: Verdict<N>, rank: map<N, nat>) {
    match verdict
    case Accepted(depths) =>
      && (forall n :: n in depths <==> ReachFrom(Plain(links), roots, n))
      && rank.Keys == depths.Keys
      && Ranked(links, rank) && Measured(links, depths)
      && forall n | n in depths :: depths[n] <= limit
    case Cycle(path) =>
      IsCycle(Plain(links), path) && ReachFrom(Plain(links), roots, path[0])
    case TooDeep(name, depth) =>
      && ReachFrom(Plain(links), roots, name)
      && depth > limit
      && exists path :: Follows(links, name, path) && PathWeight(path) == depth
  }

  lemma ExitStack<N(!new)>(links: Links<N>, roots: set<N>, limit: nat, below: seq<Task<N>>, stack: seq<N>, a: N,
                           visited: set<N>, depths: map<N, nat>, rank: map<N, nat>)
    requires Progress(links, roots, limit, below + [Exit(a)], stack, visited, depths, rank)
    ensures a in links && stack == Exits(below) + [a] && ReachFrom(Plain(links), roots, a)
    ensures Distinct(Exits(below)) && a !in Exits(below)
    ensures Unseen(links, visited + {a}, Exits(below)) == Unseen(links, visited, stack)
  {
    TopExit(below, a);
    PopDistinct(Exits(below), a);
    PopTask(below + [Exit(a)]);
    assert a in visited + Names(below + [Exit(a)]);
  }

  lemma ExitStep<N(!new)>(links: Links<N>, roots: set<N>, below: seq<Task<N>>, a: N,
                          visited: set<N>, depths: map<N, nat>, rank: map<N, nat>)
    requires Exploring(links, roots, below + [Exit(a)], visited)
    requires Finished(links, visited, depths, rank) && a !in Exits(below)
    ensures a in links && a !in visited
    ensures Exploring(links, roots, below, visited + {a})
    ensures Finished(links, visited + {a}, depths[a := Nesting(links[a], depths)], rank[a := |visited|])
  {
    Close(links, roots, below, a, visited);
    FinishOne(links, visited, depths, rank, a);
  }

  lemma ExitProgress<N(!new)>(links: Links<N>, roots: set<N>, limit: nat, below: seq<Task<N>>, stack: seq<N>, a: N,
                              visited: set<N>, depths: map<N, nat>, rank: map<N, nat>)
    requires Progress(links, roots, limit, below + [Exit(a)], stack, visited, depths, rank)
    requires a in links && Nesting(links[a], depths) <= limit
    ensures stack != []
    ensures Progress(links, roots, limit, below, stack[..|stack| - 1], visited + {a},
                     depths[a := Nesting(links[a], depths)], rank[a := |visited|])
    ensures Unseen(links, visited + {a}, stack[..|stack| - 1]) == Unseen(links, visited, stack)
  {
    ExitStack(links, roots, limit, below, stack, a, visited, depths, rank);
    ExitStep(links, roots, below, a, visited, depths, rank);
    DropLast(Exits(below), a);
    WithinLimit(depths, a, Nesting(links[a], depths), limit);
  }

  lemma DropLast<N(!new)>(s: seq<N>, a: N)
    ensures (s + [a])[..|s + [a]| - 1] == s
  {
  }

  lemma WithinLimit<N(!new)>(depths: map<N, nat>, a: N, depth: nat, limit: nat)
    requires (forall n | n in depths :: depths[n] <= limit) && depth <= limit
    ensures var depths' := depths[a := depth]; forall n | n in depths' :: depths'[n] <= limit
  {
  }

  lemma ExitTooDeep<N(!new)>(links: Links<N>, roots: set<N>, limit: nat, below: seq<Task<N>>, stack: seq<N>, a: N,
                             visited: set<N>, depths: map<N, nat>, rank: map<N, nat>)
    requires Progress(links, roots, limit, below + [Exit(a)], stack, visited, depths, rank)
    requires a in links && Nesting(links[a], depths) > limit
    ensures Sound(links, roots, limit, TooDeep(a, Nesting(links[a], depths)), rank[a := |visited|])
  {
    ExitStack(links, roots, limit, below, stack, a, visited, depths, rank);
    ExitStep(links, roots, below, a, visited, depths, rank);
    var path := DepthAttained(links, rank[a := |visited|], depths[a := Nesting(links[a], depths)], a);
  }

  lemma ExitKnown<N(!new)>(links: Links<N>, roots: set<N>, limit: nat, below: seq<Task<N>>, stack: seq<N>,
                           task: Task<N>, visited: set<N>, depths: map<N, nat>, rank: map<N, nat>)
    requires Progress(links, roots, limit, below + [task], stack, visited, depths, rank)
    ensures task.name in links && (task.Exit? ==> stack != [])
  {
    PopTask(below + [task]);
    assert task.name in visited + Names(below + [task]);
    if task.Exit? {
      TopExit(below, task.name);
    }
  }

  lemma CycleSound<N(!new)>(links: Links<N>, roots: set<N>, limit: nat, below: seq<Task<N>>, stack: seq<N>, a: N,
                            k: nat, visited: set<N>, depths: map<N, nat>, rank: map<N, nat>)
    requires Progress(links, roots, limit, below + [Enter(a)], stack, visited, depths, rank)
    requires k < |stack| && stack[k] == a
    ensures Sound(links, roots, limit, Cycle(stack[k..] + [a]), rank)
  {
    OpenExits(below, a);
    CycleFound(links, roots, below, a, k);
  }

  lemma OpenStep<N(!new)>(links: Links<N>, roots: set<N>, limit: nat, below: seq<Task<N>>, stack: seq<N>, a: N,
                          visited: set<N>, depths: map<N, nat>, rank: map<N, nat>)
    requires ClosedLinks(links, roots)
    requires Progress(links, roots, limit, below + [Enter(a)], stack, visited, depths, rank)
    requires a !in visited && a !in stack
    ensures a in links
    ensures Progress(links, roots, limit, below + [Exit(a)] + Children(links[a]), stack + [a], visited, depths, rank)
    ensures Unseen(links, visited, stack + [a]) < Unseen(links, visited, stack)
  {
    OpenExits(below, a);
    Open(links, roots, below, a, visited);
    PushDistinct(stack, a);
    assert a in Unseen(links, visited, stack);
  }

  lemma SkipStep<N(!new)>(links: Links<N>, roots: set<N>, limit: nat, below: seq<Task<N>>, stack: seq<N>, a: N,
                          visited: set<N>, depths: map<N, nat>, rank: map<N, nat>)
    requires Progress(links, roots, limit, below + [Enter(a)], stack, visited, depths, rank) && a in visited
    ensures Progress(links, roots, limit, below, stack, visited, depths, rank)
  {
    OpenExits(below, a);
    Skip(links, roots, below, a, visited);
  }

  lemma EndSound<N(!new)>(links: Links<N>, roots: set<N>, limit: nat, stack: seq<N>,
                          visited: set<N>, depths: map<N, nat>, rank: map<N, nat>)
    requires Progress(links, roots, limit, [], stack, visited, depths, rank)
    ensures Sound(links, roots, limit, Accepted(depths), rank)
  {
    forall n ensures n in visited <==> ReachFrom(Plain(links), roots, n) {
      AllFinished(links, roots, visited, n);
    }
  }

  lemma StartProgress<N(!new)>(links: Links<N>, starts: seq<N>, limit: nat)
    requires ClosedLinks(links, Members(starts))
    ensures Progress(links, Members(starts), limit, StartTasks(starts), [], {}, map[], map[])
  {
    StartNames(starts);
    Begin(links, Members(starts), StartTasks(starts));
  }

  // What the pass does with a pending exit: the node is measured, and either nested too deep
  // or finished.
  method Leave<N(==, !new)>(links: Links<N>, limit: nat, below: seq<Task<N>>, stack: seq<N>, a: N, visited: set<N>,
                            depths: map<N, nat>, ghost roots: set<N>, ghost rank: map<N, nat>)
    returns (depth: nat, visited': set<N>, ghost rank': map<N, nat>)
    requires Progress(links, roots, limit, below + [Exit(a)], stack, visited, depths, rank)
    ensures depth > limit ==> Sound(links, roots, limit, TooDeep(a, depth), rank')
    ensures depth <= limit ==>
              && stack != []
              && Progress(links, roots, limit, below, stack[..|stack| - 1], visited', depths[a := depth], rank')
              && Unseen(links, visited', stack[..|stack| - 1]) == Unseen(links, visited, stack)
  {
    ExitKnown(links, roots, limit, below, stack, Exit(a), visited, depths, rank);
    depth, visited', rank' := Nesting(links[a], depths), visited + {a}, rank[a := |visited|];
    if depth > limit {
      ExitTooDeep(links, roots, limit, below, stack, a, visited, depths, rank);
    } else {
      ExitProgress(links, roots, limit, below, stack, a, visited, depths, rank);
    }
  }

  // One pass from the start candidates.  Accepted: exactly the reachable nodes are
  // measured, every link lowers the rank and no nesting exceeds the limit.
  // Otherwise: a concrete reachable cycle, or a reachable node nested too deep.
  method Explore<N(==, !new)>(links: Links<N>, starts: seq<N>, limit: nat)
    returns (verdict: Verdict<N>, ghost rank: map<N, nat>)
    requires ClosedLinks(links, Members(starts))
    ensures Sound(links, Members(starts), limit, verdict, rank)
  {
    var visited: set<N>, stack: seq<N>, depths: map<N, nat> := {}, [], map[];
    rank := map[];
    ghost var roots := Members(starts);
    var pending := StartTasks(starts);
    StartProgress(links, starts, limit);
    while pending != []
      invariant Progress(links, roots, limit, pending, stack, visited, depths, rank)
      decreases Unseen(links, visited, stack), |pending|
    {
      var task := pending[|pending| - 1];
      SplitLast(pending);
      pending := pending[..|pending| - 1];
      if task.Exit? {
        var depth;
        depth, visited, rank := Leave(links, limit, pending, stack, task.name, visited, depths, roots, rank);
        if depth > limit {
          return TooDeep(task.name, depth), rank;
        }
        depths := depths[task.name := depth];
        stack := stack[..|stack| - 1];
        continue;
      }
      if task.name in stack {
        var k := IndexOf(stack, task.name);
        CycleSound(links, roots, limit, pending, stack, task.name, k, visited, depths, rank);
        return Cycle(stack[k..] + [task.name]), rank;
      }
      if task.name in visited {
        SkipStep(links, roots, limit, pending, stack, task.name, visited, depths, rank);
        continue;
      }
      OpenStep(links, roots, limit, pending, stack, task.name, visited, depths, rank);
      stack := stack + [task.name];
      pending := pending + [Exit(task.name)] + Children(links[task.name]);
    }
    EndSound(links, roots, limit, stack, visited, depths, rank);
    return Accepted(depths), rank;
  }

  // The pass accepts exactly when no reachable cycle exists and no reachable path
  // nests deeper than the limit.
  lemma AcceptedIff<N(!new)>(links: Links<N>, roots: set<N>, limit: nat, verdict: Verdict<N>, rank: map<N, nat>)
    requires Sound(links, roots, limit, verdict, rank)
    ensures verdict.Accepted? <==> Acyclic(links, roots) && Shallow(links, roots, limit)
  {
    match verdict
    case Accepted(depths) =>
      forall p | IsCycle(Plain(links), p) ensures !ReachFrom(Plain(links), roots, p[0]) {
        if ReachFrom(Plain(links), roots, p[0]) {
          RankedHasNoCycle(links, rank, p);
        }
      }
      forall n, path | Follows(links, n, path) && ReachFrom(Plain(links), roots, n)
        ensures PathWeight(path) <= limit
      {
        DepthBounds(links, rank, depths, n, path);
      }
    case Cycle(path) =>
      assert IsCycle(Plain(links), path);
    case TooDeep(name, depth) =>
      var path :| Follows(links, name, path) && PathWeight(path) == depth;
      assert Follows(links, name, path) && ReachFrom(Plain(links), roots, name);
  }
}
