/**
 The depth-bounded breadth-first loops of core/graph_reasoner.py and
 core/cognitive_query_engine.py, against reachability in exactly k hops.
 */
module HopSearch {
  import opened Common
  import opened Sorting
  import opened MemoryGraphs
  import opened PathSearch

  // ----- reference notion: hop distance over a list of usable edges

  ghost function Successors(edges: seq<Edge>, from: set<Id>): set<Id> {
    set e | e in edges && e.from in from :: e.to
  }

  /** The nodes at the end of some walk of at most k hops from s. */
  ghost function Reach(edges: seq<Edge>, s: Id, k: nat): set<Id> {
    if k == 0 then {s} else Reach(edges, s, k - 1) + Successors(edges, Reach(edges, s, k - 1))
  }

  /** v is k hops from s and no fewer. */
  ghost predicate Distance(edges: seq<Edge>, s: Id, v: Id, k: nat) {
    v in Reach(edges, s, k) && (k > 0 ==> v !in Reach(edges, s, k - 1))
  }

  lemma {:induction false} ReachGrows(edges: seq<Edge>, s: Id, j: nat, k: nat)
    requires j <= k
    ensures Reach(edges, s, j) <= Reach(edges, s, k)
    decreases k
  {
    if j < k {
      ReachGrows(edges, s, j, k - 1);
    }
  }

  lemma DistanceUnique(edges: seq<Edge>, s: Id, v: Id, j: nat, k: nat)
    requires Distance(edges, s, v, j) && Distance(edges, s, v, k)
    ensures j == k
  {
    if j < k {
      ReachGrows(edges, s, j, k - 1);
    } else if k < j {
      ReachGrows(edges, s, k, j - 1);
    }
  }

  /** dist is the hop distance from s, cut off at depth. */
  ghost predicate IsHopMap(edges: seq<Edge>, s: Id, depth: nat, dist: map<Id, nat>) {
    && (forall v :: v in dist <==> v in Reach(edges, s, depth))
    && (forall v :: v in dist ==> Distance(edges, s, v, dist[v]))
  }

  // ----- the loop invariant

  function Bound(depth: int): nat { if depth > 0 then depth else 0 }

  ghost predicate Expanded(edges: seq<Edge>, dist: map<Id, nat>, v: Id)
    requires v in dist
  {
    forall e :: e in edges && e.from == v ==> e.to in dist && dist[e.to] <= dist[v] + 1
  }

  ghost predicate Reached(edges: seq<Edge>, s: Id, dist: map<Id, nat>) {
    s in dist && dist[s] == 0 && forall v {:trigger Reach(edges, s, dist[v])} :: v in dist ==> v in Reach(edges, s, dist[v])
  }

  // Distances in the queue rise by at most one; busy is the node being expanded, if any.
  ghost predicate Layered(depth: nat, dist: map<Id, nat>, q: seq<Id>, busy: Option<Id>) {
    && (forall v :: v in dist ==> dist[v] <= depth)
    && (forall v :: v in q ==> v in dist)
    && (forall i, j :: 0 <= i < j < |q| ==> dist[q[i]] <= dist[q[j]])
    && (q != [] ==> forall v :: v in dist ==> dist[v] <= dist[q[0]] + 1)
    && (busy.Some? ==> busy.value in dist && dist[busy.value] < depth
                       && (q != [] ==> dist[busy.value] <= dist[q[0]])
                       && (forall v :: v in dist ==> dist[v] <= dist[busy.value] + 1))
  }

  ghost predicate Covered(edges: seq<Edge>, depth: nat, dist: map<Id, nat>, q: seq<Id>, busy: Option<Id>) {
    forall v :: v in dist && v !in q && busy != Some(v) && dist[v] < depth ==> Expanded(edges, dist, v)
  }

  lemma DiscoverReached(edges: seq<Edge>, s: Id, dist: map<Id, nat>, e: Edge)
    requires Reached(edges, s, dist) && e in edges && e.from in dist && e.to !in dist
    ensures Reached(edges, s, dist[e.to := dist[e.from] + 1])
  {
    assert e.to in Successors(edges, Reach(edges, s, dist[e.from]));
  }

  lemma DiscoverCovered(edges: seq<Edge>, depth: nat, dist: map<Id, nat>, q: seq<Id>, e: Edge)
    requires Covered(edges, depth, dist, q, Some(e.from)) && e.from in dist && e.to !in dist
    ensures Covered(edges, depth, dist[e.to := dist[e.from] + 1], q + [e.to], Some(e.from))
    ensures dist[e.from] + 1 >= depth ==> Covered(edges, depth, dist[e.to := dist[e.from] + 1], q, Some(e.from))
  {
    var dist' := dist[e.to := dist[e.from] + 1];
    assert e.to in q + [e.to];
    forall v | v in dist && Expanded(edges, dist, v) ensures Expanded(edges, dist', v) {
    }
  }

  lemma DiscoverLayered(depth: nat, dist: map<Id, nat>, q: seq<Id>, cur: Id, v: Id)
    requires Layered(depth, dist, q, Some(cur)) && v !in dist
    ensures Layered(depth, dist[v := dist[cur] + 1], q + [v], Some(cur))
    ensures Layered(depth, dist[v := dist[cur] + 1], q, Some(cur))
  {
    assert forall u :: u in q + [v] ==> u in q || u == v;
  }

  lemma Pop(edges: seq<Edge>, depth: nat, dist: map<Id, nat>, q: seq<Id>)
    requires q != [] && Layered(depth, dist, q, None) && Covered(edges, depth, dist, q, None)
    ensures var busy := if dist[q[0]] < depth then Some(q[0]) else None;
      Layered(depth, dist, q[1..], busy) && Covered(edges, depth, dist, q[1..], busy)
  {
    assert forall v :: v in q <==> v == q[0] || v in q[1..];
  }

  /** With the queue empty, dist is exactly the distance function cut off at depth. */
  lemma Finished(edges: seq<Edge>, s: Id, depth: nat, dist: map<Id, nat>)
    requires Reached(edges, s, dist) && Layered(depth, dist, [], None) && Covered(edges, depth, dist, [], None)
    ensures IsHopMap(edges, s, depth, dist)
  {
    ReachedWithin(edges, s, depth, dist, depth);
    forall v | v in dist ensures v in Reach(edges, s, depth) && Distance(edges, s, v, dist[v]) {
      ReachGrows(edges, s, dist[v], depth);
      if dist[v] > 0 {
        ReachedWithin(edges, s, depth, dist, dist[v] - 1);
      }
    }
  }

  lemma {:induction false} ReachedWithin(edges: seq<Edge>, s: Id, depth: nat, dist: map<Id, nat>, k: nat)
    requires s in dist && dist[s] == 0 && Covered(edges, depth, dist, [], None) && k <= depth
    ensures forall v :: v in Reach(edges, s, k) ==> v in dist && dist[v] <= k
  {
    if k > 0 {
      ReachedWithin(edges, s, depth, dist, k - 1);
      var before := Reach(edges, s, k - 1);
      forall v | v in Successors(edges, before) ensures v in dist && dist[v] <= k {
        var e :| e in edges && e.from in before && e.to == v;
        assert Expanded(edges, dist, e.from);
      }
    }
  }

  function Targets(edges: seq<Edge>): set<Id> {
    set e | e in edges :: e.to
  }

  /** The discovery order lists the keys of dist once each, nearest first. */
  ghost predicate InOrder(dist: map<Id, nat>, order: seq<Id>) {
    && Distinct(order) && (forall v :: v in order <==> v in dist)
    && (forall i, j :: 0 <= i < j < |order| ==> dist[order[i]] <= dist[order[j]])
  }

  lemma OrderGrows(dist: map<Id, nat>, order: seq<Id>, v: Id, k: nat)
    requires InOrder(dist, order) && v !in dist && forall u :: u in dist ==> dist[u] <= k
    ensures InOrder(dist[v := k], order + [v])
  {
    DistinctAppend(order, [v]);
  }

  // ----- one expansion, one turn and the whole run of the loop

  datatype Frontier = Frontier(dist: map<Id, nat>, q: seq<Id>, order: seq<Id>)

  ghost predicate Known(f: Frontier) {
    forall v :: v in f.q ==> v in f.dist
  }

  // Nodes at the depth limit are queued by two of the loops (leaves) but not by the third.
  datatype Mode = Mode(depth: int, leaves: bool)

  function Seen(m: Mode, f: Frontier, e: Edge): Frontier
    requires e.from in f.dist
  {
    var k := f.dist[e.from] + 1;
    if e.to in f.dist then f
    else Frontier(f.dist[e.to := k], if m.leaves || k < m.depth then f.q + [e.to] else f.q, f.order + [e.to])
  }

  function SeenAll(m: Mode, f: Frontier, cur: Id, out: seq<Edge>): (r: Frontier)
    requires cur in f.dist && (forall e :: e in out ==> e.from == cur)
    ensures f.dist.Keys <= r.dist.Keys <= f.dist.Keys + Targets(out)
    ensures r.dist.Keys == f.dist.Keys ==> r == f
    ensures Known(f) ==> Known(r)
    ensures forall e :: e in out ==> e.to in r.dist
    ensures r.dist[cur] == f.dist[cur]
  {
    if out == [] then f
    else
      var g := SeenAll(m, f, cur, out[..|out| - 1]);
      assert out == out[..|out| - 1] + [out[|out| - 1]];
      Seen(m, g, out[|out| - 1])
  }

  lemma SeenReached(m: Mode, edges: seq<Edge>, s: Id, f: Frontier, e: Edge)
    requires Reached(edges, s, f.dist) && e in edges && e.from in f.dist
    ensures Reached(edges, s, Seen(m, f, e).dist)
  {
    if e.to !in f.dist {
      DiscoverReached(edges, s, f.dist, e);
    }
  }

  lemma {:induction false} SeenAllReached(m: Mode, edges: seq<Edge>, s: Id, f: Frontier, cur: Id, out: seq<Edge>)
    requires Reached(edges, s, f.dist) && cur in f.dist && (forall e :: e in out ==> e in edges && e.from == cur)
    ensures Reached(edges, s, SeenAll(m, f, cur, out).dist)
  {
    if out != [] {
      var e := out[|out| - 1];
      SeenAllReached(m, edges, s, f, cur, out[..|out| - 1]);
      assert e in edges && e.from == cur;
      SeenReached(m, edges, s, SeenAll(m, f, cur, out[..|out| - 1]), e);
    }
  }

  lemma SeenLayered(m: Mode, f: Frontier, e: Edge)
    requires e.from in f.dist && Layered(Bound(m.depth), f.dist, f.q, Some(e.from))
    ensures var g := Seen(m, f, e); Layered(Bound(m.depth), g.dist, g.q, Some(e.from))
  {
    if e.to !in f.dist {
      DiscoverLayered(Bound(m.depth), f.dist, f.q, e.from, e.to);
    }
  }

  lemma {:induction false} SeenAllLayered(m: Mode, f: Frontier, cur: Id, out: seq<Edge>)
    requires Layered(Bound(m.depth), f.dist, f.q, Some(cur)) && (forall e :: e in out ==> e.from == cur)
    ensures var g := SeenAll(m, f, cur, out); Layered(Bound(m.depth), g.dist, g.q, Some(cur))
  {
    if out != [] {
      SeenAllLayered(m, f, cur, out[..|out| - 1]);
      SeenLayered(m, SeenAll(m, f, cur, out[..|out| - 1]), out[|out| - 1]);
    }
  }

  lemma {:induction false} SeenAllCovered(m: Mode, edges: seq<Edge>, f: Frontier, cur: Id, out: seq<Edge>)
    requires Covered(edges, Bound(m.depth), f.dist, f.q, Some(cur)) && cur in f.dist
    requires forall e :: e in out ==> e.from == cur
    ensures var g := SeenAll(m, f, cur, out); Covered(edges, Bound(m.depth), g.dist, g.q, Some(cur))
  {
    if out != [] {
      var g, e := SeenAll(m, f, cur, out[..|out| - 1]), out[|out| - 1];
      SeenAllCovered(m, edges, f, cur, out[..|out| - 1]);
      if e.to !in g.dist {
        DiscoverCovered(edges, Bound(m.depth), g.dist, g.q, e);
      }
    }
  }

  lemma {:induction false} SeenAllInOrder(m: Mode, f: Frontier, cur: Id, out: seq<Edge>)
    requires InOrder(f.dist, f.order) && cur in f.dist && (forall v :: v in f.dist ==> f.dist[v] <= f.dist[cur] + 1)
    requires forall e :: e in out ==> e.from == cur
    ensures var g := SeenAll(m, f, cur, out);
      InOrder(g.dist, g.order) && (forall v :: v in g.dist ==> g.dist[v] <= f.dist[cur] + 1)
  {
    if out != [] {
      var g, e := SeenAll(m, f, cur, out[..|out| - 1]), out[|out| - 1];
      SeenAllInOrder(m, f, cur, out[..|out| - 1]);
      if e.to !in g.dist {
        OrderGrows(g.dist, g.order, e.to, g.dist[cur] + 1);
      }
    }
  }

  lemma SeenNew(m: Mode, dist: map<Id, nat>, q: seq<Id>, order: seq<Id>, cur: Id, e: Edge)
    requires cur in dist && e.from == cur
    ensures Seen(m, Frontier(dist, q, order), e)
         == if e.to in dist then Frontier(dist, q, order)
            else Frontier(dist[e.to := dist[cur] + 1], if m.leaves || dist[cur] + 1 < m.depth then q + [e.to] else q, order + [e.to])
  {
  }

  lemma SeenPrefix(m: Mode, f: Frontier, cur: Id, out: seq<Edge>, i: nat)
    requires cur in f.dist && i < |out| && (forall e :: e in out ==> e.from == cur)
    ensures out[i].from == cur
    ensures SeenAll(m, f, cur, out[..i + 1]) == Seen(m, SeenAll(m, f, cur, out[..i]), out[i])
  {
    assert out[..i + 1][..i] == out[..i];
  }

  /** One turn of the loop: take the front node and, above the depth limit, follow its edges. */
  function Turn(edges: seq<Edge>, m: Mode, f: Frontier): (g: Frontier)
    requires f.q != [] && Known(f)
    ensures Known(g)
    ensures if g.dist.Keys == f.dist.Keys then |g.q| < |f.q|
            else Targets(edges) - g.dist.Keys < Targets(edges) - f.dist.Keys
  {
    var popped := f.(q := f.q[1..]);
    if f.dist[f.q[0]] >= m.depth then popped
    else
      var out := Outgoing(edges, f.q[0]);
      KeysGrow(edges, f.dist.Keys, SeenAll(m, popped, f.q[0], out).dist.Keys, out);
      SeenAll(m, popped, f.q[0], out)
  }

  lemma KeysGrow(edges: seq<Edge>, keys: set<Id>, keys': set<Id>, out: seq<Edge>)
    requires keys <= keys' <= keys + Targets(out) && (forall e :: e in out ==> e in edges)
    ensures keys' == keys || Targets(edges) - keys' < Targets(edges) - keys
  {
    if keys' != keys {
      var v :| v in keys' && v !in keys;
      assert v in Targets(edges) - keys;
    }
  }

  function Run(edges: seq<Edge>, m: Mode, f: Frontier): Frontier
    requires Known(f)
    decreases Targets(edges) - f.dist.Keys, |f.q|
  {
    if f.q == [] then f else Run(edges, m, Turn(edges, m, f))
  }

  lemma TurnReached(edges: seq<Edge>, s: Id, m: Mode, f: Frontier)
    requires f.q != [] && Known(f) && Reached(edges, s, f.dist)
    ensures Reached(edges, s, Turn(edges, m, f).dist)
  {
    if f.dist[f.q[0]] < m.depth {
      SeenAllReached(m, edges, s, f.(q := f.q[1..]), f.q[0], Outgoing(edges, f.q[0]));
    }
  }

  lemma TurnSweeps(edges: seq<Edge>, m: Mode, f: Frontier)
    requires f.q != [] && Layered(Bound(m.depth), f.dist, f.q, None) && Covered(edges, Bound(m.depth), f.dist, f.q, None)
    ensures var g := Turn(edges, m, f);
      Layered(Bound(m.depth), g.dist, g.q, None) && Covered(edges, Bound(m.depth), g.dist, g.q, None)
  {
    var popped, cur := f.(q := f.q[1..]), f.q[0];
    Pop(edges, Bound(m.depth), f.dist, f.q);
    if f.dist[cur] < m.depth {
      var out := Outgoing(edges, cur);
      var g := SeenAll(m, popped, cur, out);
      SeenAllLayered(m, popped, cur, out);
      SeenAllCovered(m, edges, popped, cur, out);
      assert Expanded(edges, g.dist, cur);
    }
  }

  lemma TurnInOrder(edges: seq<Edge>, m: Mode, f: Frontier)
    requires f.q != [] && Layered(Bound(m.depth), f.dist, f.q, None) && InOrder(f.dist, f.order)
    ensures var g := Turn(edges, m, f); InOrder(g.dist, g.order)
  {
    if f.dist[f.q[0]] < m.depth {
      SeenAllInOrder(m, f.(q := f.q[1..]), f.q[0], Outgoing(edges, f.q[0]));
    }
  }

  lemma {:induction false} RunExact(edges: seq<Edge>, s: Id, m: Mode, f: Frontier)
    requires Known(f) && Reached(edges, s, f.dist) && InOrder(f.dist, f.order)
    requires Layered(Bound(m.depth), f.dist, f.q, None) && Covered(edges, Bound(m.depth), f.dist, f.q, None)
    ensures var g := Run(edges, m, f); IsHopMap(edges, s, Bound(m.depth), g.dist) && InOrder(g.dist, g.order)
    decreases Targets(edges) - f.dist.Keys, |f.q|
  {
    if f.q == [] {
      Finished(edges, s, Bound(m.depth), f.dist);
    } else {
      TurnReached(edges, s, m, f);
      TurnSweeps(edges, m, f);
      TurnInOrder(edges, m, f);
      RunExact(edges, s, m, Turn(edges, m, f));
    }
  }

  /** The shared loop of rank_memories_by_graph and related_entities. */
  method HopDistances(graph: MemoryGraph, start: Id, depth: int) returns (dist: map<Id, nat>, order: seq<Id>)
    ensures IsHopMap(graph.edges, start, Bound(depth), dist)
    ensures InOrder(dist, order)
  {
    ghost var edges := graph.edges;
    ghost var initial := Frontier(map[start := 0], [start], [start]);
    ghost var m := Mode(depth, true);
    RunExact(edges, start, m, initial);
    dist, order := map[start := 0], [start];
    var q := [start];
    while q != []
      invariant Known(Frontier(dist, q, order))
      invariant Run(edges, m, Frontier(dist, q, order)) == Run(edges, m, initial)
      decreases Targets(edges) - dist.Keys, |q|
    {
      ghost var f := Frontier(dist, q, order);
      var cur := q[0];
      q := q[1..];
      if dist[cur] >= depth {
        continue;
      }
      ghost var popped := Frontier(dist, q, order);
      var out := graph.GetEdges(Some(cur), None, None);
      for i := 0 to |out|
        invariant Frontier(dist, q, order) == SeenAll(m, popped, cur, out[..i])
      {
        SeenPrefix(m, popped, cur, out, i);
        SeenNew(m, dist, q, order, cur, out[i]);
        if out[i].to !in dist {
          dist, q, order := dist[out[i].to := dist[cur] + 1], q + [out[i].to], order + [out[i].to];
        }
      }
      assert out[..|out|] == out;
      assert Frontier(dist, q, order) == Turn(edges, m, f);
    }
  }
}
