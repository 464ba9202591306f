/**
 The graph queries built on the two searches: the shortest path and the three
 depth-bounded neighbourhood queries.
 */
module GraphQueries {
  import opened Common
  import opened Sorting
  import opened MemoryGraphs
  import opened PathSearch
  import opened HopSearch
  import opened Reals

  // ----- a shortest walk is simple

  lemma Predecessor(edges: seq<Edge>, s: Id, v: Id, k: nat) returns (e: Edge)
    requires Distance(edges, s, v, k) && k > 0
    ensures e in edges && e.to == v && Distance(edges, s, e.from, k - 1)
  {
    var near := Reach(edges, s, k - 1);
    assert v in Successors(edges, near);
    e :| e in edges && e.from in near && e.to == v;
    assert k > 1 ==> v !in Successors(edges, Reach(edges, s, k - 2));
  }

  lemma WalkExtends(edges: seq<Edge>, s: Id, p: seq<Edge>, e: Edge)
    requires Walk(edges, s, p) && e in edges && e.from == EndOf(s, p)
    ensures Walk(edges, s, p + [e]) && Nodes(s, p + [e]) == Nodes(s, p) + [e.to]
  {
    assert (p + [e])[..|p|] == p;
    assert Nodes(s, p)[|p|] == EndOf(s, p);
  }

  /** A node at distance k ends a walk of k hops that never leaves its neighbourhood and never revisits. */
  lemma {:induction false} ShortestWalk(edges: seq<Edge>, s: Id, v: Id, k: nat) returns (p: seq<Edge>)
    requires Distance(edges, s, v, k)
    ensures |p| == k && Walk(edges, s, p) && EndOf(s, p) == v
    ensures Distinct(Nodes(s, p)) && forall x :: x in Nodes(s, p) ==> x in Reach(edges, s, k)
    decreases k
  {
    if k == 0 {
      p := [];
    } else {
      var e := Predecessor(edges, s, v, k);
      var p' := ShortestWalk(edges, s, e.from, k - 1);
      WalkExtends(edges, s, p', e);
      DistinctAppend(Nodes(s, p'), [v]);
      p := p' + [e];
    }
  }

  lemma ShortestIsSimple(edges: seq<Edge>, s: Id, v: Id, k: nat) returns (p: seq<Edge>)
    requires Distance(edges, s, v, k) && k > 0
    ensures |p| == k && SimplePath(edges, s, v, p)
  {
    p := ShortestWalk(edges, s, v, k);
  }

  lemma {:induction false} WalkReaches(edges: seq<Edge>, s: Id, p: seq<Edge>)
    requires Walk(edges, s, p)
    ensures EndOf(s, p) in Reach(edges, s, |p|)
  {
    if p != [] {
      var p', e := p[..|p| - 1], p[|p| - 1];
      PrefixNodes(s, p', p);
      assert e.from == Nodes(s, p)[|p| - 1] == EndOf(s, p');
      WalkReaches(edges, s, p');
      assert e.to in Successors(edges, Reach(edges, s, |p| - 1));
    }
  }

  /** Hop distance and simple paths agree: the distance is the least number of hops. */
  lemma DistanceIsShortestSimplePath(edges: seq<Edge>, s: Id, v: Id, k: nat)
    requires k > 0
    ensures Distance(edges, s, v, k)
       <==> s != v && (exists p :: SimplePath(edges, s, v, p) && |p| == k)
            && (forall p :: SimplePath(edges, s, v, p) ==> k <= |p|)
  {
    if Distance(edges, s, v, k) {
      var p := ShortestIsSimple(edges, s, v, k);
      ReachGrows(edges, s, 0, k - 1);
      forall q | SimplePath(edges, s, v, q) ensures k <= |q| {
        WalkReaches(edges, s, q);
        if |q| < k {
          ReachGrows(edges, s, |q|, k - 1);
        }
      }
    } else if s != v {
      forall p | SimplePath(edges, s, v, p) && |p| == k ensures exists q :: SimplePath(edges, s, v, q) && |q| < k {
        WalkReaches(edges, s, p);
        var j := LeastReach(edges, s, v, k - 1);
        var q := ShortestIsSimple(edges, s, v, j);
      }
    }
  }

  lemma {:induction false} LeastReach(edges: seq<Edge>, s: Id, v: Id, k: nat) returns (j: nat)
    requires v in Reach(edges, s, k) && v != s
    ensures 0 < j <= k && Distance(edges, s, v, j)
  {
    if k > 0 && v in Reach(edges, s, k - 1) {
      j := LeastReach(edges, s, v, k - 1);
    } else {
      j := k;
    }
  }

  // ----- shortest_path

  /** Python's min over path length: the first of the shortest. */
  function FirstShortest(paths: seq<GraphPath>): (g: GraphPath)
    requires paths != []
    ensures g in paths && forall h :: h in paths ==> |g.nodes| <= |h.nodes|
  {
    if |paths| == 1 then paths[0]
    else
      var g := FirstShortest(paths[1..]);
      if |paths[0].nodes| <= |g.nodes| then paths[0] else g
  }

  lemma {:induction false} FirstShortestIsBest(paths: seq<GraphPath>)
    requires paths != [] && SortedBy(Before, paths)
    ensures var g := FirstShortest(paths);
      forall h :: h in paths && |h.nodes| == |g.nodes| ==> h.totalConfidence <= g.totalConfidence
  {
    if |paths| > 1 {
      FirstShortestIsBest(paths[1..]);
      var g := FirstShortest(paths);
      forall h | h in paths && |h.nodes| == |g.nodes| ensures h.totalConfidence <= g.totalConfidence {
        if h != paths[0] {
          var i :| 0 < i < |paths| && paths[i] == h;
          assert Before(paths[0], paths[i]);
        }
      }
    }
  }

  /** p has the fewest hops of all simple paths, and no such path of equal length is more confident. */
  ghost predicate BestPath(edges: seq<Edge>, from: Id, to: Id, p: seq<Edge>) {
    && SimplePath(edges, from, to, p)
    && (forall q :: SimplePath(edges, from, to, q) ==> |p| <= |q|)
    && (forall q :: SimplePath(edges, from, to, q) && |q| == |p| ==> Product(q) <= Product(p))
  }

  const DEFAULT_DEPTH := 4

  method ShortestPath(reasoner: GraphReasoner, from: Id, to: Id) returns (best: Option<GraphPath>)
    requires reasoner.graph.Valid()
    ensures best.Some? <==> (from in reasoner.graph.nodes
                             && exists p :: SimplePath(reasoner.graph.edges, from, to, p) && |p| <= 4)
    ensures best.Some? ==> exists p :: BestPath(reasoner.graph.edges, from, to, p) && best.value == Render(from, p)
    ensures forall k: nat :: from in reasoner.graph.nodes && 0 < k <= 4 && Distance(reasoner.graph.edges, from, to, k)
              ==> best.Some? && |best.value.relations| == k
  {
    var paths := reasoner.FindPaths(from, to, DEFAULT_DEPTH);
    if paths == [] {
      best := None;
      forall k: nat | from in reasoner.graph.nodes && 0 < k <= DEFAULT_DEPTH && Distance(reasoner.graph.edges, from, to, k)
        ensures false
      {
        var p := ShortestIsSimple(reasoner.graph.edges, from, to, k);
      }
    } else {
      best := Some(FirstShortest(paths));
      ghost var p := FirstIsBest(reasoner.graph.edges, from, to, paths);
      forall k: nat | 0 < k <= DEFAULT_DEPTH && Distance(reasoner.graph.edges, from, to, k) ensures |p| == k {
        DistanceIsShortestSimplePath(reasoner.graph.edges, from, to, k);
      }
    }
  }

  lemma FirstIsBest(edges: seq<Edge>, from: Id, to: Id, paths: seq<GraphPath>) returns (p: seq<Edge>)
    requires paths != [] && SortedBy(Before, paths) && ListsSimplePaths(edges, from, to, DEFAULT_DEPTH, paths)
    ensures BestPath(edges, from, to, p) && |p| <= DEFAULT_DEPTH && FirstShortest(paths) == Render(from, p)
  {
    var g := FirstShortest(paths);
    p :| SimplePath(edges, from, to, p) && |p| <= DEFAULT_DEPTH && g == Render(from, p);
    forall q | SimplePath(edges, from, to, q) ensures |p| <= |q| && (|q| == |p| ==> Product(q) <= Product(p)) {
      NoneBetter(edges, from, to, paths, p, q);
    }
  }

  lemma NoneBetter(edges: seq<Edge>, from: Id, to: Id, paths: seq<GraphPath>, p: seq<Edge>, q: seq<Edge>)
    requires paths != [] && SortedBy(Before, paths) && |p| <= DEFAULT_DEPTH && FirstShortest(paths) == Render(from, p)
    requires |q| <= DEFAULT_DEPTH ==> Render(from, q) in paths
    ensures |p| <= |q| && (|q| == |p| ==> Product(q) <= Product(p))
  {
    FirstShortestIsBest(paths);
    assert |Render(from, p).nodes| == |p| + 1 && |Render(from, q).nodes| == |q| + 1;
  }

  // ----- related_entities

  predicate NearerFirst(a: (Id, nat), b: (Id, nat)) { a.1 <= b.1 }

  method RelatedEntities(graph: MemoryGraph, node: Id, depth: int := 2) returns (result: seq<(Id, nat)>)
    ensures forall v, k: nat :: (v, k) in result <==>
      (v != node && v in graph.nodes && k <= Bound(depth) && Distance(graph.edges, node, v, k))
    ensures Distinct(result) && forall i, j :: 0 <= i < j < |result| ==> result[i].1 <= result[j].1
  {
    var dist, order := HopDistances(graph, node, depth);
    result := [];
    for i := 0 to |order|
      invariant forall v, k: nat :: (v, k) in result <==> v in order[..i] && v != node && v in graph.nodes && k == dist[v]
      invariant Distinct(result)
    {
      var v := order[i];
      assert order[..i + 1] == order[..i] + [v];
      if v != node && v in graph.nodes {
        assert v !in order[..i];
        DistinctAppend(result, [(v, dist[v])]);
        result := result + [(v, dist[v])];
      }
    }
    assert order[..|order|] == order;
    forall v, k: nat | k <= Bound(depth) && Distance(graph.edges, node, v, k) ensures v in dist && dist[v] == k {
      ReachGrows(graph.edges, node, k, Bound(depth));
      DistanceUnique(graph.edges, node, v, k, dist[v]);
    }
    forall v | v in dist ensures dist[v] <= Bound(depth) {
      DistanceWithin(graph.edges, node, v, dist[v], Bound(depth));
    }
    ghost var unsorted := result;
    SortIsSorted(NearerFirst, result);
    result := StableSort(NearerFirst, result);
    DistinctRearranged(result, unsorted);
  }

  lemma DistanceWithin(edges: seq<Edge>, s: Id, v: Id, k: nat, depth: nat)
    requires Distance(edges, s, v, k) && v in Reach(edges, s, depth)
    ensures k <= depth
  {
    if depth < k {
      ReachGrows(edges, s, depth, k - 1);
    }
  }

  // ----- rank_memories_by_graph

  /** The edge e credits memory m with the proximity of v, one of its ends. */
  ghost predicate Credits(edges: seq<Edge>, v: Id, e: Edge, m: int) {
    e in edges && (e.to == v || e.from == v) && m in e.sources
  }

  /** x is the best proximity decay^hop over the nodes of near whose edges mention m, and 0 if none beats it. */
  ghost predicate BestOver(edges: seq<Edge>, dist: map<Id, nat>, near: seq<Id>, decay: real, m: int, x: real) {
    && x >= 0.0
    && (forall v, e :: v in near && v in dist && Credits(edges, v, e, m) ==> Power(decay, dist[v]) <= x)
    && (x == 0.0 || exists v, e :: v in near && v in dist && Credits(edges, v, e, m) && x == Power(decay, dist[v]))
  }

  /** The same notion in terms of hop distance from the pivot alone. */
  ghost predicate ProximityScore(edges: seq<Edge>, pivot: Id, depth: nat, decay: real, m: int, x: real) {
    && x >= 0.0
    && (forall v, e, k: nat :: k <= depth && Distance(edges, pivot, v, k) && Credits(edges, v, e, m) ==> Power(decay, k) <= x)
    && (x == 0.0 || exists v, e, k: nat ::
          k <= depth && Distance(edges, pivot, v, k) && Credits(edges, v, e, m) && x == Power(decay, k))
  }

  lemma BestIsProximity(edges: seq<Edge>, pivot: Id, depth: nat, dist: map<Id, nat>, order: seq<Id>, decay: real, m: int, x: real)
    requires IsHopMap(edges, pivot, depth, dist) && InOrder(dist, order)
    requires BestOver(edges, dist, order, decay, m, x)
    ensures ProximityScore(edges, pivot, depth, decay, m, x)
  {
    forall v, e, k: nat | k <= depth && Distance(edges, pivot, v, k) && Credits(edges, v, e, m)
      ensures Power(decay, k) <= x
    {
      ReachGrows(edges, pivot, k, depth);
      DistanceUnique(edges, pivot, v, k, dist[v]);
    }
    if x != 0.0 {
      var v, e :| v in order && v in dist && Credits(edges, v, e, m) && x == Power(decay, dist[v]);
      DistanceWithin(edges, pivot, v, dist[v], depth);
    }
  }

  function Raise(scores: map<int, real>, sources: set<int>, x: real): map<int, real> {
    map m | m in scores :: if m in sources && x > scores[m] then x else scores[m]
  }

  function RaiseAll(scores: map<int, real>, es: seq<Edge>, x: real): (r: map<int, real>)
    ensures r.Keys == scores.Keys
  {
    if es == [] then scores else Raise(RaiseAll(scores, es[..|es| - 1], x), es[|es| - 1].sources, x)
  }

  lemma {:induction false} RaiseAllAt(scores: map<int, real>, es: seq<Edge>, x: real, m: int)
    requires m in scores
    ensures RaiseAll(scores, es, x)[m]
         == if x > scores[m] && (exists e :: e in es && m in e.sources) then x else scores[m]
  {
    if es != [] {
      RaiseAllAt(scores, es[..|es| - 1], x, m);
      assert es == es[..|es| - 1] + [es[|es| - 1]];
    }
  }

  predicate HigherFirst(a: (int, real), b: (int, real)) { a.1 >= b.1 }

  function Touching(edges: seq<Edge>, v: Id): seq<Edge> {
    Select(edges, None, None, Some(v)) + Select(edges, Some(v), None, None)
  }

  function ScoreAll(edges: seq<Edge>, dist: map<Id, nat>, near: seq<Id>, decay: real, scores: map<int, real>): (r: map<int, real>)
    requires forall v :: v in near ==> v in dist
    ensures r.Keys == scores.Keys
  {
    if near == [] then scores
    else
      var v := near[|near| - 1];
      RaiseAll(ScoreAll(edges, dist, near[..|near| - 1], decay, scores), Touching(edges, v), Power(decay, dist[v]))
  }

  lemma {:induction false} ScoreAllBest(edges: seq<Edge>, dist: map<Id, nat>, near: seq<Id>, decay: real,
                                        scores: map<int, real>, m: int)
    requires forall v :: v in near ==> v in dist
    requires m in scores && scores[m] == 0.0
    ensures BestOver(edges, dist, near, decay, m, ScoreAll(edges, dist, near, decay, scores)[m])
  {
    if near != [] {
      var before, v := near[..|near| - 1], near[|near| - 1];
      assert near == before + [v];
      ScoreAllBest(edges, dist, before, decay, scores, m);
      var earlier := ScoreAll(edges, dist, before, decay, scores);
      RaiseAllAt(earlier, Touching(edges, v), Power(decay, dist[v]), m);
      BestStep(edges, dist, before, v, decay, m, earlier[m]);
    }
  }

  lemma BestStep(edges: seq<Edge>, dist: map<Id, nat>, near: seq<Id>, v: Id, decay: real, m: int, x: real)
    requires v in dist && BestOver(edges, dist, near, decay, m, x)
    ensures var p := Power(decay, dist[v]);
      BestOver(edges, dist, near + [v], decay, m,
               if p > x && (exists e :: e in Touching(edges, v) && m in e.sources) then p else x)
  {
    assert forall e :: Credits(edges, v, e, m) <==> e in Touching(edges, v) && m in e.sources;
    assert v in near + [v];
    if x != 0.0 {
      var u, e :| u in near && u in dist && Credits(edges, u, e, m) && x == Power(decay, dist[u]);
      assert u in near + [v];
    }
  }

  function Pairs(ids: seq<int>, scores: map<int, real>): (r: seq<(int, real)>)
    requires forall i :: 0 <= i < |ids| ==> ids[i] in scores
    ensures |r| == |ids| && forall i :: 0 <= i < |ids| ==> r[i] == (ids[i], scores[ids[i]])
  {
    if ids == [] then [] else [(ids[0], scores[ids[0]])] + Pairs(ids[1..], scores)
  }

  function ZeroScores(ids: seq<int>): (r: map<int, real>)
    ensures forall i :: 0 <= i < |ids| ==> ids[i] in r && r[ids[i]] == 0.0
  {
    map m | m in ids :: 0.0
  }

  // The inner loops: every memory behind one of these edges scores at least x.
  method Credit(scores: map<int, real>, touching: seq<Edge>, x: real) returns (r: map<int, real>)
    ensures r == RaiseAll(scores, touching, x)
  {
    r := scores;
    for j := 0 to |touching|
      invariant r == RaiseAll(scores, touching[..j], x)
    {
      assert touching[..j + 1][..j] == touching[..j];
      r := Raise(r, touching[j].sources, x);
    }
    assert touching[..|touching|] == touching;
  }

  /** The keys of a dictionary filled from a list: its elements, repeats dropped. */
  function FirstOccurrences(ids: seq<int>): (keys: seq<int>)
    ensures Distinct(keys) && forall m :: m in keys <==> m in ids
  {
    if ids == [] then []
    else
      var keys, last := FirstOccurrences(ids[..|ids| - 1]), ids[|ids| - 1];
      assert ids == ids[..|ids| - 1] + [last];
      if last in keys then keys else keys + [last]
  }

  /** Each memory once, with the proximity of the nearest node any of whose edges mentions it. */
  method RankMemories(graph: MemoryGraph, memoryIds: seq<int>, pivot: Id, decay: real := 0.5, maxDepth: int := 3)
    returns (ranked: seq<(int, real)>)
    ensures |ranked| == |FirstOccurrences(memoryIds)| && forall i, j :: 0 <= i < j < |ranked| ==> ranked[i].1 >= ranked[j].1
    ensures forall m :: m in memoryIds ==>
      exists x :: (m, x) in ranked && ProximityScore(graph.edges, pivot, Bound(maxDepth), decay, m, x)
  {
    var ids := FirstOccurrences(memoryIds);
    var dist, near := HopDistances(graph, pivot, maxDepth);
    var initial := ZeroScores(ids);
    var scores := Accumulate(graph, dist, near, decay, initial);
    ranked := Ranked(graph.edges, pivot, Bound(maxDepth), dist, near, decay, ids, scores, initial);
  }

  // The loop over the nodes near the pivot.
  method Accumulate(graph: MemoryGraph, dist: map<Id, nat>, near: seq<Id>, decay: real, initial: map<int, real>)
    returns (scores: map<int, real>)
    requires forall v :: v in near ==> v in dist
    ensures scores == ScoreAll(graph.edges, dist, near, decay, initial)
  {
    scores := initial;
    for i := 0 to |near|
      invariant scores == ScoreAll(graph.edges, dist, near[..i], decay, initial)
    {
      var x := Power(decay, dist[near[i]]);
      var touching := graph.GetEdges(None, None, Some(near[i])) + graph.GetEdges(Some(near[i]), None, None);
      scores := Credit(scores, touching, x);
      assert near[..i + 1][..i] == near[..i];
    }
    assert near[..|near|] == near;
  }

  // Sorting the score dictionary; the contract restates what its entries mean.
  method Ranked(ghost edges: seq<Edge>, ghost pivot: Id, ghost depth: nat, ghost dist: map<Id, nat>, ghost order: seq<Id>,
                ghost decay: real, ids: seq<int>, scores: map<int, real>, ghost initial: map<int, real>)
    returns (ranked: seq<(int, real)>)
    requires IsHopMap(edges, pivot, depth, dist) && InOrder(dist, order)
    requires forall i :: 0 <= i < |ids| ==> ids[i] in initial && initial[ids[i]] == 0.0
    requires scores == ScoreAll(edges, dist, order, decay, initial)
    ensures SortedBy(HigherFirst, ranked) && |ranked| == |ids|
    ensures forall m :: m in ids ==> exists x :: (m, x) in ranked && ProximityScore(edges, pivot, depth, decay, m, x)
  {
    var pairs := Pairs(ids, scores);
    SortMembers(HigherFirst, pairs);
    SortIsSorted(HigherFirst, pairs);
    ranked := StableSort(HigherFirst, pairs);
    forall m | m in ids ensures exists x :: (m, x) in ranked && ProximityScore(edges, pivot, depth, decay, m, x) {
      ScoreAllBest(edges, dist, order, decay, initial, m);
      BestIsProximity(edges, pivot, depth, dist, order, decay, m, scores[m]);
      var i :| 0 <= i < |ids| && ids[i] == m;
      assert pairs[i] in pairs;
    }
  }

  // ----- infer_transitive

  predicate Follows(nodes: map<Id, string>, relation: string, minConf: real, e: Edge) {
    e.relation == relation && e.confidence >= minConf && e.to in nodes
  }

  /** The edges the transitive query may follow. */
  function Usable(nodes: map<Id, string>, relation: string, minConf: real, edges: seq<Edge>): (r: seq<Edge>)
    ensures forall e :: e in r <==> e in edges && Follows(nodes, relation, minConf, e)
  {
    if edges == [] then []
    else
      var rest := Usable(nodes, relation, minConf, edges[1..]);
      if Follows(nodes, relation, minConf, edges[0]) then [edges[0]] + rest else rest
  }

  lemma {:induction false} UsableAppend(nodes: map<Id, string>, relation: string, minConf: real, a: seq<Edge>, e: Edge)
    ensures Usable(nodes, relation, minConf, a + [e])
         == if Follows(nodes, relation, minConf, e) then Usable(nodes, relation, minConf, a) + [e]
            else Usable(nodes, relation, minConf, a)
  {
    if a == [] {
      assert [e][1..] == [];
    } else {
      UsableAppend(nodes, relation, minConf, a[1..], e);
      assert (a + [e])[1..] == a[1..] + [e];
    }
  }

  /** Usable are the edges of the relation that are sure enough and lead to a known node. */
  lemma UsableAre(nodes: map<Id, string>, relation: string, minConf: real, edges: seq<Edge>, e: Edge)
    ensures e in Usable(nodes, relation, minConf, edges) <==>
      e in edges && e.relation == relation && e.confidence >= minConf && e.to in nodes
  {
  }

  lemma {:induction false} UsableOutgoing(nodes: map<Id, string>, relation: string, minConf: real, edges: seq<Edge>, from: Id)
    ensures Usable(nodes, relation, minConf, Select(edges, Some(from), Some(relation), None))
         == Outgoing(Usable(nodes, relation, minConf, edges), from)
  {
    if edges != [] {
      var rest := Usable(nodes, relation, minConf, edges[1..]);
      var tail := Select(edges[1..], Some(from), Some(relation), None);
      UsableOutgoing(nodes, relation, minConf, edges[1..], from);
      assert ([edges[0]] + rest)[1..] == rest && ([edges[0]] + tail)[1..] == tail;
    }
  }

  /** The labels of the listed nodes, first occurrences only. */
  function Labels(nodes: map<Id, string>, ids: seq<Id>): (r: seq<string>)
    ensures Distinct(r)
    ensures forall l :: l in r <==> exists v :: v in ids && v in nodes && nodes[v] == l
  {
    if ids == [] then []
    else
      var before, v := Labels(nodes, ids[..|ids| - 1]), ids[|ids| - 1];
      assert ids == ids[..|ids| - 1] + [v];
      if v in nodes && nodes[v] !in before then before + [nodes[v]] else before
  }

  class CognitiveQueryEngine {
    const graph: MemoryGraph
    const minConf: real

    constructor (graph: MemoryGraph, minConf: real)
      ensures this.graph == graph && this.minConf == minConf
    {
      this.graph, this.minConf := graph, minConf;
    }

    /** The labels of the nodes reachable over usable edges, nearest first; a depth below one still looks one hop ahead. */
    method InferTransitive(start: Id, relation: string, depth: int := 2)
      returns (answer: seq<string>, ghost dist: map<Id, nat>, ghost order: seq<Id>)
      ensures start !in graph.nodes || relation !in RELATION_KINDS ==> answer == []
      ensures start in graph.nodes && relation in RELATION_KINDS ==>
        var usable := Usable(graph.nodes, relation, minConf, graph.edges);
        && IsHopMap(usable, start, AtLeastOne(depth), dist) && InOrder(dist, order) && order != [] && order[0] == start
        && answer == Labels(graph.nodes, order[1..])
        && forall l :: l in answer <==> exists v :: v != start && v in graph.nodes && graph.nodes[v] == l
                                         && v in Reach(usable, start, AtLeastOne(depth))
      ensures Distinct(answer)
    {
      if start !in graph.nodes || relation !in RELATION_KINDS {
        return [], map[], [];
      }
      ghost var usable := Usable(graph.nodes, relation, minConf, graph.edges);
      ghost var m := Mode(AtLeastOne(depth), false);
      order := [start];
      var visited: map<Id, nat>, q := map[start := 0], [start];
      answer := [];
      ghost var initial := Frontier(visited, q, order);
      while q != []
        invariant Leafless(Frontier(visited, q, order), start, depth)
        invariant order != [] && order[0] == start && answer == Labels(graph.nodes, order[1..])
        invariant Run(usable, m, Frontier(visited, q, order)) == Run(usable, m, initial)
        decreases Targets(usable) - visited.Keys, |q|
      {
        ghost var f := Frontier(visited, q, order);
        TurnLeafless(usable, start, depth, f);
        var cur := q[0];
        q := q[1..];
        if visited[cur] >= depth && cur != start {
          continue;
        }
        visited, q, order, answer := Expand(cur, relation, depth, visited, q, order, answer);
        UsableOutgoing(graph.nodes, relation, minConf, graph.edges, cur);
        assert Frontier(visited, q, order) == Turn(usable, m, f);
      }
      dist := visited;
      RunExact(usable, start, m, initial);
      Answered(usable, start, graph.nodes, m.depth, dist, order, answer);
    }

    // The body of the loop for one node.
    method Expand(cur: Id, relation: string, depth: int, dist: map<Id, nat>, q: seq<Id>, ghost order: seq<Id>, answer: seq<string>)
      returns (dist': map<Id, nat>, q': seq<Id>, ghost order': seq<Id>, answer': seq<string>)
      requires cur in dist && order != [] && answer == Labels(graph.nodes, order[1..])
      ensures var out := Usable(graph.nodes, relation, minConf, Select(graph.edges, Some(cur), Some(relation), None));
        (forall e :: e in out ==> e.from == cur)
        && Frontier(dist', q', order') == SeenAll(Mode(AtLeastOne(depth), false), Frontier(dist, q, order), cur, out)
      ensures order' != [] && order'[0] == order[0] && answer' == Labels(graph.nodes, order'[1..])
    {
      dist', q', order', answer' := dist, q, order, answer;
      ghost var m, f := Mode(AtLeastOne(depth), false), Frontier(dist, q, order);
      var out := graph.GetEdges(Some(cur), Some(relation), None);
      for i := 0 to |out|
        invariant Frontier(dist', q', order') == SeenAll(m, f, cur, Usable(graph.nodes, relation, minConf, out[..i]))
        invariant order' != [] && order'[0] == order[0] && answer' == Labels(graph.nodes, order'[1..])
      {
        var e := out[i];
        SeenUsable(m, f, cur, graph.nodes, relation, minConf, out, i);
        SeenNew(m, dist', q', order', cur, e);
        if e.confidence < minConf || e.to !in graph.nodes || e.to in dist' {
          continue;
        }
        dist' := dist'[e.to := dist'[cur] + 1];
        LabelsAppend(graph.nodes, order', e.to);
        order' := order' + [e.to];
        if graph.nodes[e.to] !in answer' {
          answer' := answer' + [graph.nodes[e.to]];
        }
        if dist'[e.to] < depth {
          q' := q' + [e.to];
        }
      }
      assert out[..|out|] == out;
    }
  }

  function AtLeastOne(depth: int): nat { if depth > 1 then depth else 1 }

  /** The search goes further than its depth says exactly when the depth is below one and an edge leaves the start. */
  lemma LooksAheadIff(edges: seq<Edge>, s: Id, depth: int)
    ensures Reach(edges, s, AtLeastOne(depth)) != Reach(edges, s, Bound(depth))
       <==> depth < 1 && exists e :: e in edges && e.from == s && e.to != s
  {
    if depth < 1 {
      assert Reach(edges, s, 1) == {s} + Successors(edges, {s});
      if e :| e in edges && e.from == s && e.to != s {
        assert e.to in Reach(edges, s, 1);
      } else {
        assert Reach(edges, s, 1) == {s};
      }
    }
  }

  lemma LooksAhead()
    ensures var edges := [Edge("a", "uses", "b", 1.0, {})];
      "b" in Reach(edges, "a", AtLeastOne(0)) && "b" !in Reach(edges, "a", 0)
  {
    var e := Edge("a", "uses", "b", 1.0, {});
    assert e in [e];
    assert Reach([e], "a", 1) == {"a"} + Successors([e], {"a"});
  }

  lemma LabelsAppend(nodes: map<Id, string>, order: seq<Id>, v: Id)
    requires order != [] && v in nodes
    ensures var before := Labels(nodes, order[1..]);
      Labels(nodes, (order + [v])[1..]) == if nodes[v] in before then before else before + [nodes[v]]
  {
    assert (order + [v])[1..] == order[1..] + [v];
    assert (order[1..] + [v])[..|order| - 1] == order[1..];
  }

  lemma SeenUsable(m: Mode, f: Frontier, cur: Id, nodes: map<Id, string>, relation: string, minConf: real,
                   out: seq<Edge>, i: nat)
    requires cur in f.dist && i < |out|
    requires forall e :: e in out ==> e.from == cur && e.relation == relation
    ensures out[i].from == cur
    ensures var before := SeenAll(m, f, cur, Usable(nodes, relation, minConf, out[..i]));
      SeenAll(m, f, cur, Usable(nodes, relation, minConf, out[..i + 1]))
      == if out[i].confidence < minConf || out[i].to !in nodes then before else Seen(m, before, out[i])
  {
    var e, es := out[i], Usable(nodes, relation, minConf, out[..i]);
    assert out[..i + 1] == out[..i] + [e];
    UsableAppend(nodes, relation, minConf, out[..i], e);
    if Follows(nodes, relation, minConf, e) {
      assert (es + [e])[..|es| + 1] == es + [e] && (es + [e])[..|es|] == es;
      SeenPrefix(m, f, cur, es + [e], |es|);
    }
  }

  /** Only the start may be queued at or beyond the depth limit. */
  ghost predicate Leafless(f: Frontier, start: Id, depth: int) {
    Known(f) && start in f.dist && f.dist[start] == 0 && forall v :: v in f.q ==> v == start || f.dist[v] < depth
  }

  lemma TurnLeafless(edges: seq<Edge>, start: Id, depth: int, f: Frontier)
    requires f.q != [] && Leafless(f, start, depth)
    ensures Leafless(Turn(edges, Mode(AtLeastOne(depth), false), f), start, depth)
    ensures f.dist[f.q[0]] < AtLeastOne(depth) && (f.dist[f.q[0]] >= depth ==> f.q[0] == start)
  {
    assert f.q[0] in f.q;
    SeenAllLeafless(f.(q := f.q[1..]), f.q[0], Outgoing(edges, f.q[0]), start, depth);
  }

  lemma {:induction false} SeenAllLeafless(f: Frontier, cur: Id, out: seq<Edge>, start: Id, depth: int)
    requires Leafless(f, start, depth) && cur in f.dist && (forall e :: e in out ==> e.from == cur)
    ensures Leafless(SeenAll(Mode(AtLeastOne(depth), false), f, cur, out), start, depth)
  {
    if out != [] {
      SeenAllLeafless(f, cur, out[..|out| - 1], start, depth);
    }
  }

  lemma Answered(usable: seq<Edge>, start: Id, nodes: map<Id, string>, depth: nat, dist: map<Id, nat>, order: seq<Id>,
                 answer: seq<string>)
    requires IsHopMap(usable, start, depth, dist) && InOrder(dist, order)
    requires order != [] && order[0] == start && answer == Labels(nodes, order[1..])
    ensures forall l :: l in answer <==>
      exists v :: v != start && v in nodes && nodes[v] == l && v in Reach(usable, start, depth)
  {
    assert forall v :: v in order[1..] <==> v in order && v != start;
  }
}
