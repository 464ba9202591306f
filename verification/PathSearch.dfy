/**
 Path enumeration of core/graph_reasoner.py: a queue of partial paths is expanded until
 it is empty. The reference notion is a simple path, a sequence of stored edges.
 */
module PathSearch {
  import opened Common
  import opened Sorting
  import opened MemoryGraphs

  datatype GraphPath = GraphPath(nodes: seq<Id>, relations: seq<string>, totalConfidence: real)

  datatype Entry = Entry(cur: Id, nodes: seq<Id>, rels: seq<string>, conf: real, visited: set<Id>)

  // ----- paths as edge sequences

  function EndOf(from: Id, p: seq<Edge>): Id {
    if p == [] then from else p[|p| - 1].to
  }

  function Nodes(from: Id, p: seq<Edge>): (r: seq<Id>)
    ensures |r| == |p| + 1 && r[0] == from && r[|p|] == EndOf(from, p)
    ensures forall i :: 0 <= i < |p| ==> r[i + 1] == p[i].to
  {
    if p == [] then [from] else Nodes(from, p[..|p| - 1]) + [p[|p| - 1].to]
  }

  function Relations(p: seq<Edge>): (r: seq<string>)
    ensures |r| == |p| && forall i :: 0 <= i < |p| ==> r[i] == p[i].relation
  {
    if p == [] then [] else Relations(p[..|p| - 1]) + [p[|p| - 1].relation]
  }

  function Product(p: seq<Edge>): real {
    if p == [] then 1.0 else Product(p[..|p| - 1]) * p[|p| - 1].confidence
  }

  /** The confidence of a path is the product over its edges, however it is cut. */
  lemma {:induction false} ProductConcat(p: seq<Edge>, q: seq<Edge>)
    ensures Product(p + q) == Product(p) * Product(q)
  {
    if q == [] {
      assert p + q == p;
    } else {
      var n := |q| - 1;
      ProductConcat(p, q[..n]);
      assert (p + q)[..|p| + n] == p + q[..n];
      var a, b, c := Product(p), Product(q[..n]), q[n].confidence;
      assert a * b * c == a * (b * c);
    }
  }

  lemma ProductOne(e: Edge)
    ensures Product([e]) == e.confidence && Product([]) == 1.0
  {
    assert [e][..0] == [];
  }

  ghost predicate Walk(edges: seq<Edge>, from: Id, p: seq<Edge>) {
    forall i :: 0 <= i < |p| ==> p[i] in edges && p[i].from == Nodes(from, p)[i]
  }

  ghost predicate SimplePath(edges: seq<Edge>, from: Id, to: Id, p: seq<Edge>) {
    p != [] && Walk(edges, from, p) && Distinct(Nodes(from, p)) && EndOf(from, p) == to
  }

  function Render(from: Id, p: seq<Edge>): GraphPath {
    GraphPath(Nodes(from, p), Relations(p), Product(p))
  }

  function EntryOf(from: Id, p: seq<Edge>): Entry {
    Entry(EndOf(from, p), Nodes(from, p), Relations(p), Product(p), set x | x in Nodes(from, p))
  }

  lemma ExtendEntry(from: Id, p: seq<Edge>, e: Edge)
    ensures EntryOf(from, p + [e]) == Step(EntryOf(from, p), e)
  {
    assert (p + [e])[..|p|] == p;
    assert EntryOf(from, p + [e]).visited == EntryOf(from, p).visited + {e.to};
  }

  /** Where no two edges share a key, a rendered path determines its edges. */
  lemma RenderInjective(edges: seq<Edge>, from: Id, p: seq<Edge>, q: seq<Edge>)
    requires DistinctKeys(edges) && Walk(edges, from, p) && Walk(edges, from, q)
    requires Render(from, p) == Render(from, q)
    ensures p == q
  {
    assert |p| == |Relations(p)| == |q|;
    forall i | 0 <= i < |p| ensures p[i] == q[i] {
      assert Relations(p)[i] == Relations(q)[i];
      assert Nodes(from, p)[i] == Nodes(from, q)[i] && Nodes(from, p)[i + 1] == Nodes(from, q)[i + 1];
      assert p[i].Key() == q[i].Key();
    }
  }

  // ----- the search tree below a partial path

  /** The paths reported below p when at most depth hops are allowed. */
  ghost function Tree(edges: seq<Edge>, from: Id, to: Id, depth: int, p: seq<Edge>): seq<seq<Edge>>
    decreases if |p| <= depth then depth - |p| else 0, |edges| + 1
  {
    if EndOf(from, p) == to && p != [] then [p]
    else if |p| >= depth then []
    else
      SelectShrinks(edges, EndOf(from, p));
      Branches(edges, from, to, depth, p, Outgoing(edges, EndOf(from, p)))
  }

  ghost function Branches(edges: seq<Edge>, from: Id, to: Id, depth: int, p: seq<Edge>, out: seq<Edge>): seq<seq<Edge>>
    requires |p| < depth
    decreases depth - |p|, |out|
  {
    if out == [] then [] else
    (if out[0].to in Nodes(from, p) then [] else Tree(edges, from, to, depth, p + [out[0]]))
    + Branches(edges, from, to, depth, p, out[1..])
  }

  lemma {:induction false} SelectShrinks(edges: seq<Edge>, from: Id)
    ensures |Outgoing(edges, from)| <= |edges|
  {
    if edges != [] {
      SelectShrinks(edges[1..], from);
    }
  }

  ghost function Forest(edges: seq<Edge>, from: Id, to: Id, depth: int, ps: seq<seq<Edge>>): seq<seq<Edge>> {
    if ps == [] then [] else Tree(edges, from, to, depth, ps[0]) + Forest(edges, from, to, depth, ps[1..])
  }

  // Number of partial paths the loop will take from the queue for p and below it.
  ghost function Work(edges: seq<Edge>, from: Id, to: Id, depth: int, p: seq<Edge>): nat
    decreases if |p| <= depth then depth - |p| else 0, |edges| + 1
  {
    if (EndOf(from, p) == to && p != []) || |p| >= depth then 1
    else
      SelectShrinks(edges, EndOf(from, p));
      1 + BranchWork(edges, from, to, depth, p, Outgoing(edges, EndOf(from, p)))
  }

  ghost function BranchWork(edges: seq<Edge>, from: Id, to: Id, depth: int, p: seq<Edge>, out: seq<Edge>): nat
    requires |p| < depth
    decreases depth - |p|, |out|
  {
    if out == [] then 0 else
    (if out[0].to in Nodes(from, p) then 0 else Work(edges, from, to, depth, p + [out[0]]))
    + BranchWork(edges, from, to, depth, p, out[1..])
  }

  ghost function ForestWork(edges: seq<Edge>, from: Id, to: Id, depth: int, ps: seq<seq<Edge>>): nat {
    if ps == [] then 0 else Work(edges, from, to, depth, ps[0]) + ForestWork(edges, from, to, depth, ps[1..])
  }

  lemma {:induction false} ForestAppend(edges: seq<Edge>, from: Id, to: Id, depth: int, ps: seq<seq<Edge>>, p: seq<Edge>)
    ensures Forest(edges, from, to, depth, ps + [p]) == Forest(edges, from, to, depth, ps) + Tree(edges, from, to, depth, p)
  {
    if ps != [] {
      ForestAppend(edges, from, to, depth, ps[1..], p);
      assert (ps + [p])[1..] == ps[1..] + [p];
      ConcatAssociates(Tree(edges, from, to, depth, ps[0]), Forest(edges, from, to, depth, ps[1..]),
                       Tree(edges, from, to, depth, p));
    } else {
      assert ps + [p] == [p];
      assert Forest(edges, from, to, depth, [p]) == Tree(edges, from, to, depth, p) + [];
    }
  }

  lemma {:induction false} ForestWorkAppend(edges: seq<Edge>, from: Id, to: Id, depth: int, ps: seq<seq<Edge>>, p: seq<Edge>)
    ensures ForestWork(edges, from, to, depth, ps + [p])
         == ForestWork(edges, from, to, depth, ps) + Work(edges, from, to, depth, p)
  {
    if ps != [] {
      ForestWorkAppend(edges, from, to, depth, ps[1..], p);
      assert (ps + [p])[1..] == ps[1..] + [p];
    } else {
      assert ps + [p] == [p];
    }
  }

  // ----- the tree below the empty path holds exactly the simple paths

  ghost predicate Partial(edges: seq<Edge>, from: Id, p: seq<Edge>) {
    Walk(edges, from, p) && Distinct(Nodes(from, p))
  }

  lemma PartialExtends(edges: seq<Edge>, from: Id, p: seq<Edge>, e: Edge)
    requires Partial(edges, from, p) && e in edges && e.from == EndOf(from, p) && e.to !in Nodes(from, p)
    ensures Partial(edges, from, p + [e])
  {
    ExtendEntry(from, p, e);
    assert Nodes(from, p + [e]) == Nodes(from, p) + [e.to];
    assert Nodes(from, p)[|p|] == EndOf(from, p);
    DistinctAppend(Nodes(from, p), [e.to]);
  }

  lemma {:induction false} TreeSound(edges: seq<Edge>, from: Id, to: Id, depth: int, p: seq<Edge>, x: seq<Edge>)
    requires Partial(edges, from, p) && |p| <= depth
    requires x in Tree(edges, from, to, depth, p)
    ensures SimplePath(edges, from, to, x) && |x| <= depth && p <= x
    decreases depth - |p|, |edges| + 1
  {
    if !(EndOf(from, p) == to && p != []) {
      SelectShrinks(edges, EndOf(from, p));
      var e := BranchesSound(edges, from, to, depth, p, Outgoing(edges, EndOf(from, p)), x);
    }
  }

  lemma {:induction false} BranchesSound(edges: seq<Edge>, from: Id, to: Id, depth: int, p: seq<Edge>, out: seq<Edge>, x: seq<Edge>)
    returns (e: Edge)
    requires Partial(edges, from, p) && |p| < depth
    requires forall o :: o in out ==> o in edges && o.from == EndOf(from, p)
    requires x in Branches(edges, from, to, depth, p, out)
    ensures SimplePath(edges, from, to, x) && |p| < |x| <= depth && x[|p|] == e && e in out
    ensures p <= x
    decreases depth - |p|, |out|
  {
    if out[0].to !in Nodes(from, p) && x in Tree(edges, from, to, depth, p + [out[0]]) {
      e := out[0];
      PartialExtends(edges, from, p, e);
      TreeSound(edges, from, to, depth, p + [e], x);
    } else {
      e := BranchesSound(edges, from, to, depth, p, out[1..], x);
    }
  }

  lemma {:induction false} TreeComplete(edges: seq<Edge>, from: Id, to: Id, depth: int, p: seq<Edge>, x: seq<Edge>)
    requires SimplePath(edges, from, to, x) && |x| <= depth && p <= x
    ensures x in Tree(edges, from, to, depth, p)
    decreases |x| - |p|
  {
    if |p| < |x| {
      var e := x[|p|];
      NextHop(edges, from, to, p, x);
      TreeComplete(edges, from, to, depth, p + [e], x);
      BranchesComplete(edges, from, to, depth, p, Outgoing(edges, EndOf(from, p)), e, x);
    } else {
      assert p == x;
    }
  }

  lemma NextHop(edges: seq<Edge>, from: Id, to: Id, p: seq<Edge>, x: seq<Edge>)
    requires SimplePath(edges, from, to, x) && p < x
    ensures x[|p|] in Outgoing(edges, EndOf(from, p)) && x[|p|].to !in Nodes(from, p)
    ensures p != [] ==> EndOf(from, p) != to
    ensures p + [x[|p|]] <= x
  {
    PrefixNodes(from, p, x);
    assert Nodes(from, x)[|p| + 1] == x[|p|].to;
  }

  lemma {:induction false} PrefixNodes(from: Id, p: seq<Edge>, x: seq<Edge>)
    requires p <= x
    ensures Nodes(from, p) == Nodes(from, x)[..|p| + 1]
  {
    forall i | 0 <= i <= |p| ensures Nodes(from, p)[i] == Nodes(from, x)[i] {
      if i > 0 {
        assert p[i - 1] == x[i - 1];
      }
    }
  }

  lemma {:induction false} BranchesComplete(edges: seq<Edge>, from: Id, to: Id, depth: int, p: seq<Edge>, out: seq<Edge>,
                                            e: Edge, x: seq<Edge>)
    requires |p| < depth && e in out && e.to !in Nodes(from, p)
    requires x in Tree(edges, from, to, depth, p + [e])
    ensures x in Branches(edges, from, to, depth, p, out)
  {
    if out[0] != e {
      BranchesComplete(edges, from, to, depth, p, out[1..], e, x);
    }
  }

  lemma {:induction false} TreeOnce(edges: seq<Edge>, from: Id, to: Id, depth: int, p: seq<Edge>)
    requires DistinctKeys(edges) && Partial(edges, from, p) && |p| <= depth
    ensures Distinct(Tree(edges, from, to, depth, p))
    decreases depth - |p|, |edges| + 1
  {
    if !(EndOf(from, p) == to && p != []) && |p| < depth {
      SelectShrinks(edges, EndOf(from, p));
      BranchesOnce(edges, from, to, depth, p, Outgoing(edges, EndOf(from, p)));
    }
  }

  lemma {:induction false} BranchesOnce(edges: seq<Edge>, from: Id, to: Id, depth: int, p: seq<Edge>, out: seq<Edge>)
    requires DistinctKeys(edges) && Partial(edges, from, p) && |p| < depth && DistinctKeys(out)
    requires forall o :: o in out ==> o in edges && o.from == EndOf(from, p)
    ensures Distinct(Branches(edges, from, to, depth, p, out))
    decreases depth - |p|, |out|
  {
    if out != [] {
      BranchesOnce(edges, from, to, depth, p, out[1..]);
      if out[0].to !in Nodes(from, p) {
        var first := Tree(edges, from, to, depth, p + [out[0]]);
        var rest := Branches(edges, from, to, depth, p, out[1..]);
        PartialExtends(edges, from, p, out[0]);
        TreeOnce(edges, from, to, depth, p + [out[0]]);
        forall x | x in first ensures |x| > |p| && x[|p|] == out[0] {
          TreeSound(edges, from, to, depth, p + [out[0]], x);
        }
        forall x | x in rest ensures |x| > |p| && x[|p|] in out[1..] {
          var e := BranchesSound(edges, from, to, depth, p, out[1..], x);
        }
        assert out[0] !in out[1..];
        DistinctAppend(first, rest);
      }
    }
  }

  // ----- the search

  predicate Before(a: GraphPath, b: GraphPath) {
    a.totalConfidence > b.totalConfidence
    || (a.totalConfidence == b.totalConfidence && |a.nodes| <= |b.nodes|)
  }

  /** r lists each simple path of at most depth hops exactly once. */
  ghost predicate ListsSimplePaths(edges: seq<Edge>, from: Id, to: Id, depth: int, r: seq<GraphPath>) {
    && (forall p :: SimplePath(edges, from, to, p) && |p| <= depth ==> Render(from, p) in r)
    && (forall g :: g in r ==> exists p :: SimplePath(edges, from, to, p) && |p| <= depth && g == Render(from, p))
    && Distinct(r)
  }

  /** The found paths are the simple paths of at most depth hops, each once. */
  lemma FoundExactly(edges: seq<Edge>, from: Id, to: Id, depth: int, found: seq<seq<Edge>>)
    requires DistinctKeys(edges)
    requires multiset(found) == multiset(Tree(edges, from, to, depth, []))
    ensures forall p :: p in found <==> SimplePath(edges, from, to, p) && |p| <= depth
    ensures Distinct(found)
  {
    if depth >= 0 {
      TreeOnce(edges, from, to, depth, []);
    }
    DistinctRearranged(found, Tree(edges, from, to, depth, []));
    forall p ensures p in found <==> SimplePath(edges, from, to, p) && |p| <= depth {
      if p in found {
        TreeSound(edges, from, to, depth, [], p);
      } else if SimplePath(edges, from, to, p) && |p| <= depth {
        TreeComplete(edges, from, to, depth, [], p);
      }
    }
  }

  ghost predicate Renders(from: Id, found: seq<seq<Edge>>, results: seq<GraphPath>) {
    |results| == |found| && forall i :: 0 <= i < |found| ==> results[i] == Render(from, found[i])
  }

  lemma RenderOneMore(from: Id, found: seq<seq<Edge>>, results: seq<GraphPath>, p: seq<Edge>)
    requires Renders(from, found, results)
    ensures Renders(from, found + [p], results + [Render(from, p)])
  {
  }

  lemma RenderedOnce(edges: seq<Edge>, from: Id, found: seq<seq<Edge>>, results: seq<GraphPath>)
    requires DistinctKeys(edges) && Distinct(found)
    requires forall p :: p in found ==> Walk(edges, from, p)
    requires Renders(from, found, results)
    ensures Distinct(results)
  {
    forall i, j | 0 <= i < j < |results| ensures results[i] != results[j] {
      assert found[i] in found && found[j] in found;
      if Render(from, found[i]) == Render(from, found[j]) {
        RenderInjective(edges, from, found[i], found[j]);
      }
    }
  }

  lemma RenderedExactly(edges: seq<Edge>, from: Id, to: Id, depth: int, found: seq<seq<Edge>>, results: seq<GraphPath>)
    requires forall p :: p in found <==> SimplePath(edges, from, to, p) && |p| <= depth
    requires Renders(from, found, results)
    ensures forall p :: SimplePath(edges, from, to, p) && |p| <= depth ==> Render(from, p) in results
    ensures forall g :: g in results ==> exists p :: SimplePath(edges, from, to, p) && |p| <= depth && g == Render(from, p)
  {
    forall p | SimplePath(edges, from, to, p) && |p| <= depth ensures Render(from, p) in results {
      var i :| 0 <= i < |found| && found[i] == p;
      assert results[i] in results;
    }
    forall g | g in results ensures exists p :: SimplePath(edges, from, to, p) && |p| <= depth && g == Render(from, p) {
      var i :| 0 <= i < |results| && results[i] == g;
      assert found[i] in found;
    }
  }

  lemma Conclude(edges: seq<Edge>, from: Id, to: Id, depth: int, found: seq<seq<Edge>>, results: seq<GraphPath>)
    requires DistinctKeys(edges)
    requires multiset(found) == multiset(Tree(edges, from, to, depth, []))
    requires Renders(from, found, results)
    ensures ListsSimplePaths(edges, from, to, depth, StableSort(Before, results))
    ensures SortedBy(Before, StableSort(Before, results))
  {
    SortIsSorted(Before, results);
    FoundExactly(edges, from, to, depth, found);
    RenderedOnce(edges, from, found, results);
    RenderedExactly(edges, from, to, depth, found, results);
    DistinctRearranged(StableSort(Before, results), results);
  }

  // What is found and what is still to be found below the pending paths make up the whole tree.
  ghost predicate Accounts(edges: seq<Edge>, from: Id, to: Id, depth: int, found: seq<seq<Edge>>, pending: seq<seq<Edge>>) {
    multiset(found) + multiset(Forest(edges, from, to, depth, pending)) == multiset(Tree(edges, from, to, depth, []))
  }

  lemma AccountFound(edges: seq<Edge>, from: Id, to: Id, depth: int, found: seq<seq<Edge>>, pending: seq<seq<Edge>>)
    requires pending != [] && Accounts(edges, from, to, depth, found, pending)
    requires EndOf(from, pending[0]) == to && pending[0] != []
    ensures Accounts(edges, from, to, depth, found + [pending[0]], pending[1..])
    ensures ForestWork(edges, from, to, depth, pending[1..]) < ForestWork(edges, from, to, depth, pending)
  {
    assert Forest(edges, from, to, depth, pending) == [pending[0]] + Forest(edges, from, to, depth, pending[1..]);
  }

  lemma AccountTooDeep(edges: seq<Edge>, from: Id, to: Id, depth: int, found: seq<seq<Edge>>, pending: seq<seq<Edge>>)
    requires pending != [] && Accounts(edges, from, to, depth, found, pending)
    requires !(EndOf(from, pending[0]) == to && pending[0] != []) && |pending[0]| >= depth
    ensures Accounts(edges, from, to, depth, found, pending[1..])
    ensures ForestWork(edges, from, to, depth, pending[1..]) < ForestWork(edges, from, to, depth, pending)
  {
    assert Forest(edges, from, to, depth, pending) == [] + Forest(edges, from, to, depth, pending[1..]);
  }

  lemma AccountBranches(edges: seq<Edge>, from: Id, to: Id, depth: int, found: seq<seq<Edge>>, pending: seq<seq<Edge>>,
                        after: seq<seq<Edge>>)
    requires pending != [] && Accounts(edges, from, to, depth, found, pending)
    requires !(EndOf(from, pending[0]) == to && pending[0] != []) && |pending[0]| < depth
    requires var out := Outgoing(edges, EndOf(from, pending[0]));
      && multiset(Forest(edges, from, to, depth, after))
         == multiset(Forest(edges, from, to, depth, pending[1..])) + multiset(Branches(edges, from, to, depth, pending[0], out))
      && ForestWork(edges, from, to, depth, after)
         == ForestWork(edges, from, to, depth, pending[1..]) + BranchWork(edges, from, to, depth, pending[0], out)
    ensures Accounts(edges, from, to, depth, found, after)
    ensures ForestWork(edges, from, to, depth, after) < ForestWork(edges, from, to, depth, pending)
  {
    var branches := Branches(edges, from, to, depth, pending[0], Outgoing(edges, EndOf(from, pending[0])));
    assert Forest(edges, from, to, depth, pending) == branches + Forest(edges, from, to, depth, pending[1..]);
  }

  ghost predicate Mirrors(from: Id, q: seq<Entry>, pending: seq<seq<Edge>>) {
    |q| == |pending| && forall i :: 0 <= i < |q| ==> q[i] == EntryOf(from, pending[i])
  }

  function Step(entry: Entry, e: Edge): Entry {
    Entry(e.to, entry.nodes + [e.to], entry.rels + [e.relation], entry.conf * e.confidence, entry.visited + {e.to})
  }

  lemma PushMirrors(from: Id, q: seq<Entry>, pending: seq<seq<Edge>>, p: seq<Edge>, e: Edge)
    requires Mirrors(from, q, pending)
    ensures Mirrors(from, q + [Step(EntryOf(from, p), e)], pending + [p + [e]])
  {
    ExtendEntry(from, p, e);
  }

  class GraphReasoner {
    const graph: MemoryGraph

    constructor (graph: MemoryGraph)
      ensures this.graph == graph
    {
      this.graph := graph;
    }

    // The inner loop: one queue entry per edge that leads to an unvisited node.
    method Enqueue(entry: Entry, out: seq<Edge>, q: seq<Entry>, ghost edges: seq<Edge>, ghost from: Id, ghost to: Id,
                   ghost depth: int, ghost p: seq<Edge>, ghost pending: seq<seq<Edge>>)
      returns (q': seq<Entry>, ghost pending': seq<seq<Edge>>)
      requires |p| < depth && entry == EntryOf(from, p) && Mirrors(from, q, pending)
      ensures Mirrors(from, q', pending')
      ensures multiset(Forest(edges, from, to, depth, pending'))
           == multiset(Forest(edges, from, to, depth, pending)) + multiset(Branches(edges, from, to, depth, p, out))
      ensures ForestWork(edges, from, to, depth, pending')
           == ForestWork(edges, from, to, depth, pending) + BranchWork(edges, from, to, depth, p, out)
    {
      q', pending' := q, pending;
      assert out[0..] == out;
      for i := 0 to |out|
        invariant Mirrors(from, q', pending')
        invariant multiset(Forest(edges, from, to, depth, pending')) + multiset(Branches(edges, from, to, depth, p, out[i..]))
          == multiset(Forest(edges, from, to, depth, pending)) + multiset(Branches(edges, from, to, depth, p, out))
        invariant ForestWork(edges, from, to, depth, pending') + BranchWork(edges, from, to, depth, p, out[i..])
          == ForestWork(edges, from, to, depth, pending) + BranchWork(edges, from, to, depth, p, out)
      {
        assert out[i..][1..] == out[i + 1..];
        if out[i].to !in entry.visited {
          PushMirrors(from, q', pending', p, out[i]);
          ForestAppend(edges, from, to, depth, pending', p + [out[i]]);
          ForestWorkAppend(edges, from, to, depth, pending', p + [out[i]]);
          q', pending' := q' + [Step(entry, out[i])], pending' + [p + [out[i]]];
        }
      }
    }

    method FindPaths(from: Id, to: Id, maxDepth: int := 4) returns (results: seq<GraphPath>)
      requires graph.Valid()
      ensures from !in graph.nodes ==> results == []
      ensures from in graph.nodes ==> ListsSimplePaths(graph.edges, from, to, maxDepth, results)
      ensures forall i, j :: 0 <= i < j < |results| ==>
        || results[i].totalConfidence > results[j].totalConfidence
        || (results[i].totalConfidence == results[j].totalConfidence && |results[i].nodes| <= |results[j].nodes|)
      ensures SortedBy(Before, results)
    {
      if from !in graph.nodes {
        return [];
      }
      ghost var found;
      results, found := Explore(from, to, maxDepth);
      Conclude(graph.edges, from, to, maxDepth, found, results);
      results := StableSort(Before, results);
    }

    // The queue loop: paths in the order they leave the queue, and the edges behind them.
    method Explore(from: Id, to: Id, maxDepth: int) returns (results: seq<GraphPath>, ghost found: seq<seq<Edge>>)
      ensures multiset(found) == multiset(Tree(graph.edges, from, to, maxDepth, []))
      ensures Renders(from, found, results)
    {
      results, found := [], [];
      ghost var edges := graph.edges;
      ghost var pending: seq<seq<Edge>> := [[]];
      var q := [Entry(from, [from], [], 1.0, {from})];
      assert EntryOf(from, []) == q[0];
      assert Forest(edges, from, to, maxDepth, pending) == Tree(edges, from, to, maxDepth, []) + [];
      while q != []
        invariant Mirrors(from, q, pending)
        invariant Renders(from, found, results)
        invariant Accounts(edges, from, to, maxDepth, found, pending)
        decreases ForestWork(edges, from, to, maxDepth, pending)
      {
        var entry := q[0];
        ghost var before := pending;
        q, pending := q[1..], pending[1..];
        if entry.cur == to && |entry.nodes| > 1 {
          AccountFound(edges, from, to, maxDepth, found, before);
          RenderOneMore(from, found, results, before[0]);
          results := results + [GraphPath(entry.nodes, entry.rels, entry.conf)];
          found := found + [before[0]];
          continue;
        }
        if |entry.nodes| >= maxDepth + 1 {
          AccountTooDeep(edges, from, to, maxDepth, found, before);
          continue;
        }
        var out := graph.GetEdges(Some(entry.cur), None, None);
        q, pending := Enqueue(entry, out, q, edges, from, to, maxDepth, before[0], pending);
        AccountBranches(edges, from, to, maxDepth, found, before, pending);
      }
    }
  }
}
