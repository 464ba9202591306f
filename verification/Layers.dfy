/**
 The batch structure of agents/task_runtime.py: ids grouped by dependency depth, each
 batch in plan order.
 */
module Layers {
  import opened Common
  import Tasks
  import opened Topology

  function Members(ids: seq<Id>): set<Id> { set t | t in ids }

  /** The dictionary of dependency sets the scheduler starts from. */
  function DepsOf(plan: Tasks.Plan): (g: Deps)
    ensures forall t :: t in g <==> t in Ids(plan)
  {
    if plan == [] then map[]
    else
      var last := plan[|plan| - 1];
      assert Ids(plan) == Ids(plan[..|plan| - 1]) + [last.id];
      DepsOf(plan[..|plan| - 1])[last.id := Members(last.deps)]
  }

  function Ids(plan: Tasks.Plan): (r: seq<Id>)
    ensures |r| == |plan| && forall i :: 0 <= i < |plan| ==> r[i] == plan[i].id
  {
    if plan == [] then [] else Ids(plan[..|plan| - 1]) + [plan[|plan| - 1].id]
  }

  /** The keys of that dictionary in its own order: each id once, where it first occurs. */
  function KeyOrder(plan: Tasks.Plan): (r: seq<Id>)
    ensures Distinct(r) && forall t :: t in r <==> t in Ids(plan)
  {
    if plan == [] then []
    else
      var keys, last := KeyOrder(plan[..|plan| - 1]), plan[|plan| - 1].id;
      if last in keys then keys else keys + [last]
  }

  /** Later tasks come later in the order: an id keeps its place as tasks are added. */
  lemma {:induction false} KeyOrderGrows(plan: Tasks.Plan, n: nat)
    requires n <= |plan|
    ensures KeyOrder(plan[..n]) <= KeyOrder(plan)
  {
    var m := |plan| - 1;
    if n <= m {
      assert plan[..m][..n] == plan[..n];
      KeyOrderGrows(plan[..m], n);
    } else {
      assert plan[..n] == plan;
    }
  }

  lemma {:induction false} DepsOfTask(plan: Tasks.Plan, i: nat)
    requires Tasks.DistinctIds(plan) && i < |plan|
    ensures DepsOf(plan)[plan[i].id] == Members(plan[i].deps)
  {
    if i < |plan| - 1 {
      DepsOfTask(plan[..|plan| - 1], i);
    }
  }

  function Pick(order: seq<Id>, s: set<Id>): (r: seq<Id>)
    ensures forall t :: t in r <==> t in order && t in s
    ensures |r| <= |order|
  {
    if order == [] then []
    else if order[0] in s then [order[0]] + Pick(order[1..], s) else Pick(order[1..], s)
  }

  /** The ids picked stay in order. */
  lemma {:induction false} PickConcat(a: seq<Id>, b: seq<Id>, s: set<Id>)
    ensures Pick(a + b, s) == Pick(a, s) + Pick(b, s)
  {
    if a == [] {
      assert a + b == b;
    } else {
      assert (a + b)[1..] == a[1..] + b;
      PickConcat(a[1..], b, s);
    }
  }

  /** The remaining ids whose dependencies are all done. */
  function Free(g: Deps, remaining: seq<Id>, done: set<Id>): seq<Id>
    requires forall t :: t in remaining ==> t in g
  {
    if remaining == [] then []
    else
      assert remaining[0] in remaining;
      assert forall t :: t in remaining[1..] ==> t in remaining;
      if g[remaining[0]] <= done then [remaining[0]] + Free(g, remaining[1..], done) else Free(g, remaining[1..], done)
  }

  lemma {:induction false} FreeIsNextLevel(g: Deps, order: seq<Id>, k: nat)
    requires forall t :: t in order ==> t in g
    ensures Free(g, Pick(order, g.Keys - Level(g, k)), Level(g, k)) == Pick(order, Level(g, k + 1) - Level(g, k))
  {
    if order != [] {
      assert forall t :: t in order[1..] ==> t in order;
      FreeIsNextLevel(g, order[1..], k);
      var t, rest := order[0], Pick(order[1..], g.Keys - Level(g, k));
      assert t in g && (t in Level(g, k + 1) <==> g[t] <= Level(g, k));
      assert ([t] + rest)[1..] == rest;
    }
  }

  lemma {:induction false} PickAgain(order: seq<Id>, a: set<Id>, b: set<Id>)
    ensures Pick(Pick(order, a), b) == Pick(order, a * b)
  {
    if order != [] {
      PickAgain(order[1..], a, b);
      var rest := Pick(order[1..], a);
      assert ([order[0]] + rest)[1..] == rest;
    }
  }

  lemma {:induction false} PickShrinks(order: seq<Id>, t: Id, s: set<Id>)
    requires t in order && t !in s
    ensures |Pick(order, s)| < |order|
  {
    if order[0] != t {
      PickShrinks(order[1..], t, s);
    }
  }

  function BatchesUpTo(g: Deps, order: seq<Id>, m: nat): (r: seq<seq<Id>>)
    ensures |r| == m
  {
    if m == 0 then [] else BatchesUpTo(g, order, m - 1) + [Pick(order, Level(g, m) - Level(g, m - 1))]
  }

  lemma {:induction false} BatchesAt(g: Deps, order: seq<Id>, m: nat, k: nat)
    requires k < m
    ensures BatchesUpTo(g, order, m)[k] == Pick(order, Level(g, k + 1) - Level(g, k))
  {
    if k < m - 1 {
      BatchesAt(g, order, m - 1, k);
    }
  }

  /** batches is the layering of g along order, complete up to a stall. */
  ghost predicate Layered(g: Deps, order: seq<Id>, batches: seq<seq<Id>>) {
    && (forall k :: 0 <= k < |batches| ==> batches[k] == Pick(order, Level(g, k + 1) - Level(g, k)) && batches[k] != [])
    && Level(g, |batches| + 1) == Level(g, |batches|)
  }

  /** A task is in batch k exactly when its longest dependency chain has k steps, all inside the graph. */
  lemma BatchIsDepth(g: Deps, order: seq<Id>, batches: seq<seq<Id>>, t: Id, k: nat)
    requires Layered(g, order, batches) && (forall x :: x in order <==> x in g)
    ensures k < |batches| && t in batches[k] <==> Grounded(g, t) && LongestChain(g, t, k)
  {
    LevelIsLongestChain(g, k, t);
    if k >= |batches| {
      LevelStalls(g, |batches|, k);
      LevelStalls(g, |batches|, k + 1);
    } else {
      LevelWithin(g, k + 1);
    }
  }

  /** Every dependency of a placed task is in a strictly earlier batch. */
  lemma DependenciesEarlier(g: Deps, order: seq<Id>, batches: seq<seq<Id>>, t: Id, d: Id, k: nat)
    requires Layered(g, order, batches) && (forall x :: x in order <==> x in g)
    requires k < |batches| && t in batches[k] && t in g && d in g[t]
    ensures exists j :: 0 <= j < k && d in batches[j]
  {
    assert t in Pick(order, Level(g, k + 1) - Level(g, k));
    assert t in Level(g, k + 1) && g[t] <= Level(g, k);
    var j := FirstLevel(g, d, k);
    LevelWithin(g, k);
    assert d in batches[j];
  }

  lemma {:induction false} FirstLevel(g: Deps, t: Id, k: nat) returns (j: nat)
    requires t in Level(g, k)
    ensures j < k && t in Level(g, j + 1) - Level(g, j)
  {
    if k > 1 && t in Level(g, k - 1) {
      j := FirstLevel(g, t, k - 1);
    } else {
      j := k - 1;
    }
  }

  /** All tasks are placed exactly when the graph is acyclic and no dependency dangles. */
  lemma PlacedIffSound(g: Deps, order: seq<Id>, batches: seq<seq<Id>>)
    requires Layered(g, order, batches) && (forall x :: x in order <==> x in g)
    ensures (forall t :: t in g ==> Placed(batches, t)) <==> NoDangling(g) && Acyclic(g)
  {
    var m := |batches|;
    StalledCoversIff(g, m);
    LevelWithin(g, m);
    forall t | t in g ensures Placed(batches, t) <==> t in Level(g, m) {
      if t in Level(g, m) {
        var j := FirstLevel(g, t, m);
        assert t in batches[j];
      } else if Placed(batches, t) {
        var k :| 0 <= k < |batches| && t in batches[k];
        LevelGrows(g, k + 1, m);
      }
    }
  }

  ghost predicate Placed(batches: seq<seq<Id>>, t: Id) {
    exists k :: 0 <= k < |batches| && t in batches[k]
  }

  method TopologicalBatches(graph: Tasks.TaskGraph) returns (batches: seq<seq<Id>>)
    ensures Layered(DepsOf(graph.Plan()), KeyOrder(graph.Plan()), batches)
  {
    var g, order := ReadGraph(graph);
    assert forall t :: t in order <==> t in g;
    batches := LayerAll(g, order);
  }

  method ReadGraph(graph: Tasks.TaskGraph) returns (g: Deps, order: seq<Id>)
    ensures g == DepsOf(graph.Plan()) && order == KeyOrder(graph.Plan())
  {
    g, order := map[], [];
    ghost var plan := graph.Plan();
    for i := 0 to |graph.tasks|
      invariant g == DepsOf(plan[..i]) && order == KeyOrder(plan[..i])
    {
      var task := graph.tasks[i];
      ReadTask(plan, i);
      g := g[task.taskId := Members(task.dependsOn)];
      order := if task.taskId in order then order else order + [task.taskId];
    }
    assert plan[..|plan|] == plan;
  }

  lemma ReadTask(plan: Tasks.Plan, i: nat)
    requires i < |plan|
    ensures var (g, order, t) := (DepsOf(plan[..i]), KeyOrder(plan[..i]), plan[i].id);
      && DepsOf(plan[..i + 1]) == g[t := Members(plan[i].deps)]
      && KeyOrder(plan[..i + 1]) == if t in order then order else order + [t]
  {
    assert plan[..i + 1][..i] == plan[..i];
  }

  lemma FreeAddsLevel(g: Deps, order: seq<Id>, k: nat)
    requires forall t :: t in order <==> t in g
    ensures Level(g, k) + Members(Pick(order, Level(g, k + 1) - Level(g, k))) == Level(g, k + 1)
  {
    LevelGrows(g, k, k + 1);
    LevelWithin(g, k + 1);
  }

  lemma PickRest(g: Deps, order: seq<Id>, k: nat)
    requires forall t :: t in order <==> t in g
    ensures var remaining, after := Pick(order, g.Keys - Level(g, k)), g.Keys - Level(g, k + 1);
      && Pick(remaining, after) == Pick(order, after)
      && (Pick(order, Level(g, k + 1) - Level(g, k)) != [] ==> |Pick(remaining, after)| < |remaining|)
  {
    var remaining, after := Pick(order, g.Keys - Level(g, k)), g.Keys - Level(g, k + 1);
    var ready := Pick(order, Level(g, k + 1) - Level(g, k));
    LevelGrows(g, k, k + 1);
    PickAgain(order, g.Keys - Level(g, k), after);
    assert (g.Keys - Level(g, k)) * after == after;
    if ready != [] {
      assert ready[0] in ready && ready[0] in remaining;
      PickShrinks(remaining, ready[0], after);
    }
  }

  /** The batches so far, and what is left to place. */
  ghost predicate LayeredSoFar(g: Deps, order: seq<Id>, batches: seq<seq<Id>>, remaining: seq<Id>, done: set<Id>) {
    && done == Level(g, |batches|) && remaining == Pick(order, g.Keys - done)
    && batches == BatchesUpTo(g, order, |batches|) && [] !in batches
  }

  lemma FreeIsNext(g: Deps, order: seq<Id>, batches: seq<seq<Id>>, remaining: seq<Id>, done: set<Id>)
    requires (forall t :: t in order <==> t in g) && LayeredSoFar(g, order, batches, remaining, done)
    ensures (forall t :: t in remaining ==> t in g)
      && Free(g, remaining, done) == Pick(order, Level(g, |batches| + 1) - Level(g, |batches|))
      && done + Members(Free(g, remaining, done)) == Level(g, |batches| + 1)
  {
    FreeIsNextLevel(g, order, |batches|);
    FreeAddsLevel(g, order, |batches|);
  }

  lemma LastLayer(g: Deps, order: seq<Id>, batches: seq<seq<Id>>, remaining: seq<Id>, done: set<Id>)
    requires (forall t :: t in order <==> t in g) && LayeredSoFar(g, order, batches, remaining, done)
    requires Free(g, remaining, done) == []
    ensures Layered(g, order, batches)
  {
    FreeIsNext(g, order, batches, remaining, done);
    assert Members([]) == {};
    SoFarIsLayered(g, order, batches);
  }

  lemma NextLayer(g: Deps, order: seq<Id>, batches: seq<seq<Id>>, remaining: seq<Id>, done: set<Id>, ready: seq<Id>)
    requires (forall t :: t in order <==> t in g) && LayeredSoFar(g, order, batches, remaining, done)
    requires ready == Free(g, remaining, done) && ready != []
    ensures var after := done + Members(ready);
      && LayeredSoFar(g, order, batches + [ready], Pick(remaining, g.Keys - after), after)
      && |Pick(remaining, g.Keys - after)| < |remaining|
  {
    FreeIsNext(g, order, batches, remaining, done);
    PickRest(g, order, |batches|);
    assert BatchesUpTo(g, order, |batches| + 1) == BatchesUpTo(g, order, |batches|) + [ready];
  }

  lemma SoFarIsLayered(g: Deps, order: seq<Id>, batches: seq<seq<Id>>)
    requires batches == BatchesUpTo(g, order, |batches|) && [] !in batches
    requires Level(g, |batches| + 1) == Level(g, |batches|)
    ensures Layered(g, order, batches)
  {
    forall k | 0 <= k < |batches| ensures batches[k] == Pick(order, Level(g, k + 1) - Level(g, k)) && batches[k] != [] {
      BatchesAt(g, order, |batches|, k);
      assert batches[k] in batches;
    }
  }

  // The while loop: remaining is the dictionary's key order, done the ids placed so far.
  method LayerAll(g: Deps, order: seq<Id>) returns (batches: seq<seq<Id>>)
    requires forall t :: t in order <==> t in g
    ensures Layered(g, order, batches)
  {
    batches := [];
    var remaining, done := order, {};
    PickAll(order, g.Keys);
    while remaining != []
      invariant LayeredSoFar(g, order, batches, remaining, done)
      decreases |remaining|
    {
      var ready := Free(g, remaining, done);
      if ready == [] {
        break;
      }
      NextLayer(g, order, batches, remaining, done, ready);
      batches := batches + [ready];
      done := done + Members(ready);
      remaining := Pick(remaining, g.Keys - done);
    }
    LastLayer(g, order, batches, remaining, done);
  }

  lemma {:induction false} PickAll(order: seq<Id>, s: set<Id>)
    requires forall t :: t in order ==> t in s
    ensures Pick(order, s) == order && Pick(order, s - {}) == order
  {
    assert s - {} == s;
    if order != [] {
      assert order[0] in order && forall t :: t in order[1..] ==> t in order;
      PickAll(order[1..], s);
    }
  }
}
