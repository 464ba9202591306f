/**
 Dependency chains, cycles and levels of a task graph, given as each task's set of
 dependencies. Levels are what layered scheduling computes; chains are what it means.
 */
module Topology {
  import opened Common

  type Id = string
  type Deps = map<Id, set<Id>>

  /** Each id of the chain depends on the next; only the last may be unknown. */
  ghost predicate Chain(g: Deps, c: seq<Id>) {
    c != [] && forall k :: 0 <= k < |c| - 1 ==> c[k] in g && c[k + 1] in g[c[k]]
  }

  ghost predicate ChainFrom(g: Deps, t: Id, c: seq<Id>) {
    Chain(g, c) && c[0] == t
  }

  /** The longest dependency chain from t has k steps. */
  ghost predicate LongestChain(g: Deps, t: Id, k: nat) {
    && (exists c :: ChainFrom(g, t, c) && |c| == k + 1)
    && (forall c :: ChainFrom(g, t, c) ==> |c| <= k + 1)
  }

  /** t is known and so is everything it transitively depends on. */
  ghost predicate Grounded(g: Deps, t: Id) {
    forall c :: ChainFrom(g, t, c) ==> c[|c| - 1] in g
  }

  ghost predicate Cycle(g: Deps, c: seq<Id>) {
    Chain(g, c) && |c| >= 2 && c[0] == c[|c| - 1]
  }

  predicate NoDangling(g: Deps) {
    forall t, d :: t in g && d in g[t] ==> d in g
  }

  ghost predicate Acyclic(g: Deps) {
    forall c :: !Cycle(g, c)
  }

  // ----- levels

  /** The ids whose chains all have fewer than k steps and stay inside the graph. */
  function Level(g: Deps, k: nat): set<Id> {
    if k == 0 then {} else set t | t in g && g[t] <= Level(g, k - 1)
  }

  lemma {:induction false} LevelGrows(g: Deps, j: nat, k: nat)
    requires j <= k
    ensures Level(g, j) <= Level(g, k)
  {
    if j > 0 {
      LevelGrows(g, j - 1, k - 1);
    }
  }

  lemma {:induction false} LevelSound(g: Deps, k: nat, t: Id, c: seq<Id>)
    requires t in Level(g, k) && ChainFrom(g, t, c)
    ensures |c| <= k && c[|c| - 1] in g
  {
    if |c| > 1 {
      var rest := c[1..];
      forall i | 0 <= i < |rest| - 1 ensures rest[i] in g && rest[i + 1] in g[rest[i]] {
        assert rest[i] == c[i + 1] && rest[i + 1] == c[i + 2];
      }
      LevelSound(g, k - 1, c[1], rest);
    }
  }

  lemma ChainPrepend(g: Deps, t: Id, c: seq<Id>)
    requires t in g && Chain(g, c) && c[0] in g[t]
    ensures ChainFrom(g, t, [t] + c)
  {
    var d := [t] + c;
    forall i | 0 <= i < |d| - 1 ensures d[i] in g && d[i + 1] in g[d[i]] {
      if i > 0 {
        assert d[i] == c[i - 1] && d[i + 1] == c[i];
      }
    }
  }

  lemma {:induction false} LevelComplete(g: Deps, k: nat, t: Id)
    requires Grounded(g, t) && forall c :: ChainFrom(g, t, c) ==> |c| <= k
    ensures t in Level(g, k)
  {
    assert ChainFrom(g, t, [t]);
    forall d | d in g[t] ensures d in Level(g, k - 1) {
      forall c | ChainFrom(g, d, c) ensures |c| <= k - 1 && c[|c| - 1] in g {
        ChainPrepend(g, t, c);
        assert ([t] + c)[|c|] == c[|c| - 1];
      }
      LevelComplete(g, k - 1, d);
    }
  }

  /** A level's newcomers are exactly the grounded ids whose longest chain has k steps. */
  lemma LevelIsLongestChain(g: Deps, k: nat, t: Id)
    ensures t in Level(g, k + 1) - Level(g, k) <==> Grounded(g, t) && LongestChain(g, t, k)
  {
    if t in Level(g, k + 1) - Level(g, k) {
      forall c | ChainFrom(g, t, c) ensures |c| <= k + 1 && c[|c| - 1] in g {
        LevelSound(g, k + 1, t, c);
      }
      if forall c :: ChainFrom(g, t, c) ==> |c| <= k {
        LevelComplete(g, k, t);
      }
    } else if Grounded(g, t) && LongestChain(g, t, k) {
      LevelComplete(g, k + 1, t);
      var c :| ChainFrom(g, t, c) && |c| == k + 1;
      LevelSound(g, k, t, c);
    }
  }

  lemma {:induction false} LevelStalls(g: Deps, m: nat, k: nat)
    requires Level(g, m + 1) == Level(g, m) && m <= k
    ensures Level(g, k) == Level(g, m)
  {
    if m < k {
      LevelStalls(g, m, k - 1);
    }
  }

  // ----- cycles

  /** No id on a cycle is ever placed. */
  lemma {:induction false} CycleNeverPlaced(g: Deps, c: seq<Id>, k: nat)
    requires Cycle(g, c)
    ensures c[0] !in Level(g, k)
  {
    if k > 0 && c[0] in Level(g, k) {
      LevelAlong(g, c, k, |c| - 1);
      CycleNeverPlaced(g, c, if k >= |c| - 1 then k - (|c| - 1) else 0);
    }
  }

  lemma {:induction false} LevelAlong(g: Deps, c: seq<Id>, k: nat, i: nat)
    requires Chain(g, c) && i < |c| && c[0] in Level(g, k)
    ensures i < k && c[i] in Level(g, k - i)
  {
    if i > 0 {
      LevelAlong(g, c, k, i - 1);
      assert c[i] in g[c[i - 1]] && g[c[i - 1]] <= Level(g, k - i);
    }
  }

  /** Every id of r depends on an id of r. */
  ghost predicate Closed(g: Deps, r: set<Id>) {
    r <= g.Keys && forall t :: t in r ==> g[t] * r != {}
  }

  lemma {:induction false} ChainInside(g: Deps, r: set<Id>, t: Id, n: nat) returns (c: seq<Id>)
    requires Closed(g, r) && t in r
    ensures ChainFrom(g, t, c) && |c| == n + 1 && forall x :: x in c ==> x in r
    decreases n
  {
    if n == 0 {
      c := [t];
    } else {
      var u :| u in g[t] * r;
      var rest := ChainInside(g, r, u, n - 1);
      ChainPrepend(g, t, rest);
      c := [t] + rest;
    }
  }

  lemma ChainSlice(g: Deps, c: seq<Id>, i: nat, j: nat)
    requires Chain(g, c) && i < j <= |c|
    ensures Chain(g, c[i..j])
  {
    var s := c[i..j];
    forall k | 0 <= k < |s| - 1 ensures s[k] in g && s[k + 1] in g[s[k]] {
      assert s[k] == c[i + k] && s[k + 1] == c[i + k + 1];
    }
  }

  /** A non-empty set whose ids all depend on one of the set holds a cycle. */
  lemma ClosedSetHasCycle(g: Deps, r: set<Id>) returns (c: seq<Id>)
    requires r != {} && Closed(g, r)
    ensures Cycle(g, c) && forall x :: x in c ==> x in r
  {
    var t :| t in r;
    var walk := ChainInside(g, r, t, |r|);
    var i, j := Repeats(walk, r);
    c := walk[i..j + 1];
    ChainSlice(g, walk, i, j + 1);
  }

  /** A stalled level covers the graph exactly when nothing dangles and nothing is cyclic. */
  lemma StalledCoversIff(g: Deps, m: nat)
    requires Level(g, m + 1) == Level(g, m)
    ensures Level(g, m) == g.Keys <==> NoDangling(g) && Acyclic(g)
  {
    LevelWithin(g, m);
    if Level(g, m) == g.Keys {
      forall t, d | t in g && d in g[t] ensures d in g {
        assert ChainFrom(g, t, [t, d]);
        LevelSound(g, m, t, [t, d]);
      }
      forall c ensures !Cycle(g, c) {
        if Cycle(g, c) {
          CycleNeverPlaced(g, c, m);
        }
      }
    } else if NoDangling(g) {
      var r := g.Keys - Level(g, m);
      forall t | t in r ensures g[t] * r != {} {
        assert t !in Level(g, m + 1);
        var d :| d in g[t] && d !in Level(g, m);
        assert d in g[t] * r;
      }
      var c := ClosedSetHasCycle(g, r);
    }
  }

  lemma LevelWithin(g: Deps, k: nat)
    ensures Level(g, k) <= g.Keys
  {
  }
}
