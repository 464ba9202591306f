/**
 The entity graph of core/memory_graph.py: a dictionary of nodes and a dictionary of
 edges under a textual key. Dictionaries keep insertion order, so edges are a sequence.
 */
module MemoryGraphs {
  import opened Common

  type Id = string

  datatype Edge = Edge(from: Id, relation: string, to: Id, confidence: real, sources: set<int>) {
    function Key(): string { from + ":" + relation + ":" + to }

    // The merge of an edge already stored with a newly added one.
    function MergedWith(added: Edge): Edge {
      this.(confidence := if confidence >= added.confidence then confidence else added.confidence,
            sources := sources + added.sources)
    }
  }

  predicate DistinctKeys(edges: seq<Edge>) {
    forall i, j :: 0 <= i < j < |edges| ==> edges[i].Key() != edges[j].Key()
  }

  function Upsert(edges: seq<Edge>, e: Edge): seq<Edge> {
    if edges == [] then [e]
    else if edges[0].Key() == e.Key() then [edges[0].MergedWith(e)] + edges[1..]
    else [edges[0]] + Upsert(edges[1..], e)
  }

  /** The edges left after each given filter is applied, in insertion order. */
  function Select(edges: seq<Edge>, from: Option<Id>, relation: Option<string>, to: Option<Id>): (r: seq<Edge>)
    ensures forall e :: e in r <==> e in edges && (from.Some? ==> e.from == from.value)
                                    && (relation.Some? ==> e.relation == relation.value)
                                    && (to.Some? ==> e.to == to.value)
    ensures DistinctKeys(edges) ==> DistinctKeys(r)
  {
    if edges == [] then []
    else
      var rest := Select(edges[1..], from, relation, to);
      if (from.Some? ==> edges[0].from == from.value)
        && (relation.Some? ==> edges[0].relation == relation.value)
        && (to.Some? ==> edges[0].to == to.value)
      then [edges[0]] + rest else rest
  }

  function Outgoing(edges: seq<Edge>, from: Id): seq<Edge> {
    Select(edges, Some(from), None, None)
  }

  class MemoryGraph {
    var nodes: map<Id, string>  // id to label
    var edges: seq<Edge>

    ghost predicate Valid()
      reads this
    {
      DistinctKeys(edges)
    }

    constructor ()
      ensures Valid() && nodes == map[] && edges == []
    {
      nodes, edges := map[], [];
    }

    method AddEdge(e: Edge) returns (stored: Edge)
      requires Valid()
      modifies this`edges
      ensures Valid() && edges == Upsert(old(edges), e)
      ensures stored in edges && stored.Key() == e.Key()
    {
      UpsertKeepsKeys(edges, e);
      var i := 0;
      while i < |edges| && edges[i].Key() != e.Key()
        invariant 0 <= i <= |edges|
        invariant forall j :: 0 <= j < i ==> edges[j].Key() != e.Key()
      {
        i := i + 1;
      }
      UpsertAt(edges, e, i);
      if i == |edges| {
        stored := e;
        edges := edges + [e];
      } else {
        stored := edges[i].MergedWith(e);
        edges := edges[i := stored];
      }
      assert edges[i] == stored;
    }

    function GetEdges(from: Option<Id>, relation: Option<string>, to: Option<Id>): seq<Edge>
      reads this
    {
      Select(edges, from, relation, to)
    }
  }

  lemma {:induction false} UpsertAt(edges: seq<Edge>, e: Edge, i: nat)
    requires i <= |edges|
    requires forall j :: 0 <= j < i ==> edges[j].Key() != e.Key()
    requires i < |edges| ==> edges[i].Key() == e.Key()
    ensures Upsert(edges, e) == if i == |edges| then edges + [e] else edges[i := edges[i].MergedWith(e)]
  {
    if i > 0 {
      UpsertAt(edges[1..], e, i - 1);
    }
  }

  lemma {:induction false} UpsertKeepsKeys(edges: seq<Edge>, e: Edge)
    requires DistinctKeys(edges)
    ensures DistinctKeys(Upsert(edges, e))
    ensures forall x :: x in Upsert(edges, e) ==> x.Key() == e.Key() || x in edges
  {
    if edges != [] && edges[0].Key() != e.Key() {
      UpsertKeepsKeys(edges[1..], e);
    }
  }

  // ----- what a run of add_edge calls leaves in the store

  function AddAll(adds: seq<Edge>): seq<Edge> {
    if adds == [] then [] else Upsert(AddAll(adds[..|adds| - 1]), adds[|adds| - 1])
  }

  /** e is the join of the added edges that carry its key: best confidence, all sources. */
  ghost predicate JoinOf(e: Edge, adds: seq<Edge>) {
    && (exists a :: a in adds && a.Key() == e.Key() && a.confidence == e.confidence)
    && (forall a :: a in adds && a.Key() == e.Key() ==> a.confidence <= e.confidence)
    && (forall m :: m in e.sources <==> exists a :: a in adds && a.Key() == e.Key() && m in a.sources)
  }

  /** After any run of additions every key added has one edge, the join of its additions. */
  lemma {:induction false} StoreHoldsJoins(adds: seq<Edge>)
    ensures DistinctKeys(AddAll(adds))
    ensures forall e :: e in AddAll(adds) ==> JoinOf(e, adds)
    ensures forall a :: a in adds ==> Holds(AddAll(adds), a.Key())
  {
    if adds != [] {
      var before, a := adds[..|adds| - 1], adds[|adds| - 1];
      StoreHoldsJoins(before);
      assert adds == before + [a];
      UpsertKeepsKeys(AddAll(before), a);
      forall e | e in AddAll(adds) ensures JoinOf(e, adds) {
        UpsertJoins(AddAll(before), before, a, e);
      }
      forall b | b in adds ensures Holds(AddAll(adds), b.Key()) {
        UpsertCovers(AddAll(before), a, b);
      }
    }
  }

  function Find(s: seq<Edge>, key: string): (i: nat)
    ensures i <= |s| && (i < |s| ==> s[i].Key() == key)
    ensures forall j :: 0 <= j < i ==> s[j].Key() != key
  {
    if s == [] || s[0].Key() == key then 0 else 1 + Find(s[1..], key)
  }

  predicate Holds(s: seq<Edge>, key: string) { Find(s, key) < |s| }

  lemma UpsertJoins(s: seq<Edge>, before: seq<Edge>, a: Edge, e: Edge)
    requires DistinctKeys(s)
    requires forall x :: x in s ==> JoinOf(x, before)
    requires forall b :: b in before ==> Holds(s, b.Key())
    requires e in Upsert(s, a)
    ensures JoinOf(e, before + [a])
  {
    var i := Find(s, a.Key());
    UpsertAt(s, a, i);
    var j :| 0 <= j < |Upsert(s, a)| && Upsert(s, a)[j] == e;
    if j == i {
      JoinGrows(s, before, a, i);
    } else {
      JoinSkips(s[j], before, a);
    }
  }

  lemma UpsertCovers(s: seq<Edge>, a: Edge, b: Edge)
    requires b.Key() == a.Key() || Holds(s, b.Key())
    ensures Holds(Upsert(s, a), b.Key())
  {
    var i, t := Find(s, a.Key()), Upsert(s, a);
    UpsertAt(s, a, i);
    assert t[if b.Key() == a.Key() then i else Find(s, b.Key())].Key() == b.Key();
  }

  lemma JoinSkips(e: Edge, before: seq<Edge>, a: Edge)
    requires JoinOf(e, before) && e.Key() != a.Key()
    ensures JoinOf(e, before + [a])
  {
    var w :| w in before && w.Key() == e.Key() && w.confidence == e.confidence;
    assert w in before + [a];
    forall m ensures m in e.sources <==> exists x :: x in before + [a] && x.Key() == e.Key() && m in x.sources {
      if m in e.sources {
        var x :| x in before && x.Key() == e.Key() && m in x.sources;
        assert x in before + [a];
      }
    }
  }

  lemma JoinGrows(s: seq<Edge>, before: seq<Edge>, a: Edge, i: nat)
    requires i <= |s| && (i < |s| ==> s[i].Key() == a.Key() && JoinOf(s[i], before))
    requires forall b :: b in before ==> Holds(s, b.Key())
    requires forall j :: 0 <= j < i ==> s[j].Key() != a.Key()
    ensures JoinOf(if i == |s| then a else s[i].MergedWith(a), before + [a])
  {
    var adds := before + [a];
    assert a in adds;
    if i == |s| {
      forall x | x in before ensures x.Key() != a.Key() {
        assert s[Find(s, x.Key())].Key() == x.Key();
      }
      forall m ensures m in a.sources <==> exists x :: x in adds && x.Key() == a.Key() && m in x.sources {
      }
    } else {
      var e := s[i].MergedWith(a);
      var w :| w in before && w.Key() == a.Key() && w.confidence == s[i].confidence;
      assert w in adds;
      forall m ensures m in e.sources <==> exists x :: x in adds && x.Key() == e.Key() && m in x.sources {
        if m in s[i].sources {
          var x :| x in before && x.Key() == a.Key() && m in x.sources;
          assert x in adds;
        }
      }
    }
  }

  // ----- the textual key

  predicate ColonFree(s: string) { ':' !in s }

  /** Joining with ':' identifies a triple as long as its first two parts hold no colon. */
  lemma KeyIdentifies(a: Edge, b: Edge)
    requires ColonFree(a.from) && ColonFree(b.from)
    requires ColonFree(a.relation) && ColonFree(b.relation)
    ensures a.Key() == b.Key() <==> a.from == b.from && a.relation == b.relation && a.to == b.to
  {
    if a.Key() == b.Key() {
      SplitAtColon(a.from, a.relation + ":" + a.to, b.from, b.relation + ":" + b.to);
      assert a.from + (":" + (a.relation + ":" + a.to)) == a.Key();
      assert b.from + (":" + (b.relation + ":" + b.to)) == b.Key();
      SplitAtColon(a.relation, a.to, b.relation, b.to);
      assert a.relation + (":" + a.to) == a.relation + ":" + a.to;
      assert b.relation + (":" + b.to) == b.relation + ":" + b.to;
    }
  }

  lemma SplitAtColon(a: string, x: string, b: string, y: string)
    requires ColonFree(a) && ColonFree(b)
    ensures a + (":" + x) == b + (":" + y) ==> a == b && x == y
  {
    var s, t := a + (":" + x), b + (":" + y);
    if s == t {
      assert s[|a|] == ':' && t[|b|] == ':';
      assert forall k :: 0 <= k < |b| ==> s[k] == b[k] && s[k] != ':';
      assert forall k :: 0 <= k < |a| ==> t[k] == a[k] && t[k] != ':';
      assert a == s[..|a|] && b == t[..|b|];
      assert x == s[|a| + 1..] && y == t[|b| + 1..];
    }
  }

  /** The names of RelationKind. */
  const RELATION_KINDS: set<string> :=
    {"works_on", "studies_at", "interested_in", "goal_is", "uses", "collaborates_with"}

  predicate SameTriple(a: Edge, b: Edge) { a.from == b.from && a.relation == b.relation && a.to == b.to }

  /** Somewhere in s a kind stands between two colons. */
  ghost predicate HoldsKind(s: string, kinds: set<string>) {
    exists x: string, k, y: string :: k in kinds && s == x + ":" + k + ":" + y
  }

  lemma Regroup(x: string, y: string, z: string, w: string) returns (m: string)
    requires x + y == z + w && |x| <= |z|
    ensures z == x + m && y == m + w
  {
    m := z[|x|..];
    assert z[..|x|] == (z + w)[..|x|] == (x + y)[..|x|] == x;
    assert y == (x + y)[|x|..] == (z + w)[|x|..];
  }

  // Where g + ":" + q + rest has a colon after g, it does not lie inside a colon-free q.
  lemma NextColon(g: string, q: string, rest: string, p: nat)
    requires ColonFree(q) && |g| < p < |g + ":" + q + rest| && (g + ":" + q + rest)[p] == ':'
    ensures p > |g| + |q|
  {
    var s := g + ":" + q + rest;
    assert forall i :: |g| < i <= |g| + |q| ==> s[i] == q[i - |g| - 1] && s[i] != ':';
  }

  // Two splits of one key: the shorter source id is followed by its kind inside the longer one.
  lemma ShorterSource(a: Edge, b: Edge)
    requires a.Key() == b.Key() && ColonFree(b.relation) && |b.from| < |a.from|
    ensures exists y: string :: a.from + ":" == b.from + ":" + b.relation + ":" + y
    ensures exists x: string :: ":" + b.to == x + ":" + a.relation + ":" + a.to
  {
    var head, tail := b.from + ":" + b.relation, ":" + a.relation + ":" + a.to;
    KeyParts(a);
    KeyParts(b);
    assert (a.from + tail)[|a.from|] == ':';
    NextColon(b.from, b.relation, ":" + b.to, |a.from|);
    var x := Regroup(head, ":" + b.to, a.from, tail);
    assert ":" + b.to == x + ":" + a.relation + ":" + a.to by {
      assert x + tail == x + ":" + a.relation + ":" + a.to;
    }
    var y := Regroup(head + ":", b.to, a.from + ":", a.relation + ":" + a.to);
  }

  lemma KeyParts(a: Edge)
    ensures a.Key() == a.from + (":" + a.relation + ":" + a.to)
    ensures a.Key() == (a.from + ":") + (a.relation + ":" + a.to)
    ensures a.Key() == (a.from + ":" + a.relation) + (":" + a.to)
    ensures a.Key() == (a.from + ":" + a.relation + ":") + a.to
  {
    ConcatAssociates(a.from, ":", a.relation + ":" + a.to);
    assert a.from + (":" + a.relation + ":" + a.to) == a.Key();
  }

  lemma SameSource(a: Edge, b: Edge)
    requires a.Key() == b.Key() && ColonFree(a.relation) && ColonFree(b.relation) && |a.from| == |b.from|
    ensures SameTriple(a, b)
  {
    KeyParts(a);
    KeyParts(b);
    var m := Regroup(a.from + ":", a.relation + ":" + a.to, b.from + ":", b.relation + ":" + b.to);
    assert a.from == (a.from + ":")[..|a.from|] && b.from == (b.from + ":")[..|b.from|];
    SplitAtColon(a.relation, a.to, b.relation, b.to);
    assert a.relation + (":" + a.to) == a.relation + ":" + a.to;
    assert b.relation + (":" + b.to) == b.relation + ":" + b.to;
  }

  /** An edge shares its key with no other exactly if no kind of relation stands between colons in its
      source id, closed by a colon, nor in its target id, opened by one. */
  lemma KeyIdentifiesIff(a: Edge, kinds: set<string>)
    requires a.relation in kinds && forall k :: k in kinds ==> ColonFree(k)
    ensures (forall b: Edge :: b.relation in kinds && b.Key() == a.Key() ==> SameTriple(a, b))
       <==> !HoldsKind(a.from + ":", kinds) && !HoldsKind(":" + a.to, kinds)
  {
    if x, k, y :| k in kinds && a.from + ":" == x + ":" + k + ":" + y {
      var b := Edge(x, k, y + a.relation + ":" + a.to, 1.0, {});
      assert b.Key() == (x + ":" + k + ":" + y) + a.relation + ":" + a.to == a.Key();
      assert |x| < |a.from|;
    } else if x, k, y :| k in kinds && ":" + a.to == x + ":" + k + ":" + y {
      var b := Edge(a.from + ":" + a.relation + x, k, y, 1.0, {});
      assert b.Key() == a.from + ":" + a.relation + (x + ":" + k + ":" + y) == a.Key();
      assert |b.from| > |a.from|;
    } else {
      forall b: Edge | b.relation in kinds && b.Key() == a.Key() ensures SameTriple(a, b) {
        if |b.from| < |a.from| {
          ShorterSource(a, b);
        } else if |a.from| < |b.from| {
          ShorterSource(b, a);
        } else {
          SameSource(a, b);
        }
      }
    }
  }

  /** With a colon inside a node id, two different edges share a key and are merged. */
  lemma KeysCanCollide()
    ensures exists a: Edge, b: Edge :: a.relation in RELATION_KINDS && b.relation in RELATION_KINDS
              && a.Key() == b.Key() && a.from != b.from && |AddAll([a, b])| == 1
  {
    var a := Edge("p", "uses", "q:uses:r", 1.0, {});
    var b := Edge("p:uses:q", "uses", "r", 1.0, {});
    assert a.Key() == "p:uses:q:uses:r" == b.Key();
    assert [a, b][..1] == [a] && [a][..0] == [];
    assert AddAll([a]) == [a];
    assert AddAll([a, b]) == Upsert([a], b);
  }
}
