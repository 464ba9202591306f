/**
 graph/temporal_graph.py: relations with a time window. Driven by the same assignments as the
 state tracker, with entity, attribute and value as label, relation and target, it tells the same history.
 */
module TemporalGraphs {
  import opened Common
  import opened Text
  import opened Timeline
  import opened TimelineProperties

  datatype Relation = Relation(fromLabel: string, relation: string, toLabel: string, validFrom: int,
                               validTo: Option<int>, confidence: real, sources: seq<int>)

  function KeyOfRelation(e: Relation): Key { Key(Norm(e.fromLabel), e.relation) }

  predicate Holds(e: Relation, t: int) { e.validFrom <= t && (e.validTo.None? || t < e.validTo.value) }

  function Shut(e: Relation, k: Key, target: string, t: int): Relation {
    if e.validTo.None? && KeyOfRelation(e) == k && Norm(e.toLabel) != target then e.(validTo := Some(t)) else e
  }

  function ShutOthers(es: seq<Relation>, k: Key, target: string, t: int): (r: seq<Relation>)
    ensures |r| == |es| && forall i :: 0 <= i < |es| ==> r[i] == Shut(es[i], k, target, t)
  {
    seq(|es|, i requires 0 <= i < |es| => Shut(es[i], k, target, t))
  }

  function NewRelation(a: Assignment): Relation {
    Relation(a.entity, Norm(a.attribute), a.value, a.at, None, a.confidence, Sources(a.source))
  }

  function Relate(es: seq<Relation>, a: Assignment, closePrevious: bool): seq<Relation> {
    (if closePrevious then ShutOthers(es, Key(Norm(a.entity), Norm(a.attribute)), Norm(a.value), a.at) else es)
    + [NewRelation(a)]
  }

  function RelateAll(es: seq<Relation>, assignments: seq<Assignment>): seq<Relation> {
    if assignments == [] then es
    else Relate(RelateAll(es, assignments[..|assignments| - 1]), assignments[|assignments| - 1], true)
  }

  lemma SameKey(a: Assignment)
    ensures KeyOf(a) == Key(Norm(a.entity), Norm(a.attribute)) == KeyOfRelation(NewRelation(a))
  {
    OrderOfStripping(a.entity);
    OrderOfStripping(a.attribute);
  }

  // ----- agreement with the assignments

  /** No window starts or ends after now. */
  ghost predicate Past(es: seq<Relation>, now: int) {
    forall i :: 0 <= i < |es| ==> es[i].validFrom <= now && (es[i].validTo.Some? ==> es[i].validTo.value <= now)
  }

  /** Relation i is about k and holds at t. */
  predicate HoldsFor(es: seq<Relation>, k: Key, t: int, i: nat)
    requires i < |es|
  {
    KeyOfRelation(es[i]) == k && Holds(es[i], t)
  }

  /** What holds for k at t is v, if anything; repeated targets may make several relations hold. */
  ghost predicate Shows(es: seq<Relation>, k: Key, t: int, v: Option<string>) {
    && (forall i: nat :: i < |es| && HoldsFor(es, k, t, i) ==> Some(Norm(es[i].toLabel)) == v)
    && (v.Some? ==> exists i: nat :: i < |es| && HoldsFor(es, k, t, i))
  }

  lemma RelatePast(es: seq<Relation>, a: Assignment)
    requires Past(es, a.at)
    ensures Past(Relate(es, a, true), a.at)
  {}

  // Which of the old relations still hold: before the new time all, from then on those with the new target.
  lemma StillHolds(es: seq<Relation>, a: Assignment, k: Key, t: int, i: nat)
    requires Past(es, a.at) && i < |es|
    ensures HoldsFor(Relate(es, a, true), k, t, i) <==>
      HoldsFor(es, k, t, i) && (KeyOf(a) == k && a.at <= t ==> Norm(es[i].toLabel) == Norm(a.value))
  {
    SameKey(a);
    assert Relate(es, a, true)[i] == Shut(es[i], KeyOf(a), Norm(a.value), a.at);
  }

  lemma RelateStep(es: seq<Relation>, a: Assignment, k: Key, t: int, v: Option<string>)
    requires Past(es, a.at) && Shows(es, k, t, v)
    ensures Shows(Relate(es, a, true), k, t, if KeyOf(a) == k && a.at <= t then Some(Norm(a.value)) else v)
  {
    var after := Relate(es, a, true);
    var n := |es|;
    SameKey(a);
    assert after[n] == NewRelation(a);
    assert HoldsFor(after, k, t, n) <==> KeyOf(a) == k && a.at <= t;
    forall i: nat | i < n && HoldsFor(after, k, t, i)
      ensures Some(Norm(after[i].toLabel)) == if KeyOf(a) == k && a.at <= t then Some(Norm(a.value)) else v
    {
      StillHolds(es, a, k, t, i);
    }
    if !(KeyOf(a) == k && a.at <= t) && v.Some? {
      var i: nat :| i < n && HoldsFor(es, k, t, i);
      StillHolds(es, a, k, t, i);
    }
  }

  /** At every time, what the graph shows is the last value assigned by then. */
  lemma {:induction false} GraphTellsAssignments(assignments: seq<Assignment>, k: Key, t: int)
    requires Ordered(assignments)
    ensures Shows(RelateAll([], assignments), k, t, NormOf(LastAssigned(assignments, k, t)))
    ensures assignments != [] ==> Past(RelateAll([], assignments), assignments[|assignments| - 1].at)
  {
    if assignments != [] {
      var n := |assignments| - 1;
      GraphTellsAssignments(assignments[..n], k, t);
      RelatePast(RelateAll([], assignments[..n]), assignments[n]);
      RelateStep(RelateAll([], assignments[..n]), assignments[n], k, t, NormOf(LastAssigned(assignments[..n], k, t)));
    }
  }

  /** Driven by the same assignments, graph and tracker agree at every time: all relations of a key that hold
      then have one normalised target, that of at_time(), and there is one exactly when at_time() finds a snapshot. */
  lemma GraphAgreesWithTracker(assignments: seq<Assignment>, increment: real, k: Key, t: int)
    requires Ordered(assignments)
    ensures Shows(RelateAll([], assignments), k, t,
                  NormOf(ValueOf(Pick(TransitAll(EMPTY, assignments, increment).snaps, CoveringOf(k, t)))))
  {
    GraphTellsAssignments(assignments, k, t);
    AtTimeIsLastAssigned(assignments, increment, k, t);
  }

  // ----- the classes

  class TemporalEdge {
    const fromLabel: string
    const relation: string
    const toLabel: string
    const validFrom: int
    var validTo: Option<int>
    const confidence: real
    const sources: seq<int>

    constructor (fromLabel: string, relation: string, toLabel: string, validFrom: int, confidence: real, sources: seq<int>)
      ensures View() == Relation(fromLabel, relation, toLabel, validFrom, None, confidence, sources)
    {
      this.fromLabel, this.relation, this.toLabel := fromLabel, relation, toLabel;
      this.validFrom, this.validTo, this.confidence, this.sources := validFrom, None, confidence, sources;
    }

    function View(): Relation
      reads this
    {
      Relation(fromLabel, relation, toLabel, validFrom, validTo, confidence, sources)
    }

    method Close(t: int)
      modifies this
      ensures View() == old(View()).(validTo := Some(t))
    {
      validTo := Some(t);
    }
  }

  ghost function Views(es: seq<TemporalEdge>): (r: seq<Relation>)
    reads es
    ensures |r| == |es| && forall i :: 0 <= i < |es| ==> r[i] == es[i].View()
  {
    seq(|es|, i requires 0 <= i < |es| reads es => es[i].View())
  }

  class TemporalGraph {
    var edges: seq<TemporalEdge>

    constructor ()
      ensures Valid() && Views(edges) == []
    {
      edges := [];
    }

    ghost predicate Valid()
      reads this
    {
      Distinct(edges)
    }

    // Closes the active edges with the same source and relation but another target.
    method CloseOthers(k: Key, target: string, t: int)
      requires Valid()
      modifies edges
      ensures Views(edges) == ShutOthers(old(Views(edges)), k, target, t)
    {
      ghost var before := Views(edges);
      var i := 0;
      while i < |edges|
        invariant i <= |edges|
        invariant forall j :: 0 <= j < i ==> edges[j].View() == Shut(before[j], k, target, t)
        invariant forall j :: i <= j < |edges| ==> edges[j].View() == before[j]
      {
        var e := edges[i];
        if e.validTo.None? && Norm(e.fromLabel) == k.entity && e.relation == k.attribute && Norm(e.toLabel) != target {
          e.Close(t);
        }
        i := i + 1;
      }
    }

    method AddRelation(a: Assignment, closePrevious: bool) returns (made: TemporalEdge)
      requires Valid()
      modifies this, edges
      ensures Valid() && fresh(made) && edges == old(edges) + [made]
      ensures made.View() == Relation(a.entity, Norm(a.attribute), a.value, a.at, None, a.confidence,
                                      if a.source.Some? then [a.source.value] else [])
      ensures Views(edges) == Relate(old(Views(edges)), a, closePrevious)
    {
      var fromN, relN, toN := Norm(a.entity), Norm(a.attribute), Norm(a.value);
      if closePrevious {
        CloseOthers(Key(fromN, relN), toN, a.at);
      }
      ghost var shut := Views(edges);
      made := new TemporalEdge(a.entity, relN, a.value, a.at, a.confidence, Sources(a.source));
      assert made !in edges;
      edges := edges + [made];
      assert Views(edges) == shut + [NewRelation(a)];
    }

    /** The edges of a label that hold at t, in insertion order; no relation, or an empty one, means any. */
    function RelationsAtTime(fromLabel: string, t: int, relation: Option<string>): (found: seq<TemporalEdge>)
      reads this, edges
      ensures forall e :: e in found ==> e in edges
      ensures forall e :: e in edges ==>
        (e in found <==> Norm(e.fromLabel) == Norm(fromLabel) && Holds(e.View(), t)
                         && (relation.Some? && relation.value != "" ==> e.relation == Norm(relation.value)))
    {
      Matching(edges, fromLabel, t, relation)
    }
  }

  function Matching(es: seq<TemporalEdge>, fromLabel: string, t: int, relation: Option<string>): (found: seq<TemporalEdge>)
    reads es
    ensures forall e :: e in found ==> e in es
    ensures forall e :: e in es ==>
      (e in found <==> Norm(e.fromLabel) == Norm(fromLabel) && Holds(e.View(), t)
                       && (relation.Some? && relation.value != "" ==> e.relation == Norm(relation.value)))
  {
    if es == [] then []
    else
      var e := es[|es| - 1];
      assert es == es[..|es| - 1] + [e];
      Matching(es[..|es| - 1], fromLabel, t, relation) +
      (if Norm(e.fromLabel) == Norm(fromLabel) && Holds(e.View(), t)
          && (relation.Some? && relation.value != "" ==> e.relation == Norm(relation.value))
       then [e] else [])
  }

  /** A point-in-time query of one relation returns edges with the one target shown, and some exactly when there is one. */
  lemma FoundAsShown(g: TemporalGraph, fromLabel: string, t: int, relation: string, v: Option<string>)
    requires relation != "" && Shows(Views(g.edges), Key(Norm(fromLabel), Norm(relation)), t, v)
    ensures var found := g.RelationsAtTime(fromLabel, t, Some(relation));
            (forall e :: e in found ==> Some(Norm(e.toLabel)) == v) && (found != [] <==> v.Some?)
  {
    var found := g.RelationsAtTime(fromLabel, t, Some(relation));
    var es, k := Views(g.edges), Key(Norm(fromLabel), Norm(relation));
    forall e | e in found ensures Some(Norm(e.toLabel)) == v {
      var i: nat :| i < |g.edges| && g.edges[i] == e;
      assert HoldsFor(es, k, t, i);
    }
    if found != [] {
      assert found[0] in found;
    }
    if v.Some? {
      var i: nat :| i < |es| && HoldsFor(es, k, t, i);
      assert g.edges[i] in found;
    }
  }
}
