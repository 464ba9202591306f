/**
 Damped confidence propagation: the traversal that causality/belief_dependency_graph.py and
 causality/principle_graph.py share, as a list of confidence changes, and its properties.
 */
module Propagation {
  import opened Common
  import opened Reals

  type Id = string

  datatype Relation = Supports | Weakens

  datatype Edge = Edge(source: Id, target: Id, relation: Relation, strength: real)

  const MAX_HOPS := 5
  const CUTOFF := 0.01

  /** How a delta passes over an edge, and how it fades before it is passed on. */
  datatype Law = Law(push: (Edge, real) -> real, damp: real -> real)

  /** A queue entry: a node, the delta its dependents are moved by, its distance from the source. */
  datatype Pulse = Pulse(id: Id, delta: real, hops: nat)

  /** One change: the node, the delta added before clamping, its distance from the source. */
  datatype Update = Update(id: Id, delta: real, hops: nat)

  function Dependents(edges: seq<Edge>, id: Id): seq<Edge> {
    if edges == [] then []
    else if edges[0].source == id then [edges[0]] + Dependents(edges[1..], id) else Dependents(edges[1..], id)
  }

  function Ids(us: seq<Update>): set<Id> {
    if us == [] then {} else Ids(us[..|us| - 1]) + {us[|us| - 1].id}
  }

  lemma {:induction false} IdsHave(us: seq<Update>)
    ensures forall i :: 0 <= i < |us| ==> us[i].id in Ids(us)
  {
    if us != [] {
      IdsHave(us[..|us| - 1]);
      assert forall i :: 0 <= i < |us| - 1 ==> us[..|us| - 1][i] == us[i];
    }
  }

  lemma {:induction false} IdsFrom(us: seq<Update>, x: Id) returns (i: nat)
    requires x in Ids(us)
    ensures i < |us| && us[i].id == x
  {
    i := |us| - 1;
    if us[i].id != x {
      i := IdsFrom(us[..i], x);
    }
  }

  lemma {:induction false} IdsAppend(a: seq<Update>, b: seq<Update>)
    ensures Ids(a + b) == Ids(a) + Ids(b)
  {
    if b == [] {
      assert a + b == a;
    } else {
      assert (a + b)[..|a + b| - 1] == a + b[..|b| - 1];
      IdsAppend(a, b[..|b| - 1]);
    }
  }

  // ----- the traversal

  function Push(law: Law, p: Pulse, e: Edge): Update {
    Update(e.target, law.push(e, p.delta), p.hops + 1)
  }

  /** The changes made while the edges out of one node are followed. */
  function Wave(law: Law, p: Pulse, out: seq<Edge>, known: set<Id>, visited: set<Id>): (us: seq<Update>)
    ensures Ids(us) <= known - visited
  {
    if out == [] then []
    else
      var us, e := Wave(law, p, out[..|out| - 1], known, visited), out[|out| - 1];
      if e.target in visited || e.target in Ids(us) || e.target !in known then us else us + [Push(law, p, e)]
  }

  lemma WaveShrinks(law: Law, p: Pulse, out: seq<Edge>, known: set<Id>, visited: set<Id>)
    ensures var us := Wave(law, p, out, known, visited);
      us != [] ==> known - (visited + Ids(us)) < known - visited
  {
    var us := Wave(law, p, out, known, visited);
    if us != [] {
      IdsHave(us);
      assert us[0].id in known - visited && us[0].id !in known - (visited + Ids(us));
    }
  }

  function PulseOf(law: Law, u: Update): Pulse { Pulse(u.id, law.damp(u.delta), u.hops) }

  function Pulses(law: Law, us: seq<Update>): (r: seq<Pulse>)
    ensures |r| == |us| && forall i :: 0 <= i < |us| ==> r[i] == PulseOf(law, us[i])
  {
    if us == [] then [] else Pulses(law, us[..|us| - 1]) + [PulseOf(law, us[|us| - 1])]
  }

  predicate Spent(p: Pulse) { p.hops >= MAX_HOPS || Abs(p.delta) < CUTOFF }

  /** All changes of the loop from a given queue on. */
  function Ripple(edges: seq<Edge>, law: Law, known: set<Id>, q: seq<Pulse>, visited: set<Id>): seq<Update>
    decreases known - visited, |q|
  {
    if q == [] then []
    else if Spent(q[0]) then Ripple(edges, law, known, q[1..], visited)
    else
      var us := Wave(law, q[0], Dependents(edges, q[0].id), known, visited);
      IdsHave(us);
      us + Ripple(edges, law, known, q[1..] + Pulses(law, us), visited + Ids(us))
  }

  function Traversal(edges: seq<Edge>, law: Law, known: set<Id>, source: Id, delta: real): seq<Update> {
    Ripple(edges, law, known, [Pulse(source, delta, 0)], {source})
  }

  // ----- its effect on the confidences

  type Confidences = map<Id, real>

  function Applied(conf: Confidences, us: seq<Update>): (r: Confidences)
    requires Ids(us) <= conf.Keys
    ensures r.Keys == conf.Keys
  {
    if us == [] then conf
    else
      var last := us[|us| - 1];
      var before := Applied(conf, us[..|us| - 1]);
      before[last.id := Clamp(before[last.id] + last.delta)]
  }

  predicate Once(us: seq<Update>) {
    forall i, j :: 0 <= i < j < |us| ==> us[i].id != us[j].id
  }

  /** Where no node is changed twice, each changed confidence is clamped once and all others stay. */
  lemma {:induction false} AppliedAt(conf: Confidences, us: seq<Update>)
    requires Ids(us) <= conf.Keys && Once(us)
    ensures forall i :: 0 <= i < |us| ==> us[i].id in conf && Applied(conf, us)[us[i].id] == Clamp(conf[us[i].id] + us[i].delta)
    ensures forall x :: x in conf && x !in Ids(us) ==> Applied(conf, us)[x] == conf[x]
  {
    if us != [] {
      var before, last := us[..|us| - 1], us[|us| - 1];
      AppliedAt(conf, before);
      if last.id in Ids(before) {
        var i := IdsFrom(before, last.id);
      }
      IdsHave(us);
      forall i | 0 <= i < |before| ensures us[i].id in conf && Applied(conf, us)[us[i].id] == Clamp(conf[us[i].id] + us[i].delta) {
        assert before[i] == us[i];
      }
    }
  }

  // ----- each node at most once, never the source

  lemma {:induction false} WaveOnce(law: Law, p: Pulse, out: seq<Edge>, known: set<Id>, visited: set<Id>)
    ensures Once(Wave(law, p, out, known, visited))
    ensures forall u :: u in Wave(law, p, out, known, visited) ==> u.hops == p.hops + 1
  {
    if out != [] {
      WaveOnce(law, p, out[..|out| - 1], known, visited);
      var us := Wave(law, p, out[..|out| - 1], known, visited);
      IdsHave(us);
    }
  }

  lemma OnceAppend(a: seq<Update>, b: seq<Update>)
    requires Once(a) && Once(b) && Ids(a) !! Ids(b)
    ensures Once(a + b) && Ids(a + b) == Ids(a) + Ids(b)
  {
    IdsHave(a);
    IdsHave(b);
    IdsAppend(a, b);
  }

  lemma {:induction false} RippleOnce(edges: seq<Edge>, law: Law, known: set<Id>, q: seq<Pulse>, visited: set<Id>)
    ensures var us := Ripple(edges, law, known, q, visited); Once(us) && Ids(us) <= known - visited
    decreases known - visited, |q|
  {
    if q != [] {
      if Spent(q[0]) {
        RippleOnce(edges, law, known, q[1..], visited);
      } else {
        var us := Wave(law, q[0], Dependents(edges, q[0].id), known, visited);
        WaveOnce(law, q[0], Dependents(edges, q[0].id), known, visited);
        IdsHave(us);
        RippleOnce(edges, law, known, q[1..] + Pulses(law, us), visited + Ids(us));
        OnceAppend(us, Ripple(edges, law, known, q[1..] + Pulses(law, us), visited + Ids(us)));
      }
    }
  }

  // ----- the law of both graphs

  function Signed(r: Relation, x: real): real { if r == Supports then x else -x }

  /** An edge scales a delta by its strength and turns it if it weakens. */
  function PushBy(e: Edge, x: real): real { Signed(e.relation, x * e.strength) }

  /** Every hop scales by the damping factor. */
  function FadeBy(damping: real, x: real): real { x * damping }

  function DampedLaw(damping: real): Law {
    Law((e: Edge, x: real) => PushBy(e, x), (x: real) => FadeBy(damping, x))
  }
}
