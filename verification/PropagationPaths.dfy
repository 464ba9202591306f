/**
 What a propagation changes and by how much, told by the trails of edges that lead away from its
 source: which nodes are reached, over which edges, and with what sign and size.
 */
module PropagationPaths {
  import opened Common
  import opened Propagation
  import opened PropagationProperties
  import opened Reals

  // ----- trails

  /** A chain of stored edges from the source to v. */
  ghost predicate Trail(edges: seq<Edge>, source: Id, v: Id, path: seq<Edge>) {
    && path != [] && path[0].source == source && path[|path| - 1].target == v
    && (forall i :: 0 <= i < |path| ==> path[i] in edges)
    && (forall i :: 0 <= i < |path| - 1 ==> path[i].target == path[i + 1].source)
  }

  function Strengths(path: seq<Edge>): real {
    if path == [] then 1.0 else Strengths(path[..|path| - 1]) * path[|path| - 1].strength
  }

  function Weakenings(path: seq<Edge>): nat {
    if path == [] then 0 else Weakenings(path[..|path| - 1]) + if path[|path| - 1].relation == Weakens then 1 else 0
  }

  function Scaled(delta: real, strengths: real, fade: real): real { delta * strengths * fade }

  /** delta * strengths * damping^(h-1), negated exactly if an odd number of the h edges weakens. */
  function Transmitted(path: seq<Edge>, delta: real, damping: real): real
    requires path != []
  {
    var size := Scaled(delta, Strengths(path), Power(damping, |path| - 1));
    if Weakenings(path) % 2 == 0 then size else -size
  }

  lemma PowerZero(x: real, n: nat)
    requires n == 0
    ensures Power(x, n) == 1.0
  {
  }

  lemma FirstEdge(path: seq<Edge>, delta: real, damping: real)
    requires |path| == 1
    ensures Transmitted(path, delta, damping) == PushBy(path[0], delta)
  {
    assert path[..|path| - 1] == [];
    assert Strengths(path) == path[0].strength;
    PowerZero(damping, |path| - 1);
    assert Scaled(delta, path[0].strength, 1.0) == delta * path[0].strength;
    assert Weakenings([]) == 0;
    assert Weakenings(path) == if path[0].relation == Weakens then 1 else 0;
    assert Scaled(delta, Strengths(path), Power(damping, |path| - 1)) == delta * path[0].strength;
  }

  lemma ScaledGrows(delta: real, s: real, p: real, damping: real, t: real)
    ensures Scaled(delta, s * t, p * damping) == Scaled(delta, s, p) * damping * t
  {
    calc {
      delta * (s * t) * (p * damping);
      { MulAssoc(delta, s, t); }
      delta * s * t * (p * damping);
      { MulAssoc(delta * s, t, p * damping); MulComm(t, p * damping); }
      delta * s * (p * damping * t);
      { MulAssoc(delta * s, p * damping, t); }
      delta * s * (p * damping) * t;
      { MulAssoc(delta * s, p, damping); }
      delta * s * p * damping * t;
    }
  }

  lemma TurnedPush(e: Edge, damping: real, size: real)
    ensures PushBy(e, FadeBy(damping, size)) == Signed(e.relation, size * damping * e.strength)
    ensures PushBy(e, FadeBy(damping, -size)) == -Signed(e.relation, size * damping * e.strength)
  {
    MulNeg(size, damping);
    MulNeg(size * damping, e.strength);
  }

  lemma NextEdge(path: seq<Edge>, e: Edge, delta: real, damping: real)
    requires path != []
    ensures Transmitted(path + [e], delta, damping) == PushBy(e, FadeBy(damping, Transmitted(path, delta, damping)))
  {
    var s, p := Strengths(path), Power(damping, |path| - 1);
    assert (path + [e])[..|path|] == path;
    assert Strengths(path + [e]) == s * e.strength && Power(damping, |path|) == p * damping;
    ScaledGrows(delta, s, p, damping, e.strength);
    TurnedPush(e, damping, Scaled(delta, s, p));
  }

  // ----- every change is transmitted along a trail

  ghost predicate Delivers(edges: seq<Edge>, source: Id, delta: real, damping: real, u: Update) {
    exists path :: Trail(edges, source, u.id, path) && |path| == u.hops && u.delta == Transmitted(path, delta, damping)
  }

  ghost predicate Carries(edges: seq<Edge>, source: Id, delta: real, damping: real, p: Pulse) {
    if p.hops == 0 then p == Pulse(source, delta, 0)
    else exists path :: Trail(edges, source, p.id, path) && |path| == p.hops
                        && p.delta == FadeBy(damping, Transmitted(path, delta, damping))
  }

  lemma PushDelivers(edges: seq<Edge>, source: Id, delta: real, damping: real, p: Pulse, e: Edge)
    requires Carries(edges, source, delta, damping, p) && e in edges && e.source == p.id
    ensures Delivers(edges, source, delta, damping, Push(DampedLaw(damping), p, e))
  {
    if p.hops == 0 {
      var path := [e];
      FirstEdge(path, delta, damping);
      assert Trail(edges, source, e.target, path);
    } else {
      var path :| Trail(edges, source, p.id, path) && |path| == p.hops
        && p.delta == FadeBy(damping, Transmitted(path, delta, damping));
      NextEdge(path, e, delta, damping);
      TrailGrows(edges, source, path, e);
    }
  }

  lemma TrailGrows(edges: seq<Edge>, source: Id, path: seq<Edge>, e: Edge)
    requires Trail(edges, source, e.source, path) && e in edges
    ensures Trail(edges, source, e.target, path + [e])
  {
  }

  lemma {:induction false} WaveDelivers(edges: seq<Edge>, source: Id, delta: real, damping: real, p: Pulse, out: seq<Edge>,
                                        known: set<Id>, visited: set<Id>)
    requires Carries(edges, source, delta, damping, p) && forall e :: e in out ==> e in edges && e.source == p.id
    ensures forall u :: u in Wave(DampedLaw(damping), p, out, known, visited) ==> Delivers(edges, source, delta, damping, u)
  {
    if out != [] {
      WaveDelivers(edges, source, delta, damping, p, out[..|out| - 1], known, visited);
      PushDelivers(edges, source, delta, damping, p, out[|out| - 1]);
    }
  }

  lemma PulsesCarry(edges: seq<Edge>, source: Id, delta: real, damping: real, us: seq<Update>)
    requires forall u :: u in us ==> u.hops > 0 && Delivers(edges, source, delta, damping, u)
    ensures forall p :: p in Pulses(DampedLaw(damping), us) ==> Carries(edges, source, delta, damping, p)
  {
    forall p | p in Pulses(DampedLaw(damping), us) ensures Carries(edges, source, delta, damping, p) {
      var i :| 0 <= i < |us| && Pulses(DampedLaw(damping), us)[i] == p;
      PulseCarries(edges, source, delta, damping, us[i]);
    }
  }

  lemma PulseCarries(edges: seq<Edge>, source: Id, delta: real, damping: real, u: Update)
    requires u.hops > 0 && Delivers(edges, source, delta, damping, u)
    ensures Carries(edges, source, delta, damping, PulseOf(DampedLaw(damping), u))
  {
    var path :| Trail(edges, source, u.id, path) && |path| == u.hops && u.delta == Transmitted(path, delta, damping);
    assert PulseOf(DampedLaw(damping), u).delta == FadeBy(damping, u.delta);
  }

  lemma {:induction false} DependentsAre(edges: seq<Edge>, id: Id)
    ensures forall e :: e in Dependents(edges, id) <==> e in edges && e.source == id
  {
    if edges != [] {
      DependentsAre(edges[1..], id);
    }
  }

  lemma {:induction false} RippleDelivers(edges: seq<Edge>, source: Id, delta: real, damping: real, known: set<Id>,
                                          q: seq<Pulse>, visited: set<Id>)
    requires forall p :: p in q ==> Carries(edges, source, delta, damping, p)
    ensures forall u :: u in Ripple(edges, DampedLaw(damping), known, q, visited) ==> Delivers(edges, source, delta, damping, u)
    decreases known - visited, |q|
  {
    if q != [] {
      var law := DampedLaw(damping);
      if Spent(q[0]) {
        RippleDelivers(edges, source, delta, damping, known, q[1..], visited);
      } else {
        var out := Dependents(edges, q[0].id);
        var us := Wave(law, q[0], out, known, visited);
        DependentsAre(edges, q[0].id);
        WaveDelivers(edges, source, delta, damping, q[0], out, known, visited);
        WaveOnce(law, q[0], out, known, visited);
        WaveShrinks(law, q[0], out, known, visited);
        PulsesCarry(edges, source, delta, damping, us);
        NextQueueCarries(edges, source, delta, damping, q, Pulses(law, us));
        assert us == [] ==> |q[1..] + Pulses(law, us)| < |q| && visited + Ids(us) == visited;
        RippleDelivers(edges, source, delta, damping, known, q[1..] + Pulses(law, us), visited + Ids(us));
      }
    }
  }

  lemma NextQueueCarries(edges: seq<Edge>, source: Id, delta: real, damping: real, q: seq<Pulse>, more: seq<Pulse>)
    requires q != [] && (forall p :: p in q ==> Carries(edges, source, delta, damping, p))
    requires forall p :: p in more ==> Carries(edges, source, delta, damping, p)
    ensures forall p :: p in q[1..] + more ==> Carries(edges, source, delta, damping, p)
  {
    forall p | p in q[1..] + more ensures Carries(edges, source, delta, damping, p) {
      assert p in q[1..] ==> p in q;
    }
  }

  // ----- and every edge out of a node that is still loud enough is followed

  lemma {:induction false} WaveCovers(law: Law, p: Pulse, out: seq<Edge>, known: set<Id>, visited: set<Id>, e: Edge)
    requires e in out && e.target in known
    ensures e.target in visited + Ids(Wave(law, p, out, known, visited))
  {
    var n := |out| - 1;
    var us := Wave(law, p, out[..n], known, visited);
    if out[n] != e {
      WaveCovers(law, p, out[..n], known, visited, e);
    }
    IdsSnoc(us, Push(law, p, out[n]));
  }

  lemma {:induction false} QueueSpreads(edges: seq<Edge>, law: Law, known: set<Id>, q: seq<Pulse>, visited: set<Id>,
                                       p: Pulse, e: Edge)
    requires p in q && !Spent(p) && e in edges && e.source == p.id && e.target in known
    ensures e.target in visited + Ids(Ripple(edges, law, known, q, visited))
    decreases known - visited, |q|
  {
    if Spent(q[0]) {
      QueueSpreads(edges, law, known, q[1..], visited, p, e);
    } else {
      var out := Dependents(edges, q[0].id);
      var us := Wave(law, q[0], out, known, visited);
      var next, seen := q[1..] + Pulses(law, us), visited + Ids(us);
      DependentsAre(edges, q[0].id);
      WaveShrinks(law, q[0], out, known, visited);
      assert us == [] ==> |next| < |q| && seen == visited;
      IdsAppend(us, Ripple(edges, law, known, next, seen));
      if p == q[0] {
        WaveCovers(law, p, out, known, visited, e);
      } else {
        assert p in next;
        QueueSpreads(edges, law, known, next, seen, p, e);
      }
    }
  }

  lemma {:induction false} RippleSpreads(edges: seq<Edge>, law: Law, known: set<Id>, q: seq<Pulse>, visited: set<Id>,
                                        u: Update, e: Edge)
    requires u in Ripple(edges, law, known, q, visited) && !Spent(PulseOf(law, u))
    requires e in edges && e.source == u.id && e.target in known
    ensures e.target in visited + Ids(Ripple(edges, law, known, q, visited))
    decreases known - visited, |q|
  {
    if Spent(q[0]) {
      RippleSpreads(edges, law, known, q[1..], visited, u, e);
    } else {
      var out := Dependents(edges, q[0].id);
      var us := Wave(law, q[0], out, known, visited);
      var next, seen := q[1..] + Pulses(law, us), visited + Ids(us);
      WaveShrinks(law, q[0], out, known, visited);
      assert us == [] ==> |next| < |q| && seen == visited;
      IdsAppend(us, Ripple(edges, law, known, next, seen));
      if u in us {
        var i :| 0 <= i < |us| && us[i] == u;
        assert Pulses(law, us)[i] == PulseOf(law, u) && Pulses(law, us)[i] in next;
        QueueSpreads(edges, law, known, next, seen, PulseOf(law, u), e);
      } else {
        RippleSpreads(edges, law, known, next, seen, u, e);
      }
    }
  }

  // ----- the direct dependents of the source

  /** The first stored edge from one node to another. */
  function FirstTo(edges: seq<Edge>, from: Id, to: Id): (e: Option<Edge>)
    ensures e.Some? ==> e.value in edges && e.value.source == from && e.value.target == to
    ensures e.None? ==> forall d :: d in edges ==> d.source != from || d.target != to
  {
    if edges == [] then None
    else if edges[0].source == from && edges[0].target == to then Some(edges[0])
    else FirstTo(edges[1..], from, to)
  }

  lemma {:induction false} FirstToAmong(edges: seq<Edge>, from: Id, to: Id)
    ensures FirstTo(Dependents(edges, from), from, to) == FirstTo(edges, from, to)
  {
    if edges != [] {
      FirstToAmong(edges[1..], from, to);
      var rest := Dependents(edges[1..], from);
      assert ([edges[0]] + rest)[1..] == rest;
    }
  }

  lemma {:induction false} FirstToSnoc(edges: seq<Edge>, e: Edge, from: Id, to: Id)
    ensures FirstTo(edges + [e], from, to)
         == if FirstTo(edges, from, to).Some? then FirstTo(edges, from, to)
            else if e.source == from && e.target == to then Some(e) else None
  {
    if edges == [] {
      assert edges + [e] == [e] && [e][1..] == [];
    } else {
      FirstToSnoc(edges[1..], e, from, to);
      assert (edges + [e])[1..] == edges[1..] + [e];
    }
  }

  lemma {:induction false} WaveByFirst(law: Law, p: Pulse, out: seq<Edge>, known: set<Id>, visited: set<Id>, v: Id)
    requires (forall e :: e in out ==> e.source == p.id) && v in known && v !in visited && FirstTo(out, p.id, v).Some?
    ensures Push(law, p, FirstTo(out, p.id, v).value) in Wave(law, p, out, known, visited)
  {
    var n := |out| - 1;
    var e := out[n];
    assert out == out[..n] + [e];
    FirstToSnoc(out[..n], e, p.id, v);
    if FirstTo(out[..n], p.id, v).Some? {
      WaveByFirst(law, p, out[..n], known, visited, v);
    } else {
      WaveWithout(law, p, out[..n], known, visited, v);
    }
  }

  lemma {:induction false} WaveWithout(law: Law, p: Pulse, out: seq<Edge>, known: set<Id>, visited: set<Id>, v: Id)
    requires forall e :: e in out ==> e.target != v
    ensures v !in Ids(Wave(law, p, out, known, visited))
  {
    if out != [] {
      var n := |out| - 1;
      WaveWithout(law, p, out[..n], known, visited, v);
      IdsSnoc(Wave(law, p, out[..n], known, visited), Push(law, p, out[n]));
    }
  }

  lemma IdsSnoc(us: seq<Update>, u: Update)
    ensures Ids(us + [u]) == Ids(us) + {u.id}
  {
    assert (us + [u])[..|us|] == us;
  }

  // ----- the propagation as a whole

  /** Every change has a trail of one to five edges from the source over which it was transmitted. */
  lemma EveryChangeIsTransmitted(edges: seq<Edge>, known: set<Id>, damping: real, source: Id, delta: real, u: Update)
    requires u in Traversal(edges, DampedLaw(damping), known, source, delta)
    ensures u.id in known && u.id != source && 1 <= u.hops <= 5
    ensures exists path :: Trail(edges, source, u.id, path) && |path| == u.hops && u.delta == Transmitted(path, delta, damping)
  {
    RippleDelivers(edges, source, delta, damping, known, [Pulse(source, delta, 0)], {source});
    TraversalShape(edges, known, damping, source, delta);
    IdsHave(Traversal(edges, DampedLaw(damping), known, source, delta));
    assert Delivers(edges, source, delta, damping, u);
  }

  lemma SourceReaches(edges: seq<Edge>, law: Law, known: set<Id>, source: Id, delta: real, v: Id)
    requires Abs(delta) >= 0.01 && v in known && v != source && FirstTo(edges, source, v).Some?
    ensures Push(law, Pulse(source, delta, 0), FirstTo(edges, source, v).value) in Traversal(edges, law, known, source, delta)
  {
    var p, out := Pulse(source, delta, 0), Dependents(edges, source);
    DependentsAre(edges, source);
    FirstToAmong(edges, source, v);
    WaveByFirst(law, p, out, known, {source}, v);
  }

  /** delta times the strength of the edge, turned if the edge weakens. */
  function OverEdge(e: Edge, delta: real): real {
    match e.relation
    case Supports => delta * e.strength
    case Weakens => -(delta * e.strength)
  }

  /** A delta of at least 0.01 changes every known dependent of the source, at hop one, over the first edge to it. */
  lemma DirectDependentsChange(edges: seq<Edge>, known: set<Id>, damping: real, source: Id, delta: real, v: Id)
    requires Abs(delta) >= 0.01 && v in known && v != source && FirstTo(edges, source, v).Some?
    ensures Update(v, OverEdge(FirstTo(edges, source, v).value, delta), 1)
         in Traversal(edges, DampedLaw(damping), known, source, delta)
  {
    var e := FirstTo(edges, source, v).value;
    SourceReaches(edges, DampedLaw(damping), known, source, delta, v);
    assert Push(DampedLaw(damping), Pulse(source, delta, 0), e) == Update(v, OverEdge(e, delta), 1);
  }

  /** A change is passed on to every known dependent as long as it is short of five hops and, damped, at least 0.01. */
  lemma LoudChangesSpread(edges: seq<Edge>, known: set<Id>, damping: real, source: Id, delta: real, u: Update, e: Edge)
    requires u in Traversal(edges, DampedLaw(damping), known, source, delta) && u.hops < 5 && Abs(u.delta * damping) >= 0.01
    requires e in edges && e.source == u.id && e.target in known && e.target != source
    ensures e.target in Ids(Traversal(edges, DampedLaw(damping), known, source, delta))
  {
    RippleSpreads(edges, DampedLaw(damping), known, [Pulse(source, delta, 0)], {source}, u, e);
  }

  /** Over some trail of at most five edges v is moved to c and clamped. */
  ghost predicate MovedTo(edges: seq<Edge>, conf: Confidences, damping: real, source: Id, delta: real, v: Id, c: real)
    requires v in conf
  {
    v != source && exists path ::
      Trail(edges, source, v, path) && |path| <= 5 && c == Clamp(conf[v] + Transmitted(path, delta, damping))
  }

  /** The confidences afterwards: each is the old one, or the old one moved along a trail and clamped. */
  lemma ConfidencesAfter(edges: seq<Edge>, conf: Confidences, damping: real, source: Id, delta: real, v: Id)
    requires v in conf
    ensures var us := Traversal(edges, DampedLaw(damping), conf.Keys, source, delta);
      Ids(us) <= conf.Keys
      && (Applied(conf, us)[v] == conf[v] || MovedTo(edges, conf, damping, source, delta, v, Applied(conf, us)[v]))
  {
    var us := Traversal(edges, DampedLaw(damping), conf.Keys, source, delta);
    RippleOnce(edges, DampedLaw(damping), conf.Keys, [Pulse(source, delta, 0)], {source});
    if v in Ids(us) {
      var i := IdsFrom(us, v);
      AppliedTo(conf, us, i);
      EveryChangeIsTransmitted(edges, conf.Keys, damping, source, delta, us[i]);
    } else {
      AppliedAt(conf, us);
    }
  }

  /** A known direct dependent moves by the strength of the first edge to it, against the delta if that edge weakens. */
  lemma DependentAfter(edges: seq<Edge>, conf: Confidences, damping: real, source: Id, delta: real, v: Id)
    requires Abs(delta) >= 0.01 && v in conf && v != source && FirstTo(edges, source, v).Some?
    ensures var us := Traversal(edges, DampedLaw(damping), conf.Keys, source, delta);
      && Ids(us) <= conf.Keys
      && Applied(conf, us)[v] == Clamp(conf[v] + OverEdge(FirstTo(edges, source, v).value, delta))
  {
    var us := Traversal(edges, DampedLaw(damping), conf.Keys, source, delta);
    RippleOnce(edges, DampedLaw(damping), conf.Keys, [Pulse(source, delta, 0)], {source});
    DirectDependentsChange(edges, conf.Keys, damping, source, delta, v);
    AppliedIn(conf, us, Update(v, OverEdge(FirstTo(edges, source, v).value, delta), 1));
  }

  lemma AppliedIn(conf: Confidences, us: seq<Update>, u: Update)
    requires Ids(us) <= conf.Keys && Once(us) && u in us
    ensures u.id in conf && Applied(conf, us)[u.id] == Clamp(conf[u.id] + u.delta)
  {
    var i :| 0 <= i < |us| && us[i] == u;
    AppliedTo(conf, us, i);
  }
}
