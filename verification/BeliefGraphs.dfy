/**
 The two stores that run the traversal: causality/belief_dependency_graph.py and
 causality/principle_graph.py.
 */
module BeliefGraphs {
  import opened Common
  import opened Reals
  import opened Propagation
  import opened PropagationProperties

  /** One reported change. */
  datatype Result = Result(id: Id, oldConfidence: real, newConfidence: real, hops: nat)

  function Rendered(conf: Confidences, us: seq<Update>): seq<Result>
    requires Ids(us) <= conf.Keys
  {
    if us == [] then []
    else
      var before, u := us[..|us| - 1], us[|us| - 1];
      Rendered(conf, before) + [Result(u.id, Applied(conf, before)[u.id], Applied(conf, us)[u.id], u.hops)]
  }

  /** Reported values are those before and after the whole propagation, one entry per change in order. */
  lemma {:induction false} RenderedAt(conf: Confidences, us: seq<Update>)
    requires Ids(us) <= conf.Keys && Once(us)
    ensures |Rendered(conf, us)| == |us|
    ensures forall i :: 0 <= i < |us| ==>
      (us[i].id in conf
       && Rendered(conf, us)[i] == Result(us[i].id, conf[us[i].id], Applied(conf, us)[us[i].id], us[i].hops))
  {
    if us != [] {
      var before := us[..|us| - 1];
      RenderedAt(conf, before);
      AppliedAt(conf, before);
      AppliedAt(conf, us);
      if us[|us| - 1].id in Ids(before) {
        var i := IdsFrom(before, us[|us| - 1].id);
      }
      forall i | 0 <= i < |before| ensures us[i].id in conf && Applied(conf, us)[us[i].id] == Applied(conf, before)[us[i].id] {
        assert before[i] == us[i];
      }
    }
  }

  lemma ClampMovesLess(c: real, d: real)
    requires Unit(c)
    ensures Abs(Clamp(c + d) - c) <= Abs(d)
  {
  }

  /** A report tells of a change that bound allows at its distance, one to five hops from the source. */
  ghost predicate Mild(conf: Confidences, source: Id, bound: nat -> real, r: Result) {
    && r.id in conf && r.id != source && r.oldConfidence == conf[r.id] && 1 <= r.hops <= MAX_HOPS
    && Abs(r.newConfidence - r.oldConfidence) <= bound(Prior(r.hops))
  }

  lemma ReportIsMild(conf: Confidences, us: seq<Update>, source: Id, bound: nat -> real, i: nat)
    requires Ids(us) <= conf.Keys - {source} && Once(us) && HopsRise(us, 0) && Within(us, bound) && i < |us|
    requires forall x :: x in conf ==> Unit(conf[x])
    ensures |Rendered(conf, us)| == |us| && Mild(conf, source, bound, Rendered(conf, us)[i])
  {
    RenderedAt(conf, us);
    AppliedAt(conf, us);
    IdsHave(us);
    ClampMovesLess(conf[us[i].id], us[i].delta);
  }

  /** A confidence reported at hop h has changed by at most |delta| * damping^(h-1). */
  lemma ReportsAreMild(edges: seq<Edge>, conf: Confidences, damping: real, source: Id, delta: real)
    requires UnitStrengths(edges) && damping >= 0.0 && forall x :: x in conf ==> Unit(conf[x])
    ensures var us := Traversal(edges, DampedLaw(damping), conf.Keys, source, delta);
      && Ids(us) <= conf.Keys
      && forall r :: r in Rendered(conf, us) ==> Mild(conf, source, Envelope(Abs(delta), damping), r)
  {
    var us := Traversal(edges, DampedLaw(damping), conf.Keys, source, delta);
    TraversalShape(edges, conf.Keys, damping, source, delta);
    RenderedAt(conf, us);
    forall r | r in Rendered(conf, us) ensures Mild(conf, source, Envelope(Abs(delta), damping), r) {
      var i :| 0 <= i < |us| && Rendered(conf, us)[i] == r;
      ReportIsMild(conf, us, source, Envelope(Abs(delta), damping), i);
    }
  }

  // ----- edge management

  function RelationName(r: Relation): string { if r == Supports then "supports" else "weakens" }

  function EdgeId(e: Edge): string { e.source + "::" + RelationName(e.relation) + "::" + e.target }

  /** Assignment under the edge id: replaces in place or appends. */
  function Put(edges: seq<Edge>, e: Edge): seq<Edge> {
    if edges == [] then [e]
    else if EdgeId(edges[0]) == EdgeId(e) then [e] + edges[1..] else [edges[0]] + Put(edges[1..], e)
  }

  ghost predicate DistinctEdges(edges: seq<Edge>) {
    forall i, j :: 0 <= i < j < |edges| ==> EdgeId(edges[i]) != EdgeId(edges[j])
  }

  lemma SameFront(front: string, x: string, y: string)
    ensures front + x == front + y <==> x == y
  {
    assert (front + x)[|front|..] == x && (front + y)[|front|..] == y;
  }

  lemma NamesDiffer(x: string, y: string)
    ensures "supports" + x != "weakens" + y
  {
    assert ("supports" + x)[0] == 's' && ("weakens" + y)[0] == 'w';
  }

  lemma EdgeIdParts(e: Edge)
    ensures EdgeId(e) == (e.source + "::") + (RelationName(e.relation) + ("::" + e.target))
  {
    var front, name := e.source + "::", RelationName(e.relation);
    ConcatAssociates(front + name, "::", e.target);
    ConcatAssociates(front, name, "::" + e.target);
  }

  /** Of the edges out of one node the id tells relation and target apart. */
  lemma EdgeIdTells(e: Edge, d: Edge)
    requires e.source == d.source
    ensures EdgeId(e) == EdgeId(d) <==> e.relation == d.relation && e.target == d.target
  {
    var x, y := "::" + e.target, "::" + d.target;
    EdgeIdParts(e);
    EdgeIdParts(d);
    SameFront(e.source + "::", RelationName(e.relation) + x, RelationName(d.relation) + y);
    NamesDiffer(x, y);
    NamesDiffer(y, x);
    SameFront(RelationName(e.relation), x, y);
    SameFront("::", e.target, d.target);
  }

  /** An edge between the same nodes in the same relation is replaced where it stands. */
  lemma {:induction false} PutReplaces(edges: seq<Edge>, e: Edge, i: nat)
    requires DistinctEdges(edges) && i < |edges|
    requires edges[i].source == e.source && edges[i].relation == e.relation && edges[i].target == e.target
    ensures Put(edges, e) == edges[i := e]
  {
    if i > 0 {
      assert EdgeId(edges[0]) != EdgeId(edges[i]);
      PutReplaces(edges[1..], e, i - 1);
    }
  }

  /** Without an edge of its id the new edge comes last. */
  lemma {:induction false} PutAppends(edges: seq<Edge>, e: Edge)
    requires forall i :: 0 <= i < |edges| ==> EdgeId(edges[i]) != EdgeId(e)
    ensures Put(edges, e) == edges + [e]
  {
    if edges != [] {
      PutAppends(edges[1..], e);
    }
  }

  /** No two edges ever have the same id. */
  lemma {:induction false} PutKeepsDistinct(edges: seq<Edge>, e: Edge)
    requires DistinctEdges(edges)
    ensures DistinctEdges(Put(edges, e))
    ensures forall d :: d in Put(edges, e) ==> d == e || d in edges
  {
    if edges != [] && EdgeId(edges[0]) != EdgeId(e) {
      PutKeepsDistinct(edges[1..], e);
      var rest := Put(edges[1..], e);
      forall j | 0 <= j < |rest| ensures EdgeId(rest[j]) != EdgeId(edges[0]) {
        assert rest[j] in rest;
        if rest[j] != e {
          var k :| 0 < k < |edges| && edges[k] == rest[j];
        }
      }
    }
  }

  lemma {:induction false} PutKeepsStrengths(edges: seq<Edge>, e: Edge)
    requires UnitStrengths(edges) && Unit(e.strength)
    ensures UnitStrengths(Put(edges, e))
  {
    if edges != [] {
      assert edges[0] in edges && UnitStrengths(edges[1..]);
      PutKeepsStrengths(edges[1..], e);
    }
  }

  // ----- the loops

  /** The variables of the propagation loop. */
  datatype Wavefront = Wavefront(conf: Confidences, results: seq<Result>, visited: set<Id>, q: seq<Pulse>)

  /** A dependent is moved by delta, reported, marked visited and queued. */
  function Moved(damping: real, hops: nat, w: Wavefront, target: Id, delta: real): Wavefront
    requires target in w.conf
  {
    var c := w.conf[target];
    Wavefront(w.conf[target := Clamp(c + delta)], w.results + [Result(target, c, Clamp(c + delta), hops + 1)],
              w.visited + {target}, w.q + [Pulse(target, FadeBy(damping, delta), hops + 1)])
  }

  function FollowOne(damping: real, p: Pulse, w: Wavefront, e: Edge): (r: Wavefront)
    ensures r.conf.Keys == w.conf.Keys && w.visited <= r.visited <= w.visited + w.conf.Keys
    ensures r.visited == w.visited ==> r == w
  {
    if e.target in w.visited || e.target !in w.conf then w
    else Moved(damping, p.hops, w, e.target, PushBy(e, p.delta))
  }

  function FollowAll(damping: real, p: Pulse, w: Wavefront, out: seq<Edge>): (r: Wavefront)
    ensures r.conf.Keys == w.conf.Keys && w.visited <= r.visited <= w.visited + w.conf.Keys
    ensures r.visited == w.visited ==> r == w
  {
    if out == [] then w else FollowOne(damping, p, FollowAll(damping, p, w, out[..|out| - 1]), out[|out| - 1])
  }

  /** One turn of the loop. */
  function Turn(edges: seq<Edge>, damping: real, w: Wavefront): (r: Wavefront)
    requires w.q != []
    ensures r.conf.Keys == w.conf.Keys
    ensures r.conf.Keys - r.visited < w.conf.Keys - w.visited || (r.visited == w.visited && |r.q| < |w.q|)
  {
    var popped := w.(q := w.q[1..]);
    if Spent(w.q[0]) then popped
    else
      var r := FollowAll(damping, w.q[0], popped, Dependents(edges, w.q[0].id));
      assert r.visited != w.visited ==> exists x :: x in r.visited && x in w.conf.Keys - w.visited;
      r
  }

  function LoopFrom(edges: seq<Edge>, damping: real, w: Wavefront): Wavefront
    decreases w.conf.Keys - w.visited, |w.q|
  {
    if w.q == [] then w else LoopFrom(edges, damping, Turn(edges, damping, w))
  }

  lemma FollowPrefix(damping: real, p: Pulse, w: Wavefront, out: seq<Edge>, i: nat)
    requires i < |out|
    ensures FollowAll(damping, p, w, out[..i + 1]) == FollowOne(damping, p, FollowAll(damping, p, w, out[..i]), out[i])
  {
    assert out[..i + 1][..i] == out[..i];
  }

  // ----- the loops make the changes of the traversal

  // What the loop has done when it has made the changes us.
  ghost predicate Reflects(conf: Confidences, us: seq<Update>, now: Confidences, results: seq<Result>) {
    Ids(us) <= conf.Keys && now == Applied(conf, us) && results == Rendered(conf, us)
  }

  lemma ReflectsNext(conf: Confidences, us: seq<Update>, now: Confidences, results: seq<Result>, u: Update)
    requires Reflects(conf, us, now, results) && u.id in conf
    ensures var c := Clamp(now[u.id] + u.delta);
      Reflects(conf, us + [u], now[u.id := c], results + [Result(u.id, now[u.id], c, u.hops)])
  {
    assert (us + [u])[..|us|] == us;
  }

  lemma PushIs(damping: real, p: Pulse, e: Edge)
    ensures var u := Update(e.target, PushBy(e, p.delta), p.hops + 1);
      && Push(DampedLaw(damping), p, e) == u
      && PulseOf(DampedLaw(damping), u) == Pulse(u.id, FadeBy(damping, u.delta), u.hops)
  {
  }

  lemma FollowOneIs(damping: real, p: Pulse, r: Wavefront, e: Edge, conf: Confidences, us: seq<Update>)
    requires Reflects(conf, us, r.conf, r.results) && e.target !in r.visited && e.target in conf
    ensures var u, next := Push(DampedLaw(damping), p, e), FollowOne(damping, p, r, e);
      && Reflects(conf, us + [u], next.conf, next.results)
      && next.visited == r.visited + {u.id} && next.q == r.q + [PulseOf(DampedLaw(damping), u)]
  {
    PushIs(damping, p, e);
    ReflectsNext(conf, us, r.conf, r.results, Push(DampedLaw(damping), p, e));
  }

  lemma WaveGrows(law: Law, wave: seq<Update>, u: Update)
    ensures Pulses(law, wave + [u]) == Pulses(law, wave) + [PulseOf(law, u)] && Ids(wave + [u]) == Ids(wave) + {u.id}
  {
    assert (wave + [u])[..|wave|] == wave;
  }

  // r is w after the changes of a wave.
  ghost predicate Tracks(law: Law, w: Wavefront, wave: seq<Update>, r: Wavefront, conf: Confidences, us: seq<Update>) {
    && Reflects(conf, us + wave, r.conf, r.results)
    && r.visited == w.visited + Ids(wave) && r.q == w.q + Pulses(law, wave)
  }

  lemma TracksNext(damping: real, p: Pulse, w: Wavefront, wave: seq<Update>, r: Wavefront, e: Edge,
                   conf: Confidences, us: seq<Update>)
    requires Tracks(DampedLaw(damping), w, wave, r, conf, us) && e.target !in r.visited && e.target in conf
    ensures Tracks(DampedLaw(damping), w, wave + [Push(DampedLaw(damping), p, e)], FollowOne(damping, p, r, e), conf, us)
  {
    var law, u := DampedLaw(damping), Push(DampedLaw(damping), p, e);
    FollowOneIs(damping, p, r, e, conf, us + wave);
    WaveGrows(law, wave, u);
    ConcatAssociates(us, wave, [u]);
    ConcatAssociates(w.q, Pulses(law, wave), [PulseOf(law, u)]);
  }

  lemma {:induction false} FollowIsWave(damping: real, p: Pulse, w: Wavefront, out: seq<Edge>,
                                        conf: Confidences, us: seq<Update>)
    requires Reflects(conf, us, w.conf, w.results)
    ensures Tracks(DampedLaw(damping), w, Wave(DampedLaw(damping), p, out, conf.Keys, w.visited),
                   FollowAll(damping, p, w, out), conf, us)
  {
    if out == [] {
      assert us + [] == us;
    } else {
      var before, e := out[..|out| - 1], out[|out| - 1];
      var wave, r := Wave(DampedLaw(damping), p, before, conf.Keys, w.visited), FollowAll(damping, p, w, before);
      FollowIsWave(damping, p, w, before, conf, us);
      if e.target !in r.visited && e.target in conf {
        TracksNext(damping, p, w, wave, r, e, conf, us);
      }
    }
  }

  lemma {:induction false} LoopIsRipple(edges: seq<Edge>, damping: real, w: Wavefront, conf: Confidences, us: seq<Update>)
    requires Reflects(conf, us, w.conf, w.results)
    ensures var r := LoopFrom(edges, damping, w);
      Reflects(conf, us + Ripple(edges, DampedLaw(damping), conf.Keys, w.q, w.visited), r.conf, r.results)
    decreases w.conf.Keys - w.visited, |w.q|
  {
    if w.q == [] {
      assert us + [] == us;
    } else if Spent(w.q[0]) {
      LoopIsRipple(edges, damping, w.(q := w.q[1..]), conf, us);
    } else {
      var wave := TurnIsWave(edges, damping, w, conf, us);
      var r := Turn(edges, damping, w);
      LoopIsRipple(edges, damping, r, conf, us + wave);
      var tail := Ripple(edges, DampedLaw(damping), conf.Keys, r.q, r.visited);
      ConcatAssociates(us, wave, tail);
      assert LoopFrom(edges, damping, w) == LoopFrom(edges, damping, r);
    }
  }

  lemma TurnIsWave(edges: seq<Edge>, damping: real, w: Wavefront, conf: Confidences, us: seq<Update>) returns (wave: seq<Update>)
    requires Reflects(conf, us, w.conf, w.results) && w.q != [] && !Spent(w.q[0])
    ensures var law, r := DampedLaw(damping), Turn(edges, damping, w);
      && Reflects(conf, us + wave, r.conf, r.results)
      && Ripple(edges, law, conf.Keys, w.q, w.visited) == wave + Ripple(edges, law, conf.Keys, r.q, r.visited)
  {
    var popped, out := w.(q := w.q[1..]), Dependents(edges, w.q[0].id);
    wave := Wave(DampedLaw(damping), w.q[0], out, conf.Keys, w.visited);
    FollowIsWave(damping, w.q[0], popped, out, conf, us);
    IdsHave(wave);
  }

  /** The loop started at a changed node makes exactly the changes of the traversal. */
  lemma LoopIsTraversal(edges: seq<Edge>, damping: real, conf: Confidences, source: Id, delta: real)
    ensures var r := LoopFrom(edges, damping, Wavefront(conf, [], {source}, [Pulse(source, delta, 0)]));
      Reflects(conf, Traversal(edges, DampedLaw(damping), conf.Keys, source, delta), r.conf, r.results)
  {
    var us := Traversal(edges, DampedLaw(damping), conf.Keys, source, delta);
    LoopIsRipple(edges, damping, Wavefront(conf, [], {source}, [Pulse(source, delta, 0)]), conf, []);
    assert [] + us == us;
  }

  class BeliefDependencyGraph {
    var edges: seq<Edge>
    var beliefs: Confidences
    const damping: real

    constructor (beliefs: Confidences, damping: real := 0.5)
      ensures this.beliefs == beliefs && this.damping == damping && edges == []
    {
      this.beliefs, this.damping, edges := beliefs, damping, [];
    }

    method AddDependency(source: Id, target: Id, relation: Relation, strength: real := 0.5) returns (e: Edge)
      modifies this`edges
      ensures e == Edge(source, target, relation, Clamp(strength)) && edges == Put(old(edges), e)
      ensures UnitStrengths(old(edges)) ==> UnitStrengths(edges)
      ensures DistinctEdges(old(edges)) ==> DistinctEdges(edges)
    {
      e := Edge(source, target, relation, Clamp(strength));
      if UnitStrengths(edges) {
        PutKeepsStrengths(edges, e);
      }
      if DistinctEdges(edges) {
        PutKeepsDistinct(edges, e);
      }
      edges := Put(edges, e);
    }

    function DependentsOf(id: Id): seq<Edge>
      reads this
    {
      Dependents(edges, id)
    }

    method Propagate(changed: Id, delta: real) returns (results: seq<Result>)
      modifies this`beliefs
      ensures Reflects(old(beliefs), Traversal(edges, DampedLaw(damping), old(beliefs).Keys, changed, delta), beliefs, results)
    {
      LoopIsTraversal(edges, damping, beliefs, changed, delta);
      results := [];
      var visited, q := {changed}, [Pulse(changed, delta, 0)];
      ghost var start := Wavefront(beliefs, results, visited, q);
      while q != []
        invariant LoopFrom(edges, damping, Wavefront(beliefs, results, visited, q)) == LoopFrom(edges, damping, start)
        decreases beliefs.Keys - visited, |q|
      {
        ghost var w := Wavefront(beliefs, results, visited, q);
        assert LoopFrom(edges, damping, w) == LoopFrom(edges, damping, Turn(edges, damping, w));
        var current := q[0];
        q := q[1..];
        if current.hops >= MAX_HOPS || Abs(current.delta) < CUTOFF {
          continue;
        }
        results, visited, q := Follow(current, DependentsOf(current.id), results, visited, q);
      }
    }

    method Move(hops: nat, target: Id, propagated: real, results: seq<Result>, visited: set<Id>, q: seq<Pulse>)
      returns (results': seq<Result>, visited': set<Id>, q': seq<Pulse>)
      requires target in beliefs
      modifies this`beliefs
      ensures Wavefront(beliefs, results', visited', q')
           == Moved(damping, hops, old(Wavefront(beliefs, results, visited, q)), target, propagated)
    {
      var oldConfidence := beliefs[target];
      var newConfidence := Clamp(oldConfidence + propagated);
      beliefs := beliefs[target := newConfidence];
      results' := results + [Result(target, oldConfidence, newConfidence, hops + 1)];
      visited' := visited + {target};
      q' := q + [Pulse(target, FadeBy(damping, propagated), hops + 1)];
    }

    // The inner loop: every edge to a known belief not visited yet changes that belief.
    method Follow(current: Pulse, out: seq<Edge>, results: seq<Result>, visited: set<Id>, q: seq<Pulse>)
      returns (results': seq<Result>, visited': set<Id>, q': seq<Pulse>)
      modifies this`beliefs
      ensures Wavefront(beliefs, results', visited', q')
           == FollowAll(damping, current, old(Wavefront(beliefs, results, visited, q)), out)
    {
      results', visited', q' := results, visited, q;
      ghost var start := Wavefront(beliefs, results, visited, q);
      for i := 0 to |out|
        invariant Wavefront(beliefs, results', visited', q') == FollowAll(damping, current, start, out[..i])
      {
        var e := out[i];
        ghost var w := Wavefront(beliefs, results', visited', q');
        FollowPrefix(damping, current, start, out, i);
        if e.target in visited' || e.target !in beliefs {
          continue;
        }
        results', visited', q' := Move(current.hops, e.target, PushBy(e, current.delta), results', visited', q');
      }
      assert out[..|out|] == out;
    }
  }

  // ----- principles

  datatype SupportEdge = SupportEdge(source: Id, target: Id, strength: real)

  function AsSupport(e: SupportEdge): Edge { Edge(e.source, e.target, Supports, e.strength) }

  /** The same graph as a belief graph in which every edge supports. */
  function AsSupports(edges: seq<SupportEdge>): (r: seq<Edge>)
    ensures |r| == |edges| && forall i :: 0 <= i < |edges| ==> r[i] == AsSupport(edges[i])
  {
    if edges == [] then [] else [AsSupport(edges[0])] + AsSupports(edges[1..])
  }

  function SupportedBy(edges: seq<SupportEdge>, id: Id): seq<SupportEdge> {
    if edges == [] then []
    else if edges[0].source == id then [edges[0]] + SupportedBy(edges[1..], id) else SupportedBy(edges[1..], id)
  }

  lemma {:induction false} SupportsDependents(edges: seq<SupportEdge>, id: Id)
    ensures AsSupports(SupportedBy(edges, id)) == Dependents(AsSupports(edges), id)
  {
    if edges != [] {
      SupportsDependents(edges[1..], id);
      var rest := SupportedBy(edges[1..], id);
      assert ([edges[0]] + rest)[1..] == rest;
      assert AsSupports(edges)[1..] == AsSupports(edges[1..]);
    }
  }

  function Carried(e: SupportEdge, x: real): real { x * e.strength }

  lemma FollowSupport(damping: real, p: Pulse, w: Wavefront, e: SupportEdge)
    ensures FollowOne(damping, p, w, AsSupport(e))
         == if e.target in w.visited || e.target !in w.conf then w
            else Moved(damping, p.hops, w, e.target, Carried(e, p.delta))
  {
    assert PushBy(AsSupport(e), p.delta) == Carried(e, p.delta);
  }

  class PrincipleGraph {
    var edges: seq<SupportEdge>
    var principles: Confidences
    const damping: real

    constructor (principles: Confidences, damping: real := 0.5)
      ensures this.principles == principles && this.damping == damping && edges == []
    {
      this.principles, this.damping, edges := principles, damping, [];
    }

    /** Exactly what the belief graph does on the same edges, all of them supporting. */
    method Propagate(changed: Id, delta: real) returns (results: seq<Result>)
      modifies this`principles
      ensures Reflects(old(principles), Traversal(AsSupports(edges), DampedLaw(damping), old(principles).Keys, changed, delta),
                       principles, results)
    {
      LoopIsTraversal(AsSupports(edges), damping, principles, changed, delta);
      results := [];
      var visited, q := {changed}, [Pulse(changed, delta, 0)];
      ghost var start := Wavefront(principles, results, visited, q);
      while q != []
        invariant LoopFrom(AsSupports(edges), damping, Wavefront(principles, results, visited, q))
               == LoopFrom(AsSupports(edges), damping, start)
        decreases principles.Keys - visited, |q|
      {
        ghost var w := Wavefront(principles, results, visited, q);
        assert LoopFrom(AsSupports(edges), damping, w)
            == LoopFrom(AsSupports(edges), damping, Turn(AsSupports(edges), damping, w));
        var current := q[0];
        q := q[1..];
        if current.hops >= MAX_HOPS || Abs(current.delta) < CUTOFF {
          continue;
        }
        SupportsDependents(edges, current.id);
        results, visited, q := Follow(current, SupportedBy(edges, current.id), results, visited, q);
      }
    }

    method Move(hops: nat, target: Id, propagated: real, results: seq<Result>, visited: set<Id>, q: seq<Pulse>)
      returns (results': seq<Result>, visited': set<Id>, q': seq<Pulse>)
      requires target in principles
      modifies this`principles
      ensures Wavefront(principles, results', visited', q')
           == Moved(damping, hops, old(Wavefront(principles, results, visited, q)), target, propagated)
    {
      var oldConfidence := principles[target];
      var newConfidence := Clamp(oldConfidence + propagated);
      principles := principles[target := newConfidence];
      results' := results + [Result(target, oldConfidence, newConfidence, hops + 1)];
      visited' := visited + {target};
      q' := q + [Pulse(target, FadeBy(damping, propagated), hops + 1)];
    }

    method Follow(current: Pulse, out: seq<SupportEdge>, results: seq<Result>, visited: set<Id>, q: seq<Pulse>)
      returns (results': seq<Result>, visited': set<Id>, q': seq<Pulse>)
      modifies this`principles
      ensures Wavefront(principles, results', visited', q')
           == FollowAll(damping, current, old(Wavefront(principles, results, visited, q)), AsSupports(out))
    {
      results', visited', q' := results, visited, q;
      ghost var start, lifted := Wavefront(principles, results, visited, q), AsSupports(out);
      for i := 0 to |out|
        invariant Wavefront(principles, results', visited', q') == FollowAll(damping, current, start, lifted[..i])
      {
        var e := out[i];
        ghost var w := Wavefront(principles, results', visited', q');
        FollowPrefix(damping, current, start, lifted, i);
        FollowSupport(damping, current, w, e);
        if e.target in visited' || e.target !in principles {
          continue;
        }
        results', visited', q' := Move(current.hops, e.target, Carried(e, current.delta), results', visited', q');
      }
      assert lifted[..|out|] == lifted;
    }
  }
}
