/**
 What the shared traversal guarantees: bounds that shrink with distance, and that a
 propagation is undone by the opposite one exactly when nothing was lost to clamping.
 */
module PropagationProperties {
  import opened Propagation
  import opened Reals

  // ----- distances

  ghost predicate Staggered(q: seq<Pulse>) {
    (forall i, j :: 0 <= i < j < |q| ==> q[i].hops <= q[j].hops)
    && forall i :: 0 <= i < |q| ==> q[i].hops <= q[0].hops + 1
  }

  ghost predicate HopsRise(us: seq<Update>, from: nat) {
    (forall i, j :: 0 <= i < j < |us| ==> us[i].hops <= us[j].hops)
    && forall i :: 0 <= i < |us| ==> from < us[i].hops <= MAX_HOPS
  }

  lemma NextStaggered(law: Law, q: seq<Pulse>, us: seq<Update>)
    requires q != [] && Staggered(q) && forall i :: 0 <= i < |us| ==> us[i].hops == q[0].hops + 1
    ensures Staggered(q[1..] + Pulses(law, us)) && forall i :: 0 < i < |q| ==> q[0].hops <= q[i].hops
  {
    var rest, ps := q[1..], Pulses(law, us);
    var q' := rest + ps;
    forall i | 0 <= i < |q'| ensures q[0].hops <= q'[i].hops <= q[0].hops + 1 {
      if i >= |rest| {
        assert q'[i] == ps[i - |rest|];
      }
    }
    forall i, j | 0 <= i < j < |q'| ensures q'[i].hops <= q'[j].hops {
      if j < |rest| {
        assert q'[i] == q[i + 1] && q'[j] == q[j + 1];
      } else {
        assert q'[j] == ps[j - |rest|];
      }
    }
  }

  lemma {:induction false} RippleHops(edges: seq<Edge>, law: Law, known: set<Id>, q: seq<Pulse>, visited: set<Id>, from: nat)
    requires Staggered(q) && (q != [] ==> from <= q[0].hops)
    ensures HopsRise(Ripple(edges, law, known, q, visited), from)
    decreases known - visited, |q|
  {
    if q != [] {
      if Spent(q[0]) {
        TailStaggered(q);
        RippleHops(edges, law, known, q[1..], visited, from);
      } else {
        var us := Wave(law, q[0], Dependents(edges, q[0].id), known, visited);
        var next, seen := q[1..] + Pulses(law, us), visited + Ids(us);
        WaveHops(law, q, Dependents(edges, q[0].id), known, visited);
        WaveShrinks(law, q[0], Dependents(edges, q[0].id), known, visited);
        assert us == [] ==> |next| < |q| && seen == visited;
        RippleHops(edges, law, known, next, seen, q[0].hops);
        WaveJoin(law, q[0], Dependents(edges, q[0].id), known, visited, Ripple(edges, law, known, next, seen), from);
      }
    }
  }

  lemma TailStaggered(q: seq<Pulse>)
    requires Staggered(q) && q != []
    ensures Staggered(q[1..]) && (q[1..] != [] ==> q[0].hops <= q[1..][0].hops)
  {
  }

  lemma WaveHops(law: Law, q: seq<Pulse>, out: seq<Edge>, known: set<Id>, visited: set<Id>)
    requires q != [] && Staggered(q)
    ensures var us := Wave(law, q[0], out, known, visited);
      && Staggered(q[1..] + Pulses(law, us)) && (q[1..] + Pulses(law, us) != [] ==> q[0].hops <= (q[1..] + Pulses(law, us))[0].hops)
  {
    var us := Wave(law, q[0], out, known, visited);
    WaveOnce(law, q[0], out, known, visited);
    assert forall i :: 0 <= i < |us| ==> us[i] in us;
    NextStaggered(law, q, us);
  }

  lemma WaveJoin(law: Law, p: Pulse, out: seq<Edge>, known: set<Id>, visited: set<Id>, rest: seq<Update>, from: nat)
    requires from <= p.hops < MAX_HOPS && HopsRise(rest, p.hops)
    ensures HopsRise(Wave(law, p, out, known, visited) + rest, from)
  {
    var us := Wave(law, p, out, known, visited);
    WaveOnce(law, p, out, known, visited);
    assert forall i :: 0 <= i < |us| ==> us[i] in us;
    HopsJoin(us, rest, p.hops, from);
  }

  lemma HopsJoin(us: seq<Update>, rest: seq<Update>, h: nat, from: nat)
    requires from <= h < MAX_HOPS && (forall i :: 0 <= i < |us| ==> us[i].hops == h + 1)
    requires HopsRise(rest, h)
    ensures HopsRise(us + rest, from)
  {
    var all := us + rest;
    assert forall i :: |us| <= i < |all| ==> all[i] == rest[i - |us|];
  }

  /** bound(k) caps every delta that is passed on at distance k. */
  ghost predicate Capped(law: Law, edges: seq<Edge>, bound: nat -> real) {
    && (forall e, x, k: nat :: e in edges && Abs(x) <= bound(k) ==> Abs(law.push(e, x)) <= bound(k))
    && (forall x, h: nat :: h > 0 && Abs(x) <= bound(Prior(h)) ==> Abs(law.damp(x)) <= bound(h))
  }

  function Prior(h: nat): nat { if h == 0 then 0 else h - 1 }

  ghost predicate Within(us: seq<Update>, bound: nat -> real) {
    forall i :: 0 <= i < |us| ==> us[i].hops > 0 && Abs(us[i].delta) <= bound(Prior(us[i].hops))
  }

  ghost predicate WithinQueue(q: seq<Pulse>, bound: nat -> real) {
    forall i :: 0 <= i < |q| ==> Abs(q[i].delta) <= bound(q[i].hops)
  }

  lemma {:induction false} WaveWithin(edges: seq<Edge>, law: Law, p: Pulse, out: seq<Edge>, known: set<Id>, visited: set<Id>,
                                      bound: nat -> real)
    requires Capped(law, edges, bound) && Abs(p.delta) <= bound(p.hops) && forall e :: e in out ==> e in edges
    ensures Within(Wave(law, p, out, known, visited), bound)
  {
    if out != [] {
      var e := out[|out| - 1];
      WaveWithin(edges, law, p, out[..|out| - 1], known, visited, bound);
      assert e in edges;
      assert Prior(Push(law, p, e).hops) == p.hops;
    }
  }

  lemma {:induction false} DependentsWithin(edges: seq<Edge>, id: Id)
    ensures forall e :: e in Dependents(edges, id) ==> e in edges
  {
    if edges != [] {
      DependentsWithin(edges[1..], id);
    }
  }

  lemma PulsesWithin(edges: seq<Edge>, law: Law, us: seq<Update>, bound: nat -> real)
    requires Capped(law, edges, bound) && Within(us, bound)
    ensures WithinQueue(Pulses(law, us), bound)
  {
    var ps := Pulses(law, us);
    forall i | 0 <= i < |ps| ensures Abs(ps[i].delta) <= bound(ps[i].hops) {
      assert ps[i] == PulseOf(law, us[i]) && Abs(us[i].delta) <= bound(Prior(us[i].hops));
    }
  }

  lemma {:induction false} RippleWithin(edges: seq<Edge>, law: Law, known: set<Id>, q: seq<Pulse>, visited: set<Id>,
                                        bound: nat -> real)
    requires Capped(law, edges, bound) && WithinQueue(q, bound)
    ensures Within(Ripple(edges, law, known, q, visited), bound)
    decreases known - visited, |q|
  {
    if q != [] {
      if Spent(q[0]) {
        RippleWithin(edges, law, known, q[1..], visited, bound);
      } else {
        var out := Dependents(edges, q[0].id);
        var us := Wave(law, q[0], out, known, visited);
        DependentsWithin(edges, q[0].id);
        WaveWithin(edges, law, q[0], out, known, visited, bound);
        IdsHave(us);
        PulsesWithin(edges, law, us, bound);
        RippleWithin(edges, law, known, q[1..] + Pulses(law, us), visited + Ids(us), bound);
      }
    }
  }

  predicate UnitStrengths(edges: seq<Edge>) {
    forall e :: e in edges ==> Unit(e.strength)
  }

  lemma PushByShrinks(e: Edge, x: real)
    requires Unit(e.strength)
    ensures Abs(PushBy(e, x)) <= Abs(x)
  {
    AbsShrinks(x, e.strength);
  }

  lemma FadeByScales(damping: real, d: real, k: nat, x: real)
    requires damping >= 0.0 && Abs(x) <= d * Power(damping, k)
    ensures Abs(FadeBy(damping, x)) <= d * Power(damping, k + 1)
  {
    var p := Power(damping, k);
    AbsMul(x, damping);
    MulMono(Abs(x), d * p, damping);
    MulAssoc(d, p, damping);
    assert Power(damping, k + 1) == p * damping;
  }

  /** |delta| * damping^k. */
  function Envelope(d: real, damping: real): nat -> real {
    (k: nat) => d * Power(damping, k)
  }

  lemma DampedIsCapped(edges: seq<Edge>, damping: real, d: real)
    requires UnitStrengths(edges) && damping >= 0.0
    ensures Capped(DampedLaw(damping), edges, Envelope(d, damping))
  {
    var law, bound := DampedLaw(damping), Envelope(d, damping);
    forall e: Edge, x, k: nat | e in edges && Abs(x) <= bound(k) ensures Abs(law.push(e, x)) <= bound(k) {
      PushByShrinks(e, x);
      assert law.push(e, x) == PushBy(e, x);
    }
    forall x, h: nat | h > 0 && Abs(x) <= bound(Prior(h)) ensures Abs(law.damp(x)) <= bound(h) {
      FadeByScales(damping, d, h - 1, x);
      assert law.damp(x) == FadeBy(damping, x);
    }
  }

  /** One propagation: each node at most once and never the source, at most five hops in rising order,
      changes within |delta| * damping^(hop-1). */
  lemma TraversalShape(edges: seq<Edge>, known: set<Id>, damping: real, source: Id, delta: real)
    ensures var us := Traversal(edges, DampedLaw(damping), known, source, delta);
      && Once(us) && Ids(us) <= known - {source} && HopsRise(us, 0)
      && (UnitStrengths(edges) && damping >= 0.0 ==> Within(us, Envelope(Abs(delta), damping)))
  {
    var law, q := DampedLaw(damping), [Pulse(source, delta, 0)];
    RippleOnce(edges, law, known, q, {source});
    RippleHops(edges, law, known, q, {source}, 0);
    if UnitStrengths(edges) && damping >= 0.0 {
      DampedIsCapped(edges, damping, Abs(delta));
      RippleWithin(edges, law, known, q, {source}, Envelope(Abs(delta), damping));
    }
  }

  /** Confidences in [0, 1] stay there. */
  lemma {:induction false} AppliedStaysUnit(conf: Confidences, us: seq<Update>)
    requires Ids(us) <= conf.Keys && forall x :: x in conf ==> Unit(conf[x])
    ensures forall x :: x in conf ==> Unit(Applied(conf, us)[x])
  {
    if us != [] {
      AppliedStaysUnit(conf, us[..|us| - 1]);
    }
  }

  // ----- undoing a propagation

  function Reversed(u: Update): Update { u.(delta := -u.delta) }

  function ReversedAll(us: seq<Update>): (r: seq<Update>)
    ensures |r| == |us| && forall i :: 0 <= i < |us| ==> r[i] == Reversed(us[i])
  {
    if us == [] then [] else ReversedAll(us[..|us| - 1]) + [Reversed(us[|us| - 1])]
  }

  function ReversedPulse(p: Pulse): Pulse { p.(delta := -p.delta) }

  function ReversedQueue(q: seq<Pulse>): (r: seq<Pulse>)
    ensures |r| == |q| && forall i :: 0 <= i < |q| ==> r[i] == ReversedPulse(q[i])
  {
    if q == [] then [] else ReversedQueue(q[..|q| - 1]) + [ReversedPulse(q[|q| - 1])]
  }

  lemma {:induction false} ReversedIds(us: seq<Update>)
    ensures Ids(ReversedAll(us)) == Ids(us)
  {
    if us != [] {
      ReversedIds(us[..|us| - 1]);
      assert ReversedAll(us)[..|us| - 1] == ReversedAll(us[..|us| - 1]);
    }
  }

  /** The opposite delta is passed on and damped to the opposite. */
  ghost predicate Odd(law: Law) {
    && (forall e, x :: law.push(e, -x) == -law.push(e, x))
    && (forall x :: law.damp(-x) == -law.damp(x))
  }

  lemma DampedIsOdd(damping: real)
    ensures Odd(DampedLaw(damping))
  {
    var law := DampedLaw(damping);
    forall e: Edge, x ensures law.push(e, -x) == -law.push(e, x) {
      MulNeg(x, e.strength);
      assert law.push(e, -x) == PushBy(e, -x) && law.push(e, x) == PushBy(e, x);
    }
    forall x ensures law.damp(-x) == -law.damp(x) {
      MulNeg(x, damping);
    }
  }

  lemma {:induction false} WaveReversed(law: Law, p: Pulse, out: seq<Edge>, known: set<Id>, visited: set<Id>)
    requires Odd(law)
    ensures Wave(law, ReversedPulse(p), out, known, visited) == ReversedAll(Wave(law, p, out, known, visited))
  {
    if out != [] {
      var us, e := Wave(law, p, out[..|out| - 1], known, visited), out[|out| - 1];
      WaveReversed(law, p, out[..|out| - 1], known, visited);
      ReversedIds(us);
      assert Push(law, ReversedPulse(p), e) == Reversed(Push(law, p, e));
      ReversedSnoc(us, Push(law, p, e));
    }
  }

  lemma ReversedSnoc(us: seq<Update>, u: Update)
    ensures ReversedAll(us + [u]) == ReversedAll(us) + [Reversed(u)]
  {
    assert (us + [u])[..|us|] == us;
  }

  lemma PulsesReversed(law: Law, us: seq<Update>)
    requires Odd(law)
    ensures Pulses(law, ReversedAll(us)) == ReversedQueue(Pulses(law, us))
  {
    forall i | 0 <= i < |us| ensures PulseOf(law, Reversed(us[i])) == ReversedPulse(PulseOf(law, us[i])) {
    }
  }

  lemma ReversedAppend(a: seq<Update>, b: seq<Update>, q: seq<Pulse>, r: seq<Pulse>)
    ensures ReversedAll(a + b) == ReversedAll(a) + ReversedAll(b)
    ensures ReversedQueue(q + r) == ReversedQueue(q) + ReversedQueue(r)
    ensures q != [] ==> ReversedQueue(q) != [] && ReversedQueue(q)[0] == ReversedPulse(q[0])
                        && ReversedQueue(q)[1..] == ReversedQueue(q[1..])
  {
  }

  /** The opposite delta takes the same way and changes the same nodes by the opposite amounts. */
  lemma {:induction false} RippleReversed(edges: seq<Edge>, law: Law, known: set<Id>, q: seq<Pulse>, visited: set<Id>)
    requires Odd(law)
    ensures Ripple(edges, law, known, ReversedQueue(q), visited) == ReversedAll(Ripple(edges, law, known, q, visited))
    decreases known - visited, |q|
  {
    if q != [] {
      ReversedAppend([], [], q, []);
      assert Spent(ReversedPulse(q[0])) == Spent(q[0]);
      if Spent(q[0]) {
        RippleReversed(edges, law, known, q[1..], visited);
      } else {
        RippleReversedStep(edges, law, known, q, visited);
      }
    }
  }

  lemma {:induction false} RippleReversedStep(edges: seq<Edge>, law: Law, known: set<Id>, q: seq<Pulse>, visited: set<Id>)
    requires Odd(law) && q != [] && !Spent(q[0])
    ensures Ripple(edges, law, known, ReversedQueue(q), visited) == ReversedAll(Ripple(edges, law, known, q, visited))
    decreases known - visited, |q|, 0
  {
    var out := Dependents(edges, q[0].id);
    var us := Wave(law, q[0], out, known, visited);
    var q' := q[1..] + Pulses(law, us);
    IdsHave(us);
    RippleReversed(edges, law, known, q', visited + Ids(us));
    var tail := Ripple(edges, law, known, q', visited + Ids(us));
    assert Ripple(edges, law, known, q, visited) == us + tail;
    var rs := Wave(law, ReversedPulse(q[0]), out, known, visited);
    WaveReversed(law, q[0], out, known, visited);
    ReversedIds(us);
    PulsesReversed(law, us);
    ReversedAppend(us, tail, q, []);
    ReversedAppend([], [], q[1..], Pulses(law, us));
    assert Ripple(edges, law, known, ReversedQueue(q), visited)
        == rs + Ripple(edges, law, known, ReversedQueue(q)[1..] + Pulses(law, rs), visited + Ids(rs));
  }

  /** Adding delta and taking it away again gives c back: nothing was clamped, or c sat at the far bound
      and the delta overshot the whole interval. */
  predicate Restores(c: real, delta: real) {
    Unit(c + delta) || (c == 0.0 && delta > 1.0) || (c == 1.0 && delta < -1.0)
  }

  lemma RestoredIff(c: real, delta: real)
    requires Unit(c)
    ensures Clamp(Clamp(c + delta) + -delta) == c <==> Restores(c, delta)
  {
  }

  ghost predicate AllRestore(conf: Confidences, us: seq<Update>) {
    forall i :: 0 <= i < |us| ==> us[i].id in conf && Restores(conf[us[i].id], us[i].delta)
  }

  lemma ReversedOnce(us: seq<Update>)
    requires Once(us)
    ensures Once(ReversedAll(us)) && Ids(ReversedAll(us)) == Ids(us)
  {
    ReversedIds(us);
  }

  lemma AppliedTo(conf: Confidences, us: seq<Update>, i: nat)
    requires Ids(us) <= conf.Keys && Once(us) && i < |us|
    ensures us[i].id in conf && Applied(conf, us)[us[i].id] == Clamp(conf[us[i].id] + us[i].delta)
  {
    AppliedAt(conf, us);
  }

  lemma RestoredAt(conf: Confidences, us: seq<Update>, i: nat)
    requires Ids(us) <= conf.Keys && Once(us) && i < |us| && us[i].id in conf && Unit(conf[us[i].id])
    ensures Ids(ReversedAll(us)) <= conf.Keys
    ensures Applied(Applied(conf, us), ReversedAll(us))[us[i].id] == conf[us[i].id] <==> Restores(conf[us[i].id], us[i].delta)
  {
    ReversedOnce(us);
    AppliedTo(conf, us, i);
    AppliedTo(Applied(conf, us), ReversedAll(us), i);
    RestoredIff(conf[us[i].id], us[i].delta);
  }

  lemma UntouchedStay(conf: Confidences, us: seq<Update>, x: Id)
    requires Ids(us) <= conf.Keys && Once(us) && x in conf && x !in Ids(us)
    ensures Ids(ReversedAll(us)) <= conf.Keys && Applied(Applied(conf, us), ReversedAll(us))[x] == conf[x]
  {
    ReversedOnce(us);
    AppliedAt(conf, us);
    AppliedAt(Applied(conf, us), ReversedAll(us));
  }

  lemma RestoredEverywhereIff(conf: Confidences, us: seq<Update>)
    requires Ids(us) <= conf.Keys && Once(us) && forall x :: x in conf ==> Unit(conf[x])
    ensures Ids(ReversedAll(us)) <= conf.Keys
    ensures Applied(Applied(conf, us), ReversedAll(us)) == conf <==> AllRestore(conf, us)
  {
    ReversedIds(us);
    IdsHave(us);
    var end := Applied(Applied(conf, us), ReversedAll(us));
    forall i | 0 <= i < |us|
      ensures us[i].id in conf && (end[us[i].id] == conf[us[i].id] <==> Restores(conf[us[i].id], us[i].delta))
    {
      RestoredAt(conf, us, i);
    }
    if AllRestore(conf, us) {
      forall x | x in conf ensures end[x] == conf[x] {
        if x in Ids(us) {
          var i := IdsFrom(us, x);
        } else {
          UntouchedStay(conf, us, x);
        }
      }
    }
  }

  /** Propagating delta and then its opposite restores every confidence exactly when each change restores. */
  lemma UndoIff(edges: seq<Edge>, conf: Confidences, damping: real, source: Id, delta: real)
    requires forall x :: x in conf ==> Unit(conf[x])
    ensures var us := Traversal(edges, DampedLaw(damping), conf.Keys, source, delta);
      var back := Traversal(edges, DampedLaw(damping), conf.Keys, source, -delta);
      && Ids(us) <= conf.Keys && Ids(back) <= conf.Keys
      && (Applied(Applied(conf, us), back) == conf <==> AllRestore(conf, us))
  {
    DampedIsOdd(damping);
    RippleOnce(edges, DampedLaw(damping), conf.Keys, [Pulse(source, delta, 0)], {source});
    RippleReversed(edges, DampedLaw(damping), conf.Keys, [Pulse(source, delta, 0)], {source});
    assert ReversedQueue([Pulse(source, delta, 0)]) == [Pulse(source, -delta, 0)];
    RestoredEverywhereIff(conf, Traversal(edges, DampedLaw(damping), conf.Keys, source, delta));
  }

  /** For deltas of at most one, damping in [0, 1] and strengths in [0, 1], the undo works
      exactly when no change was clamped. */
  lemma UndoUnlessClamped(edges: seq<Edge>, conf: Confidences, damping: real, source: Id, delta: real)
    requires (forall x :: x in conf ==> Unit(conf[x])) && UnitStrengths(edges) && Unit(damping) && Abs(delta) <= 1.0
    ensures var us := Traversal(edges, DampedLaw(damping), conf.Keys, source, delta);
      var back := Traversal(edges, DampedLaw(damping), conf.Keys, source, -delta);
      && Ids(us) <= conf.Keys && Ids(back) <= conf.Keys
      && (Applied(Applied(conf, us), back) == conf <==> NoneClamped(conf, us))
  {
    var us := Traversal(edges, DampedLaw(damping), conf.Keys, source, delta);
    UndoIff(edges, conf, damping, source, delta);
    TraversalShape(edges, conf.Keys, damping, source, delta);
    SmallDeltas(us, Abs(delta), damping);
    assert AllRestore(conf, us) <==> NoneClamped(conf, us);
  }

  lemma SmallDeltas(us: seq<Update>, d: real, damping: real)
    requires Within(us, Envelope(d, damping)) && Unit(d) && Unit(damping)
    ensures forall i :: 0 <= i < |us| ==> Abs(us[i].delta) <= 1.0
  {
    forall i | 0 <= i < |us| ensures Abs(us[i].delta) <= 1.0 {
      var k := Prior(us[i].hops);
      PowerUnit(damping, k);
      MulUnit(d, Power(damping, k));
      assert Envelope(d, damping)(k) == d * Power(damping, k);
    }
  }

  ghost predicate NoneClamped(conf: Confidences, us: seq<Update>) {
    forall i :: 0 <= i < |us| ==> us[i].id in conf && Unit(conf[us[i].id] + us[i].delta)
  }
}
