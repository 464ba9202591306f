/**
 Coordinate descent on the simplex, core/weight_learner.py: valid single steps, passes over the four
 weights, where they stop, and what they can never reach.
 */
module Descent {
  import opened Common
  import opened Reals
  import opened Scoring

  // ----- perturbing

  predicate AllUnit(w: Four) { forall f :: Unit(Get(w, f)) }

  function Shifted(w: Four, f: Component, delta: real): Four {
    var per := delta / 3.0;
    Four(if f.Relevance? then w.relevance + delta else w.relevance - per,
         if f.Importance? then w.importance + delta else w.importance - per,
         if f.Recency? then w.recency + delta else w.recency - per,
         if f.Frequency? then w.frequency + delta else w.frequency - per)
  }

  /** Moves delta onto one weight, equally from the other three, and normalises; nothing if a weight leaves [0, 1]. */
  function Perturb(w: Four, f: Component, delta: real): (r: Option<Four>)
    requires OnSimplex(w)
    ensures r.Some? ==> OnSimplex(r.value)
    ensures r == if AllUnit(Shifted(w, f, delta)) then Some(Shifted(w, f, delta)) else None
  {
    var d := Shifted(w, f, delta);
    if !AllUnit(d) then None
    else
      var total := Total(d);
      assert total == 1.0;
      var scaled := Four(d.relevance / total, d.importance / total, d.recency / total, d.frequency / total);
      assert scaled == d;
      assert OnSimplex(d) by { assert forall g :: Unit(Get(d, g)); }
      Some(scaled)
  }

  // ----- coordinate descent

  datatype Task = Task(entries: map<int, Entry>, feedback: seq<Feedback>, step: real, maxIter: nat)

  function LossOf(t: Task, w: Four): (l: real)
    ensures l >= 0.0
  {
    Loss(w, t.entries, t.feedback)
  }

  predicate Improves(t: Task, w: Four, f: Component, delta: real)
    requires OnSimplex(w)
  {
    var c := Perturb(w, f, delta);
    c.Some? && LossOf(t, c.value) < LossOf(t, w)
  }

  /** No valid step of one coordinate lowers the loss. */
  predicate Stuck(t: Task, w: Four, f: Component)
    requires OnSimplex(w)
  {
    !Improves(t, w, f, t.step) && !Improves(t, w, f, -t.step)
  }

  /** One coordinate: a step up if that helps, else a step down if that helps. */
  function FieldStep(t: Task, w: Four, f: Component): (r: Four)
    requires OnSimplex(w)
    ensures OnSimplex(r) && (r == w || LossOf(t, r) < LossOf(t, w))
    ensures r == w <==> Stuck(t, w, f)
  {
    if Improves(t, w, f, t.step) then Perturb(w, f, t.step).value
    else if Improves(t, w, f, -t.step) then Perturb(w, f, -t.step).value
    else w
  }

  const FIELDS: seq<Component> := [Relevance, Importance, Recency, Frequency]

  /** The first n of the four coordinates, in order. */
  function Pass(t: Task, w: Four, n: nat): (r: Four)
    requires OnSimplex(w) && n <= |FIELDS|
    ensures OnSimplex(r) && (r == w || LossOf(t, r) < LossOf(t, w))
  {
    if n == 0 then w else FieldStep(t, Pass(t, w, n - 1), FIELDS[n - 1])
  }

  /** A pass goes on with the next of relevance, importance, recency and frequency, in this order: steps of earlier
      coordinates that help are taken before later ones are tried. */
  lemma PassOrder(t: Task, w: Four)
    requires OnSimplex(w)
    ensures |FIELDS| == 4
    ensures Improves(t, w, Relevance, t.step) ==> Pass(t, w, 1) == Shifted(w, Relevance, t.step)
    ensures Stuck(t, w, Relevance) && Improves(t, w, Importance, t.step) ==> Pass(t, w, 2) == Shifted(w, Importance, t.step)
    ensures Stuck(t, w, Relevance) && Stuck(t, w, Importance) && Improves(t, w, Recency, t.step)
      ==> Pass(t, w, 3) == Shifted(w, Recency, t.step)
    ensures Stuck(t, w, Relevance) && Stuck(t, w, Importance) && Stuck(t, w, Recency) && Improves(t, w, Frequency, t.step)
      ==> Pass(t, w, 4) == Shifted(w, Frequency, t.step)
  {
  }

  /** No valid single step lowers the loss. */
  predicate LocallyBest(t: Task, w: Four)
    requires OnSimplex(w)
  {
    forall f :: Stuck(t, w, f)
  }

  lemma {:induction false} QuietPass(t: Task, w: Four, n: nat)
    requires OnSimplex(w) && n <= |FIELDS| && Pass(t, w, n) == w
    ensures forall i :: 0 <= i < n ==> Stuck(t, w, FIELDS[i])
  {
    if n > 0 {
      var before := Pass(t, w, n - 1);
      assert before == w;
      QuietPass(t, w, n - 1);
    }
  }

  /** A whole pass leaves the weights alone exactly at a local optimum. */
  lemma QuietPassIff(t: Task, w: Four)
    requires OnSimplex(w)
    ensures Pass(t, w, |FIELDS|) == w <==> LocallyBest(t, w)
  {
    if Pass(t, w, |FIELDS|) == w {
      QuietPass(t, w, |FIELDS|);
      forall f ensures Stuck(t, w, f) {
        assert f == FIELDS[0] || f == FIELDS[1] || f == FIELDS[2] || f == FIELDS[3];
      }
    } else {
      QuietStays(t, w, |FIELDS|);
    }
  }

  lemma {:induction false} QuietStays(t: Task, w: Four, n: nat)
    requires OnSimplex(w) && n <= |FIELDS|
    ensures LocallyBest(t, w) ==> Pass(t, w, n) == w
  {
    if n > 0 {
      QuietStays(t, w, n - 1);
    }
  }

  /** Passes until one changes nothing, at most n. */
  function Descend(t: Task, w: Four, n: nat): (r: Four)
    requires OnSimplex(w)
    ensures OnSimplex(r) && LossOf(t, r) <= LossOf(t, w)
    decreases n
  {
    if n == 0 then w
    else
      var next := Pass(t, w, |FIELDS|);
      if next == w then w else Descend(t, next, n - 1)
  }

  /** How many passes improved. */
  function Improvements(t: Task, w: Four, n: nat): (k: nat)
    requires OnSimplex(w)
    ensures k <= n
    decreases n
  {
    if n == 0 then 0
    else
      var next := Pass(t, w, |FIELDS|);
      if next == w then 0 else 1 + Improvements(t, next, n - 1)
  }

  /** Stopping before the last pass means a local optimum. */
  lemma {:induction false} EarlyStopIsLocallyBest(t: Task, w: Four, n: nat)
    requires OnSimplex(w) && Improvements(t, w, n) < n
    ensures LocallyBest(t, Descend(t, w, n))
    decreases n
  {
    var next := Pass(t, w, |FIELDS|);
    if next == w {
      QuietPassIff(t, w);
    } else {
      EarlyStopIsLocallyBest(t, next, n - 1);
    }
  }

  /** Any pass before the end lowers the loss, so the result is as good as the start only if that is a local optimum. */
  lemma DescendStays(t: Task, w: Four, n: nat)
    requires OnSimplex(w) && n > 0
    ensures LossOf(t, Descend(t, w, n)) == LossOf(t, w) <==> LocallyBest(t, w)
  {
    QuietPassIff(t, w);
  }

  // ----- which steps help, from the data alone

  /** How much faster the winners lead in one component than in the other three on average. */
  function Slope(x: Four, f: Component): real { Get(x, f) - (Total(x) - Get(x, f)) / 3.0 }

  /** What a step adds to the winners' weighted lead. */
  function Rise(x: Four, f: Component, delta: real): real { delta * Slope(x, f) }

  lemma MoveTerm(a: real, d: real, x: real)
    ensures (a + d) * x == a * x + d * x
  {}

  lemma ShiftDot(w: Four, f: Component, delta: real, x: Four)
    ensures Dot(Shifted(w, f, delta), x) == Dot(w, x) + Rise(x, f, delta)
  {
    var d := Shifted(w, f, delta);
    MoveTerm(w.relevance, d.relevance - w.relevance, x.relevance);
    MoveTerm(w.importance, d.importance - w.importance, x.importance);
    MoveTerm(w.recency, d.recency - w.recency, x.recency);
    MoveTerm(w.frequency, d.frequency - w.frequency, x.frequency);
    MulPlus(delta, Get(x, f), (Total(x) - Get(x, f)) / 3.0);
  }

  /** The step stays in range and goes along the slope. */
  predicate Helps(w: Four, x: Four, f: Component, delta: real) {
    AllUnit(Shifted(w, f, delta)) && Rise(x, f, delta) > 0.0
  }

  lemma LossFollowsDot(t: Task, w: Four, v: Four, change: real)
    requires OnSimplex(w) && OnSimplex(v) && UnitRecencies(t.entries)
    requires Dot(v, Leads(t.entries, t.feedback)) == Dot(w, Leads(t.entries, t.feedback)) + change
    ensures LossOf(t, v) == LossOf(t, w) - change
  {
    LossIsLinear(w, t.entries, t.feedback);
    LossIsLinear(v, t.entries, t.feedback);
  }

  lemma StepImproves(t: Task, w: Four, v: Four, f: Component, delta: real, change: real)
    requires OnSimplex(w) && OnSimplex(v) && Perturb(w, f, delta) == Some(v)
    requires LossOf(t, v) == LossOf(t, w) - change
    ensures Improves(t, w, f, delta) <==> change > 0.0
  {}

  /** A step helps exactly if it stays in range and goes along the slope of the winners' lead. */
  lemma ImprovesIff(t: Task, w: Four, f: Component, delta: real)
    requires OnSimplex(w) && UnitRecencies(t.entries)
    ensures Improves(t, w, f, delta) <==> Helps(w, Leads(t.entries, t.feedback), f, delta)
  {
    var x := Leads(t.entries, t.feedback);
    var change, c := Rise(x, f, delta), Perturb(w, f, delta);
    if c.Some? {
      ShiftDot(w, f, delta, x);
      LossFollowsDot(t, w, c.value, change);
      StepImproves(t, w, c.value, f, delta, change);
    }
  }

  predicate Boxed(w: Four, x: Four, f: Component, step: real) {
    !Helps(w, x, f, step) && !Helps(w, x, f, -step)
  }

  /** Every step along a slope of x leaves the range. */
  predicate Cornered(w: Four, x: Four, step: real) {
    forall f :: Boxed(w, x, f, step)
  }

  lemma StuckIff(t: Task, w: Four, f: Component)
    requires OnSimplex(w) && UnitRecencies(t.entries)
    ensures Stuck(t, w, f) <==> Boxed(w, Leads(t.entries, t.feedback), f, t.step)
  {
    ImprovesIff(t, w, f, t.step);
    ImprovesIff(t, w, f, -t.step);
  }

  /** Whether weights are a local optimum can be read off the winners' lead. */
  lemma LocallyBestIff(t: Task, w: Four)
    requires OnSimplex(w) && UnitRecencies(t.entries)
    ensures LocallyBest(t, w) <==> Cornered(w, Leads(t.entries, t.feedback), t.step)
  {
    forall f ensures Stuck(t, w, f) <==> Boxed(w, Leads(t.entries, t.feedback), f, t.step) {
      StuckIff(t, w, f);
    }
  }

  // ----- the grid of reachable weights

  function Units(k: int, unit: real): real { k as real * unit }

  /** x and y differ by a whole number of units. */
  ghost predicate Aligned(x: real, y: real, unit: real) {
    exists k: int :: x == y + Units(k, unit)
  }

  lemma UnitsAdd(k: int, l: int, unit: real)
    ensures Units(k + l, unit) == Units(k, unit) + Units(l, unit)
  {
    MoveTerm(k as real, l as real, unit);
  }

  lemma AlignedTransitive(x: real, y: real, z: real, unit: real)
    requires Aligned(x, y, unit) && Aligned(y, z, unit)
    ensures Aligned(x, z, unit)
  {
    var k: int :| x == y + Units(k, unit);
    var l: int :| y == z + Units(l, unit);
    UnitsAdd(k, l, unit);
    assert x == z + Units(k + l, unit);
  }

  lemma AlignedBy(x: real, y: real, unit: real, k: int)
    requires x == y + Units(k, unit)
    ensures Aligned(x, y, unit)
  {}

  // A whole step is three units, up or down; its share on the other weights is one.
  lemma ShiftAligned(w: Four, f: Component, delta: real, unit: real, c: Component)
    requires delta == 3.0 * unit || delta == -3.0 * unit
    ensures Aligned(Get(Shifted(w, f, delta), c), Get(w, c), unit)
  {
    var k := if delta == 3.0 * unit then 1 else -1;
    if c == f {
      AlignedBy(Get(Shifted(w, f, delta), c), Get(w, c), unit, 3 * k);
    } else {
      AlignedBy(Get(Shifted(w, f, delta), c), Get(w, c), unit, -k);
    }
  }

  lemma FieldStepMoves(t: Task, w: Four, f: Component)
    requires OnSimplex(w)
    ensures var r := FieldStep(t, w, f); r == w || r == Shifted(w, f, t.step) || r == Shifted(w, f, -t.step)
  {}

  lemma FieldStepAligned(t: Task, w: Four, f: Component, c: Component)
    requires OnSimplex(w)
    ensures Aligned(Get(FieldStep(t, w, f), c), Get(w, c), t.step / 3.0)
  {
    FieldStepMoves(t, w, f);
    ShiftAligned(w, f, t.step, t.step / 3.0, c);
    ShiftAligned(w, f, -t.step, t.step / 3.0, c);
    AlignedBy(Get(w, c), Get(w, c), t.step / 3.0, 0);
  }

  lemma {:induction false} PassAligned(t: Task, w: Four, n: nat, c: Component)
    requires OnSimplex(w) && n <= |FIELDS|
    ensures Aligned(Get(Pass(t, w, n), c), Get(w, c), t.step / 3.0)
  {
    if n == 0 {
      AlignedBy(Get(w, c), Get(w, c), t.step / 3.0, 0);
    } else {
      var before, unit := Pass(t, w, n - 1), t.step / 3.0;
      var after := FieldStep(t, before, FIELDS[n - 1]);
      assert Pass(t, w, n) == after;
      PassAligned(t, w, n - 1, c);
      FieldStepAligned(t, before, FIELDS[n - 1], c);
      AlignedTransitive(Get(after, c), Get(before, c), Get(w, c), unit);
    }
  }

  /** A descent moves every weight by whole thirds of the step. */
  lemma {:induction false} DescendAligned(t: Task, w: Four, n: nat, c: Component)
    requires OnSimplex(w)
    ensures Aligned(Get(Descend(t, w, n), c), Get(w, c), t.step / 3.0)
    decreases n
  {
    var next := Pass(t, w, |FIELDS|);
    if n == 0 || next == w {
      AlignedBy(Get(w, c), Get(w, c), t.step / 3.0, 0);
    } else {
      PassAligned(t, w, |FIELDS|, c);
      DescendAligned(t, next, n - 1, c);
      AlignedTransitive(Get(Descend(t, w, n), c), Get(next, c), Get(w, c), t.step / 3.0);
    }
  }
}
