/**
 Fitting the scoring weights, core/weight_learner.py: random starts, the best of the restarts, and the
 training log. The random draws are arguments.
 */
module Weights {
  import opened Common
  import opened Reals
  import opened Scoring
  import opened Descent

  // ----- starting points

  /** Three draws cut the unit interval in four. */
  datatype Draw = Draw(a: real, b: real, c: real)

  const MIN_CUT: real := 0.05

  function Min(x: real, y: real): real { if x <= y then x else y }
  function Max(x: real, y: real): real { if x <= y then y else x }

  lemma SharesAddUp(a: real, b: real, c: real, d: real, total: real)
    requires total == a + b + c + d && total > 0.0
    ensures a / total + b / total + c / total + d / total == 1.0
  {
    assert a / total + b / total + c / total + d / total == total / total;
  }

  lemma ShareNonneg(a: real, total: real)
    requires a >= 0.0 && total > 0.0
    ensures a / total >= 0.0
  {}

  /** The pieces into which three cuts divide the unit interval, none below the minimum, normalised. */
  function Pieces(low: real, mid: real, high: real): (w: Four)
    ensures OnSimplex(w)
  {
    var r, i := Max(MIN_CUT, low), Max(MIN_CUT, mid - low);
    var c, f := Max(MIN_CUT, high - mid), Max(MIN_CUT, 1.0 - high);
    var total := r + i + c + f;
    SharesAddUp(r, i, c, f, total);
    ShareNonneg(r, total);
    ShareNonneg(i, total);
    ShareNonneg(c, total);
    ShareNonneg(f, total);
    Four(r / total, i / total, c / total, f / total)
  }

  /** The sampled weights: the pieces cut off by the sorted draws. */
  function RandomWeights(d: Draw): (w: Four)
    ensures OnSimplex(w)
  {
    var low, high := Min(d.a, Min(d.b, d.c)), Max(d.a, Max(d.b, d.c));
    Pieces(low, d.a + d.b + d.c - low - high, high)
  }

  lemma Sorted(d: Draw, a: real, b: real, c: real)
    requires a <= b <= c && d in {Draw(a, b, c), Draw(a, c, b), Draw(b, a, c), Draw(b, c, a), Draw(c, a, b), Draw(c, b, a)}
    ensures RandomWeights(d) == Pieces(a, b, c)
  {
  }

  lemma WholePieces(a: real, b: real, c: real)
    requires 0.05 <= a <= b - 0.05 && b <= c - 0.05 && c <= 0.95
    ensures Pieces(a, b, c) == Four(a, b - a, c - b, 1.0 - c)
  {
  }

  /** Draws that cut off pieces of at least 0.05 are taken as they are, whatever their order. */
  lemma SampleIsCuts(d: Draw, a: real, b: real, c: real)
    requires 0.05 <= a <= b - 0.05 && b <= c - 0.05 && c <= 0.95
    requires d in {Draw(a, b, c), Draw(a, c, b), Draw(b, a, c), Draw(b, c, a), Draw(c, a, b), Draw(c, b, a)}
    ensures RandomWeights(d) == Four(a, b - a, c - b, 1.0 - c)
  {
    Sorted(d, a, b, c);
    WholePieces(a, b, c);
  }

  lemma PiecesHaveFloor(low: real, mid: real, high: real, f: Component)
    requires 0.0 <= low <= mid <= high <= 1.0
    ensures Get(Pieces(low, mid, high), f) >= 0.05 / 1.2
  {
    var r, i := Max(MIN_CUT, low), Max(MIN_CUT, mid - low);
    var c, g := Max(MIN_CUT, high - mid), Max(MIN_CUT, 1.0 - high);
    var total := r + i + c + g;
    ShareAtLeast(r, total);
    ShareAtLeast(i, total);
    ShareAtLeast(c, total);
    ShareAtLeast(g, total);
  }

  /** No sampled weight is below the minimum's share of what four raised pieces can add up to. */
  lemma SampleHasFloor(d: Draw, f: Component)
    requires Unit(d.a) && Unit(d.b) && Unit(d.c)
    ensures Get(RandomWeights(d), f) >= 0.05 / 1.2
  {
    var low, high := Min(d.a, Min(d.b, d.c)), Max(d.a, Max(d.b, d.c));
    PiecesHaveFloor(low, d.a + d.b + d.c - low - high, high, f);
  }

  lemma ShareAtLeast(x: real, total: real)
    requires x >= 0.05 && 0.0 < total <= 1.2
    ensures x / total >= 0.05 / 1.2
  {
    var least: real := 0.05 / 1.2;
    MulMono(total, 1.2, least);
    assert total * (x / total) == x;
    assert total * (x / total - least) == x - total * least;
    PositiveFactor(total, x / total - least);
  }

  function Starts(draws: seq<Draw>): (starts: seq<Four>)
    ensures |starts| == |draws| && AllOnSimplex(starts)
    ensures forall i :: 0 <= i < |draws| ==> starts[i] == RandomWeights(draws[i])
  {
    seq(|draws|, i requires 0 <= i < |draws| => RandomWeights(draws[i]))
  }

  predicate AllOnSimplex(starts: seq<Four>) {
    forall i :: 0 <= i < |starts| ==> OnSimplex(starts[i])
  }

  // ----- the best restart

  const MAX_ITER: nat := 30
  const MIN_FEEDBACK: nat := 3
  const DEFAULT_STEP: real := 0.05

  /** The weights one restart ends with. */
  function Restart(t: Task, start: Four): (r: Four)
    requires OnSimplex(start)
    ensures OnSimplex(r) && LossOf(t, r) <= LossOf(t, start)
  {
    Descend(t, start, t.maxIter)
  }

  /** The loss every restart ends with. */
  function RestartLosses(t: Task, starts: seq<Four>): (losses: seq<real>)
    requires AllOnSimplex(starts)
    ensures |losses| == |starts|
    ensures forall i :: 0 <= i < |starts| ==> losses[i] == LossOf(t, Restart(t, starts[i]))
  {
    seq(|starts|, i requires 0 <= i < |starts| => LossOf(t, Restart(t, starts[i])))
  }

  /** The first position of the least number. */
  function FirstLeast(xs: seq<real>): (r: Option<nat>)
    ensures r.Some? <==> xs != []
    ensures r.Some? ==> r.value < |xs|
    ensures r.Some? ==> forall j :: 0 <= j < |xs| ==> xs[r.value] <= xs[j]
    ensures r.Some? ==> forall j :: 0 <= j < r.value ==> xs[r.value] < xs[j]
  {
    if xs == [] then None
    else
      var n := |xs| - 1;
      var before := FirstLeast(xs[..n]);
      if before.None? || xs[n] < xs[before.value] then Some(n) else before
  }

  /** The first restart with the least loss. */
  function BestRestart(t: Task, starts: seq<Four>): (i: Option<nat>)
    requires AllOnSimplex(starts)
    ensures i.Some? <==> starts != []
    ensures i.Some? ==> i.value < |starts|
  {
    FirstLeast(RestartLosses(t, starts))
  }

  /** What fit makes of the weights in use: the restart with the least loss, if there is any restart. */
  function Fitted(t: Task, current: Four, starts: seq<Four>): Four
    requires AllOnSimplex(starts)
  {
    var best := BestRestart(t, starts);
    if best.None? then current else Restart(t, starts[best.value])
  }

  /** What is recorded of a fit: the negated loss, higher being better. */
  function MetricOf(starts: seq<Four>, loss: real): (metric: Option<real>)
    requires loss >= 0.0
    ensures metric.Some? ==> metric.value <= 0.0
  {
    if starts == [] then None else Some(-loss)
  }

  lemma MetricIs(starts: seq<Four>, loss: real, bestLoss: Option<real>)
    requires loss >= 0.0 && bestLoss == if starts == [] then None else Some(loss)
    ensures MetricOf(starts, loss) == if bestLoss.Some? then Some(-bestLoss.value) else None
  {}

  predicate BestSoFar(t: Task, current: Four, starts: seq<Four>, losses: seq<real>, n: nat,
                      best: Four, bestLoss: Option<real>)
    requires AllOnSimplex(starts) && n <= |starts| == |losses|
  {
    var least := FirstLeast(losses[..n]);
    if least.None? then best == current && bestLoss == None
    else best == Restart(t, starts[least.value]) && bestLoss == Some(losses[least.value])
  }

  lemma BestSoFarGrows(t: Task, current: Four, starts: seq<Four>, losses: seq<real>, n: nat,
                       best: Four, bestLoss: Option<real>)
    requires AllOnSimplex(starts) && n < |starts| == |losses| && BestSoFar(t, current, starts, losses, n, best, bestLoss)
    ensures if bestLoss.None? || losses[n] < bestLoss.value
            then BestSoFar(t, current, starts, losses, n + 1, Restart(t, starts[n]), Some(losses[n]))
            else BestSoFar(t, current, starts, losses, n + 1, best, bestLoss)
  {
    assert losses[..n + 1][..n] == losses[..n];
  }

  lemma BestSoFarAll(t: Task, current: Four, starts: seq<Four>, best: Four, bestLoss: Option<real>)
    requires AllOnSimplex(starts) && BestSoFar(t, current, starts, RestartLosses(t, starts), |starts|, best, bestLoss)
    ensures best == Fitted(t, current, starts)
    ensures bestLoss == if starts == [] then None else Some(LossOf(t, best))
  {
    var losses := RestartLosses(t, starts);
    assert losses[..|starts|] == losses;
    var i := BestRestart(t, starts);
    assert FirstLeast(losses[..|starts|]) == i;
    if i.Some? {
      assert best == Restart(t, starts[i.value]) && losses[i.value] == LossOf(t, best);
    }
  }

  // The position of the restart that wins.
  lemma FittedFrom(t: Task, current: Four, starts: seq<Four>) returns (i: nat)
    requires AllOnSimplex(starts) && starts != []
    ensures i < |starts| && Fitted(t, current, starts) == Restart(t, starts[i])
  {
    i := BestRestart(t, starts).value;
  }

  /** The fitted weights are no worse than any restart or any restart's start. */
  lemma FittedIsBest(t: Task, current: Four, starts: seq<Four>, j: nat)
    requires AllOnSimplex(starts) && j < |starts|
    ensures LossOf(t, Fitted(t, current, starts)) <= LossOf(t, Restart(t, starts[j])) <= LossOf(t, starts[j])
  {
    var losses := RestartLosses(t, starts);
    var least := FirstLeast(losses).value;
    assert losses[least] <= losses[j];
  }

  // ----- the weights in use do not compete

  function LeadsOf(t: Task): Four { Leads(t.entries, t.feedback) }

  ghost predicate SomeStartNoWorse(t: Task, current: Four, starts: seq<Four>) {
    exists i :: 0 <= i < |starts| && LossOf(t, starts[i]) <= LossOf(t, current)
  }

  /** A start no worse than the weights in use makes the fit no worse. */
  lemma FitNoWorseIf(t: Task, current: Four, starts: seq<Four>)
    requires AllOnSimplex(starts) && SomeStartNoWorse(t, current, starts)
    ensures LossOf(t, Fitted(t, current, starts)) <= LossOf(t, current)
  {
    var i :| 0 <= i < |starts| && LossOf(t, starts[i]) <= LossOf(t, current);
    FittedIsBest(t, current, starts, i);
  }

  lemma CorneredStays(t: Task, start: Four)
    requires OnSimplex(start) && UnitRecencies(t.entries) && Cornered(start, LeadsOf(t), t.step)
    ensures Restart(t, start) == start
  {
    LocallyBestIff(t, start);
    QuietPassIff(t, start);
  }

  /** Where no single step along the winners' lead is open to any start, it takes such a start. */
  lemma FitNoWorseIff(t: Task, current: Four, starts: seq<Four>)
    requires AllOnSimplex(starts) && starts != [] && UnitRecencies(t.entries)
    requires forall i :: 0 <= i < |starts| ==> Cornered(starts[i], LeadsOf(t), t.step)
    ensures LossOf(t, Fitted(t, current, starts)) <= LossOf(t, current) <==> SomeStartNoWorse(t, current, starts)
  {
    if SomeStartNoWorse(t, current, starts) {
      FitNoWorseIf(t, current, starts);
    } else {
      var k := FittedFrom(t, current, starts);
      CorneredStays(t, starts[k]);
    }
  }

  /** All the weight on one component. */
  function Vertex(c: Component): (w: Four)
    ensures OnSimplex(w) && forall d :: Get(w, d) == if d == c then 1.0 else 0.0
  {
    var w := Four(if c.Relevance? then 1.0 else 0.0, if c.Importance? then 1.0 else 0.0,
                  if c.Recency? then 1.0 else 0.0, if c.Frequency? then 1.0 else 0.0);
    assert forall d :: Get(w, d) == if d == c then 1.0 else 0.0;
    w
  }

  predicate Leading(x: Four, c: Component) { forall d :: Get(x, d) <= Get(x, c) }

  lemma LeaderExists(x: Four) returns (c: Component)
    ensures Leading(x, c)
  {
    var m := Max(Max(x.relevance, x.importance), Max(x.recency, x.frequency));
    c := if x.relevance == m then Relevance else if x.importance == m then Importance
         else if x.recency == m then Recency else Frequency;
    assert Get(x, c) == m;
  }

  // Any weight off the leading component costs something.
  lemma DotBelowLeader(w: Four, x: Four, c: Component, d: Component)
    requires OnSimplex(w) && Leading(x, c) && Get(w, d) > 0.0 && Get(x, d) < Get(x, c)
    ensures Dot(w, x) < Get(x, c)
  {
    var gap := Minus(Same(Get(x, c)), x);
    FourNonneg(w);
    DotSame(w, Get(x, c));
    DotPlus(w, Same(Get(x, c)), x);
    assert Get(x, Relevance) <= Get(x, c) && Get(x, Importance) <= Get(x, c)
        && Get(x, Recency) <= Get(x, c) && Get(x, Frequency) <= Get(x, c);
    DotAtLeast(w, gap, d);
    MulPositive(Get(w, d), Get(gap, d));
  }

  lemma DotAtLeast(w: Four, x: Four, d: Component)
    requires w.relevance >= 0.0 && w.importance >= 0.0 && w.recency >= 0.0 && w.frequency >= 0.0
    requires x.relevance >= 0.0 && x.importance >= 0.0 && x.recency >= 0.0 && x.frequency >= 0.0
    ensures Dot(w, x) >= Get(w, d) * Get(x, d)
  {
    MulNonneg(w.relevance, x.relevance);
    MulNonneg(w.importance, x.importance);
    MulNonneg(w.recency, x.recency);
    MulNonneg(w.frequency, x.frequency);
  }

  lemma MulPositive(a: real, b: real)
    requires a > 0.0 && b > 0.0
    ensures a * b > 0.0
  {}

  lemma VertexDot(x: Four, c: Component)
    ensures Dot(Vertex(c), x) == Get(x, c)
  {
    assert Get(Vertex(c), Relevance) == (if c.Relevance? then 1.0 else 0.0);
  }

  /** No whole number of units away from zero. */
  ghost predicate OffGrid(x: real, unit: real) { !Aligned(0.0, x, unit) }

  /** A component that does not lead and whose weight the descent can never bring to zero. */
  ghost predicate KeepsWeight(t: Task, start: Four, c: Component, d: Component) {
    Get(LeadsOf(t), d) < Get(LeadsOf(t), c) && OffGrid(Get(start, d), t.step / 3.0)
  }

  ghost predicate FallsShort(t: Task, start: Four, c: Component) {
    exists d :: KeepsWeight(t, start, c, d)
  }

  lemma RestartFallsShort(t: Task, start: Four, c: Component, d: Component)
    requires OnSimplex(start) && UnitRecencies(t.entries)
    requires Leading(LeadsOf(t), c) && KeepsWeight(t, start, c, d)
    ensures LossOf(t, Restart(t, start)) > LossOf(t, Vertex(c))
  {
    var r := Restart(t, start);
    DescendAligned(t, start, t.maxIter, d);
    assert Get(r, d) >= 0.0;
    assert Get(r, d) != 0.0;
    DotBelowLeader(r, LeadsOf(t), c, d);
    VertexDot(LeadsOf(t), c);
    LossIsLinear(r, t.entries, t.feedback);
    LossIsLinear(Vertex(c), t.entries, t.feedback);
  }

  /** Where every start keeps some weight off the leading component, a fit replaces the best weights by worse ones. */
  lemma FitFallsShort(t: Task, starts: seq<Four>, c: Component)
    requires AllOnSimplex(starts) && starts != [] && UnitRecencies(t.entries) && Leading(LeadsOf(t), c)
    requires forall i :: 0 <= i < |starts| ==> FallsShort(t, starts[i], c)
    ensures LossOf(t, Fitted(t, Vertex(c), starts)) > LossOf(t, Vertex(c))
  {
    var i := FittedFrom(t, Vertex(c), starts);
    var d :| KeepsWeight(t, starts[i], c, d);
    RestartFallsShort(t, starts[i], c, d);
  }

  predicate AllEqual(x: Four) { x == Same(x.relevance) }

  /** From starts off the grid, a fit is no worse than the weights in use, whatever they are,
      exactly if the winners lead by the same in all four components. */
  lemma FitNeverWorseIff(t: Task, starts: seq<Four>)
    requires AllOnSimplex(starts) && starts != [] && UnitRecencies(t.entries)
    requires forall i, d :: 0 <= i < |starts| ==> OffGrid(Get(starts[i], d), t.step / 3.0)
    ensures (forall current :: OnSimplex(current) ==> LossOf(t, Fitted(t, current, starts)) <= LossOf(t, current))
       <==> AllEqual(LeadsOf(t))
  {
    var x := LeadsOf(t);
    if AllEqual(x) {
      forall current | OnSimplex(current) ensures LossOf(t, Fitted(t, current, starts)) <= LossOf(t, current) {
        var i := FittedFrom(t, current, starts);
        LossIsLinear(current, t.entries, t.feedback);
        LossIsLinear(Restart(t, starts[i]), t.entries, t.feedback);
        DotSame(current, x.relevance);
        DotSame(Restart(t, starts[i]), x.relevance);
      }
    } else {
      var c := LeaderExists(x);
      var d := SomeoneBehind(x, c);
      forall i | 0 <= i < |starts| ensures FallsShort(t, starts[i], c) {
        assert OffGrid(Get(starts[i], d), t.step / 3.0);
        assert KeepsWeight(t, starts[i], c, d);
      }
      FitFallsShort(t, starts, c);
    }
  }

  lemma SomeoneBehind(x: Four, c: Component) returns (d: Component)
    requires Leading(x, c) && !AllEqual(x)
    ensures Get(x, d) < Get(x, c)
  {
    d := if x.relevance != Get(x, c) then Relevance else if x.importance != Get(x, c) then Importance
         else if x.recency != Get(x, c) then Recency else Frequency;
    assert Get(x, d) <= Get(x, c);
  }

  /** It happens with the default step and a start the sampler can return: from draws 0.05, 0.89 and 0.95
      the weight of recency, 0.06, is no multiple of a third of the step. */
  lemma FitCanBeWorse(n: nat) returns (t: Task, current: Four, draw: Draw)
    ensures t.maxIter == n && t.step == 0.05 && |t.feedback| == 3 && UnitRecencies(t.entries)
    ensures OnSimplex(current) && 0.0 <= draw.a < 1.0 && 0.0 <= draw.b < 1.0 && 0.0 <= draw.c < 1.0
    ensures LossOf(t, Fitted(t, current, Starts([draw]))) > LossOf(t, current)
  {
    t := RelevanceTask(n, Feedback(1, 2));
    current, draw := Vertex(Relevance), Draw(0.05, 0.89, 0.95);
    SampledStart();
    OffTheGrid(DEFAULT_STEP / 3.0);
    var start := RandomWeights(draw);
    assert KeepsWeight(t, start, Relevance, Recency);
    assert FallsShort(t, start, Relevance);
    FitFallsShort(t, Starts([draw]), Relevance);
  }

  // Three times the same pair, of entries that differ in relevance only, by all of it.
  lemma RelevanceTask(n: nat, fb: Feedback) returns (t: Task)
    requires fb.winner != fb.loser
    ensures t.maxIter == n && t.step == DEFAULT_STEP && |t.feedback| == MIN_FEEDBACK && UnitRecencies(t.entries)
    ensures LeadsOf(t) == Four(3.0, 0.0, 0.0, 0.0)
  {
    var entries := RelevancePair(fb);
    t := Task(entries, [] + [fb] + [fb] + [fb], DEFAULT_STEP, n);
    RelevanceLeads(entries, fb, [] + [fb] + [fb] + [fb]);
  }

  lemma RelevanceLeads(entries: map<int, Entry>, fb: Feedback, three: seq<Feedback>)
    requires Known(entries, fb) && three == [] + [fb] + [fb] + [fb]
    requires entries[fb.winner] == Entry(Some(1.0), Some(0.0), 0.0) && entries[fb.loser] == Entry(Some(0.0), Some(0.0), 0.0)
    ensures Leads(entries, three) == Four(3.0, 0.0, 0.0, 0.0)
  {
    var x := Four(1.0, 0.0, 0.0, 0.0);
    RelevanceLead(entries, fb);
    ThreeLeads(entries, [] + [fb], [] + [fb] + [fb], three, fb, x);
    ThreeTimes(x);
  }

  lemma RelevancePair(fb: Feedback) returns (entries: map<int, Entry>)
    requires fb.winner != fb.loser
    ensures Known(entries, fb) && UnitRecencies(entries)
    ensures entries[fb.winner] == Entry(Some(1.0), Some(0.0), 0.0) && entries[fb.loser] == Entry(Some(0.0), Some(0.0), 0.0)
  {
    entries := map[fb.winner := Entry(Some(1.0), Some(0.0), 0.0), fb.loser := Entry(Some(0.0), Some(0.0), 0.0)];
  }

  lemma SampledStart()
    ensures RandomWeights(Draw(0.05, 0.89, 0.95)) == Four(0.05, 0.84, 0.06, 0.05)
  {}

  lemma LeadsSnoc(entries: map<int, Entry>, feedback: seq<Feedback>, fb: Feedback)
    ensures Leads(entries, feedback + [fb]) == Plus(Leads(entries, feedback), Lead(entries, fb))
  {
    assert (feedback + [fb])[..|feedback|] == feedback;
  }

  lemma ThreeTimes(x: Four)
    ensures Plus(Plus(Plus(ZERO, x), x), x)
         == Four(3.0 * x.relevance, 3.0 * x.importance, 3.0 * x.recency, 3.0 * x.frequency)
  {}

  lemma ThreeLeads(entries: map<int, Entry>, one: seq<Feedback>, two: seq<Feedback>, three: seq<Feedback>, fb: Feedback, x: Four)
    requires x == Lead(entries, fb) && one == [] + [fb] && two == one + [fb] && three == two + [fb]
    ensures Leads(entries, three) == Plus(Plus(Plus(ZERO, x), x), x)
  {
    LeadsSnoc(entries, [], fb);
    LeadsSnoc(entries, one, fb);
    LeadsSnoc(entries, two, fb);
  }

  // A pair of entries that differ in relevance only, by all of it.
  lemma RelevanceLead(entries: map<int, Entry>, fb: Feedback)
    requires Known(entries, fb)
    requires entries[fb.winner] == Entry(Some(1.0), Some(0.0), 0.0) && entries[fb.loser] == Entry(Some(0.0), Some(0.0), 0.0)
    ensures Lead(entries, fb) == Four(1.0, 0.0, 0.0, 0.0)
  {
    var x, y := Standard(entries[fb.winner]), Standard(entries[fb.loser]);
    assert x.frequency == y.frequency && x.recency == y.recency && x.importance == y.importance;
  }

  lemma OffTheGrid(unit: real)
    requires unit == DEFAULT_STEP / 3.0
    ensures OffGrid(0.06, unit)
  {
    forall k: int ensures 0.0 != 0.06 + Units(k, unit) {
      assert Units(k, unit) * 60.0 == k as real;
      assert 0.06 * 60.0 == 3.6;
      assert k as real != -3.6;
    }
  }

  // ----- the training log

  /** Metrics are negated losses; None stands for minus infinity, when there was no restart. */
  datatype TrainingLog = TrainingLog(iterations: nat, bestWeights: Option<Four>, bestMetric: real,
                                     history: seq<Fit>)

  const NEW_LOG: TrainingLog := TrainingLog(0, None, 0.0, [])

  function Record(log: TrainingLog, w: Four, metric: Option<real>): TrainingLog {
    var better := metric.Some? && metric.value > log.bestMetric;
    TrainingLog(log.iterations + 1, if better then Some(w) else log.bestWeights,
                if better then metric.value else log.bestMetric, log.history + [Fit(w, metric)])
  }

  datatype Fit = Fit(weights: Four, metric: Option<real>)

  function RecordAll(fits: seq<Fit>): TrainingLog {
    if fits == [] then NEW_LOG
    else Record(RecordAll(fits[..|fits| - 1]), fits[|fits| - 1].weights, fits[|fits| - 1].metric)
  }

  /** The best metric starts at zero and no negated loss is above it: however many fits are recorded,
      the learner reports no best weights. */
  lemma {:induction false} BestWeightsNeverReported(fits: seq<Fit>)
    requires forall i :: 0 <= i < |fits| && fits[i].metric.Some? ==> fits[i].metric.value <= 0.0
    ensures RecordAll(fits).bestWeights == None && RecordAll(fits).bestMetric == 0.0
    ensures RecordAll(fits).iterations == |fits|
  {
    if fits != [] {
      BestWeightsNeverReported(fits[..|fits| - 1]);
    }
  }

  /** Every fit is logged with its weights and its metric. */
  lemma {:induction false} LogKeepsFits(fits: seq<Fit>)
    ensures RecordAll(fits).history == fits
  {
    if fits != [] {
      var front, last := fits[..|fits| - 1], fits[|fits| - 1];
      LogKeepsFits(front);
      RecordKeeps(RecordAll(front), last);
      assert front + [last] == fits;
    }
  }

  lemma RecordKeeps(log: TrainingLog, f: Fit)
    ensures Record(log, f.weights, f.metric).history == log.history + [f]
  {
  }

  // ----- the objects

  class MemoryScorer {
    var weights: Four

    constructor (weights: Four)
      ensures this.weights == weights
    {
      this.weights := weights;
    }
  }

  class PairwiseWeightLearner {
    const step: real
    const maxIter: nat
    var feedback: seq<Feedback>
    var log: TrainingLog

    constructor (step: real := 0.05)
      ensures this.step == step && maxIter == 30 && feedback == [] && log == NEW_LOG
    {
      this.step, maxIter, feedback, log := step, MAX_ITER, [], NEW_LOG;
    }

    method RecordFeedback(fb: Feedback)
      modifies this`feedback
      ensures feedback == old(feedback) + [fb]
    {
      feedback := feedback + [fb];
    }

    function TaskFor(entries: map<int, Entry>): Task
      reads this`feedback
    {
      Task(entries, feedback, step, maxIter)
    }

    method CoordinateDescent(start: Four, entries: map<int, Entry>, maxIter: nat)
      returns (w: Four, passes: nat)
      requires OnSimplex(start)
      ensures OnSimplex(w) && w == Descend(TaskFor(entries), start, maxIter)
      ensures LossOf(TaskFor(entries), w) <= LossOf(TaskFor(entries), start)
      ensures passes <= maxIter && (passes < maxIter ==> LocallyBest(TaskFor(entries), w))
    {
      ghost var t := TaskFor(entries);
      w := start;
      passes := 0;
      var currentLoss := Loss(w, entries, feedback);
      while passes < maxIter
        invariant passes <= maxIter && OnSimplex(w) && currentLoss == LossOf(t, w)
        invariant Descend(t, start, maxIter) == Descend(t, w, maxIter - passes)
      {
        ghost var before := w;
        var improved;
        w, currentLoss, improved := OnePass(w, currentLoss, entries);
        if !improved {
          QuietPassIff(t, before);
          return;
        }
        passes := passes + 1;
      }
    }

    // One turn of the outer loop: every coordinate once.
    method OnePass(start: Four, startLoss: real, entries: map<int, Entry>)
      returns (w: Four, currentLoss: real, improved: bool)
      requires OnSimplex(start) && startLoss == LossOf(TaskFor(entries), start)
      ensures w == Pass(TaskFor(entries), start, |FIELDS|) && currentLoss == LossOf(TaskFor(entries), w)
      ensures improved <==> w != start
    {
      ghost var t := TaskFor(entries);
      w, currentLoss, improved := start, startLoss, false;
      var i := 0;
      while i < |FIELDS|
        invariant i <= |FIELDS| && w == Pass(t, start, i) && currentLoss == LossOf(t, w)
        invariant improved <==> w != start
      {
        var stepped;
        w, currentLoss, stepped := TryField(w, currentLoss, FIELDS[i], entries);
        improved := improved || stepped;
        i := i + 1;
      }
    }

    // One coordinate: up, and if that does not help, down.
    method TryField(start: Four, startLoss: real, f: Component, entries: map<int, Entry>)
      returns (w: Four, currentLoss: real, stepped: bool)
      requires OnSimplex(start) && startLoss == LossOf(TaskFor(entries), start)
      ensures w == FieldStep(TaskFor(entries), start, f) && currentLoss == LossOf(TaskFor(entries), w)
      ensures stepped <==> w != start
    {
      w, currentLoss, stepped := TryStep(start, startLoss, f, step, entries);
      if !stepped {
        w, currentLoss, stepped := TryStep(start, startLoss, f, -step, entries);
      }
    }

    // Takes the step if it is valid and lowers the loss.
    method TryStep(start: Four, startLoss: real, f: Component, delta: real, entries: map<int, Entry>)
      returns (w: Four, currentLoss: real, stepped: bool)
      requires OnSimplex(start) && startLoss == LossOf(TaskFor(entries), start)
      ensures stepped <==> Improves(TaskFor(entries), start, f, delta)
      ensures w == if stepped then Perturb(start, f, delta).value else start
      ensures currentLoss == LossOf(TaskFor(entries), w)
    {
      w, currentLoss, stepped := start, startLoss, false;
      var candidate := Perturb(start, f, delta);
      if candidate.Some? {
        var loss := Loss(candidate.value, entries, feedback);
        if loss < currentLoss {
          w, currentLoss, stepped := candidate.value, loss, true;
        }
      }
    }

    /** Fits from as many sampled starts as there are draws. With too little feedback nothing happens; otherwise the
        scorer gets the best of the restarts, even where its own weights were better. */
    method Fit(scorer: MemoryScorer, entries: map<int, Entry>, draws: seq<Draw>) returns (best: Four)
      modifies scorer, this`log
      ensures best == scorer.weights
      ensures |feedback| < 3 ==> scorer.weights == old(scorer.weights) && log == old(log)
      ensures |feedback| >= 3 ==>
                var t, starts := TaskFor(entries), Starts(draws);
                scorer.weights == Fitted(t, old(scorer.weights), starts)
                && log == Record(old(log), best, MetricOf(starts, LossOf(t, best)))
    {
      if |feedback| < MIN_FEEDBACK {
        return scorer.weights;
      }
      ghost var t, current, starts := TaskFor(entries), scorer.weights, Starts(draws);
      ghost var losses := RestartLosses(t, starts);
      best := scorer.weights;
      var bestLoss: Option<real> := None;
      var i := 0;
      while i < |draws|
        invariant i <= |draws| && log == old(log)
        invariant BestSoFar(t, current, starts, losses, i, best, bestLoss)
      {
        var w, _ := CoordinateDescent(RandomWeights(draws[i]), entries, maxIter);
        var loss := Loss(w, entries, feedback);
        assert w == Restart(t, starts[i]) && loss == losses[i];
        BestSoFarGrows(t, current, starts, losses, i, best, bestLoss);
        if bestLoss.None? || loss < bestLoss.value {
          bestLoss := Some(loss);
          best := w;
        }
        i := i + 1;
      }
      BestSoFarAll(t, current, starts, best, bestLoss);
      MetricIs(starts, LossOf(t, best), bestLoss);
      var metric := if bestLoss.Some? then Some(-bestLoss.value) else None;
      scorer.weights := best;
      log := Record(log, best, metric);
      assert TaskFor(entries) == t;
    }
  }
}
