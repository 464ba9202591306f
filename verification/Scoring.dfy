/**
 The convex score of core/memory_scorer.py and the pairwise ranking loss of core/weight_learner.py over it.
 The clock stands still: an entry carries its recency.
 */
module Scoring {
  import opened Common
  import opened Reals

  datatype Component = Relevance | Importance | Recency | Frequency

  /** Four numbers, one for each component: weights, or the components of an entry. */
  datatype Four = Four(relevance: real, importance: real, recency: real, frequency: real)

  function Get(w: Four, f: Component): real {
    match f
    case Relevance => w.relevance
    case Importance => w.importance
    case Recency => w.recency
    case Frequency => w.frequency
  }

  function Total(w: Four): real { w.relevance + w.importance + w.recency + w.frequency }

  predicate OnSimplex(w: Four) {
    (forall f :: Get(w, f) >= 0.0) && Total(w) == 1.0
  }

  lemma FourNonneg(w: Four)
    requires OnSimplex(w)
    ensures w.relevance >= 0.0 && w.importance >= 0.0 && w.recency >= 0.0 && w.frequency >= 0.0
    ensures w.relevance <= 1.0 && w.importance <= 1.0 && w.recency <= 1.0 && w.frequency <= 1.0
  {
    assert Get(w, Relevance) >= 0.0 && Get(w, Importance) >= 0.0 && Get(w, Recency) >= 0.0 && Get(w, Frequency) >= 0.0;
  }

  function Dot(w: Four, x: Four): real {
    w.relevance * x.relevance + w.importance * x.importance + w.recency * x.recency + w.frequency * x.frequency
  }

  function Minus(x: Four, y: Four): Four {
    Four(x.relevance - y.relevance, x.importance - y.importance, x.recency - y.recency, x.frequency - y.frequency)
  }

  function Plus(x: Four, y: Four): Four {
    Four(x.relevance + y.relevance, x.importance + y.importance, x.recency + y.recency, x.frequency + y.frequency)
  }

  lemma MulPlus(a: real, x: real, y: real)
    ensures a * (x + y) == a * x + a * y
    ensures a * (x - y) == a * x - a * y
  {}

  lemma DotPlus(w: Four, x: Four, y: Four)
    ensures Dot(w, Plus(x, y)) == Dot(w, x) + Dot(w, y)
    ensures Dot(w, Minus(x, y)) == Dot(w, x) - Dot(w, y)
  {
    MulPlus(w.relevance, x.relevance, y.relevance);
    MulPlus(w.importance, x.importance, y.importance);
    MulPlus(w.recency, x.recency, y.recency);
    MulPlus(w.frequency, x.frequency, y.frequency);
  }

  lemma DotNonneg(w: Four, x: Four)
    requires OnSimplex(w) && x.relevance >= 0.0 && x.importance >= 0.0 && x.recency >= 0.0 && x.frequency >= 0.0
    ensures Dot(w, x) >= 0.0
  {
    FourNonneg(w);
    MulNonneg(w.relevance, x.relevance);
    MulNonneg(w.importance, x.importance);
    MulNonneg(w.recency, x.recency);
    MulNonneg(w.frequency, x.frequency);
  }

  function Same(c: real): Four { Four(c, c, c, c) }

  lemma DotSame(w: Four, c: real)
    requires Total(w) == 1.0
    ensures Dot(w, Same(c)) == c
  {
    assert Dot(w, Same(c)) == Total(w) * c;
  }

  // ----- the score

  /** Relevance and importance may be missing; both then count as one half. */
  datatype Entry = Entry(relevance: Option<real>, importance: Option<real>, recency: real)

  function OrHalf(x: Option<real>): (r: real)
    ensures Unit(r)
  {
    if x.Some? then Clamp(x.value) else 0.5
  }

  /** The four raw components of an entry retrieved the given number of times. */
  function Parts(e: Entry, accesses: int, maxAccesses: int): Four {
    Four(OrHalf(e.relevance), OrHalf(e.importance), e.recency,
         Clamp(accesses as real / (if maxAccesses > 1 then maxAccesses else 1) as real))
  }

  function Score(w: Four, e: Entry, accesses: int, maxAccesses: int): (s: real)
    ensures Unit(s)
  {
    Clamp(Dot(w, Parts(e, accesses, maxAccesses)))
  }

  /** Weights on one component only score by that component. */
  lemma PureScores(e: Entry, accesses: int, maxAccesses: int)
    requires Unit(e.recency)
    ensures Score(Four(1.0, 0.0, 0.0, 0.0), e, accesses, maxAccesses)
         == if e.relevance.Some? then Clamp(e.relevance.value) else 0.5
    ensures Score(Four(0.0, 1.0, 0.0, 0.0), e, accesses, maxAccesses)
         == if e.importance.Some? then Clamp(e.importance.value) else 0.5
    ensures Score(Four(0.0, 0.0, 1.0, 0.0), e, accesses, maxAccesses) == e.recency
    ensures 0 <= accesses <= maxAccesses && maxAccesses >= 1 ==>
      Score(Four(0.0, 0.0, 0.0, 1.0), e, accesses, maxAccesses) == accesses as real / maxAccesses as real
    ensures accesses >= maxAccesses >= 1 ==> Score(Four(0.0, 0.0, 0.0, 1.0), e, accesses, maxAccesses) == 1.0
  {
    PureDots(Parts(e, accesses, maxAccesses));
    if maxAccesses >= 1 {
      AccessShare(accesses, maxAccesses);
    }
  }

  lemma AccessShare(accesses: int, maxAccesses: int)
    requires maxAccesses >= 1
    ensures 0 <= accesses <= maxAccesses ==> Unit(accesses as real / maxAccesses as real)
    ensures accesses >= maxAccesses ==> Clamp(accesses as real / maxAccesses as real) == 1.0
  {
    var q := accesses as real / maxAccesses as real;
    assert q * maxAccesses as real == accesses as real;
    if 0 <= accesses {
      QuotientNonneg(accesses as real, maxAccesses as real);
    }
    AtMostOneIff(q, maxAccesses as real);
  }

  lemma AtMostOneIff(q: real, n: real)
    requires n > 0.0
    ensures (q <= 1.0 <==> q * n <= n) && (q >= 1.0 <==> q * n >= n)
  {
    if q <= 1.0 {
      MulMono(q, 1.0, n);
    }
    if q >= 1.0 {
      MulMono(1.0, q, n);
    }
    if q * n <= n {
      assert n * (1.0 - q) >= 0.0;
      PositiveFactor(n, 1.0 - q);
    }
    if q * n >= n {
      assert n * (q - 1.0) >= 0.0;
      PositiveFactor(n, q - 1.0);
    }
  }

  /** A score is the weighted mean of the four pure scores. */
  lemma ScoreIsWeightedMean(w: Four, e: Entry, accesses: int, maxAccesses: int)
    requires OnSimplex(w) && Unit(e.recency)
    ensures Score(w, e, accesses, maxAccesses)
         == Dot(w, Four(Score(Four(1.0, 0.0, 0.0, 0.0), e, accesses, maxAccesses),
                        Score(Four(0.0, 1.0, 0.0, 0.0), e, accesses, maxAccesses),
                        Score(Four(0.0, 0.0, 1.0, 0.0), e, accesses, maxAccesses),
                        Score(Four(0.0, 0.0, 0.0, 1.0), e, accesses, maxAccesses)))
  {
    var x := Parts(e, accesses, maxAccesses);
    assert AllBetween(x, 0.0, 1.0);
    Mixed(w, x, 0.0, 1.0);
    PureDots(x);
  }

  lemma PureDots(x: Four)
    ensures Dot(Four(1.0, 0.0, 0.0, 0.0), x) == x.relevance && Dot(Four(0.0, 1.0, 0.0, 0.0), x) == x.importance
    ensures Dot(Four(0.0, 0.0, 1.0, 0.0), x) == x.recency && Dot(Four(0.0, 0.0, 0.0, 1.0), x) == x.frequency
  {
  }

  ghost predicate AllBetween(x: Four, low: real, high: real) {
    low <= x.relevance <= high && low <= x.importance <= high && low <= x.recency <= high && low <= x.frequency <= high
  }

  lemma Mixed(w: Four, x: Four, low: real, high: real)
    requires OnSimplex(w) && AllBetween(x, low, high)
    ensures low <= Dot(w, x) <= high
  {
    DotNonneg(w, Minus(x, Same(low)));
    DotNonneg(w, Minus(Same(high), x));
    DotPlus(w, x, Same(low));
    DotPlus(w, Same(high), x);
    DotSame(w, low);
    DotSame(w, high);
  }

  /** With weights on the simplex the score lies between the least and the greatest component,
      so the final clamp changes nothing. */
  lemma ScoreIsConvex(w: Four, e: Entry, accesses: int, maxAccesses: int, low: real, high: real)
    requires OnSimplex(w) && 0.0 <= low && high <= 1.0 && AllBetween(Parts(e, accesses, maxAccesses), low, high)
    ensures low <= Score(w, e, accesses, maxAccesses) <= high
    ensures Score(w, e, accesses, maxAccesses) == Dot(w, Parts(e, accesses, maxAccesses))
  {
    Mixed(w, Parts(e, accesses, maxAccesses), low, high);
  }

  // ----- the loss

  datatype Feedback = Feedback(winner: int, loser: int)

  /** The learner leaves the access counts at their defaults, one out of ten. */
  const ACCESSES: int := 1
  const MAX_ACCESSES: int := 10

  function Standard(e: Entry): Four { Parts(e, ACCESSES, MAX_ACCESSES) }

  predicate Known(entries: map<int, Entry>, fb: Feedback) { fb.winner in entries && fb.loser in entries }

  function Hinge(w: Four, entries: map<int, Entry>, fb: Feedback): (h: real)
    ensures 0.0 <= h <= 2.0
  {
    if !Known(entries, fb) then 0.0
    else
      var miss := 1.0 - (Score(w, entries[fb.winner], ACCESSES, MAX_ACCESSES) - Score(w, entries[fb.loser], ACCESSES, MAX_ACCESSES));
      if miss > 0.0 then miss else 0.0
  }

  /** The pairwise ranking loss; pairs with an unknown entry do not count. */
  function Loss(w: Four, entries: map<int, Entry>, feedback: seq<Feedback>): (l: real)
    ensures l >= 0.0
  {
    if feedback == [] then 0.0
    else Loss(w, entries, feedback[..|feedback| - 1]) + Hinge(w, entries, feedback[|feedback| - 1])
  }

  // ----- on the simplex the loss is linear

  const ZERO: Four := Four(0.0, 0.0, 0.0, 0.0)

  /** By how much the winner of a pair is ahead in each component. */
  function Lead(entries: map<int, Entry>, fb: Feedback): Four {
    if Known(entries, fb) then Minus(Standard(entries[fb.winner]), Standard(entries[fb.loser])) else ZERO
  }

  function Leads(entries: map<int, Entry>, feedback: seq<Feedback>): Four {
    if feedback == [] then ZERO
    else Plus(Leads(entries, feedback[..|feedback| - 1]), Lead(entries, feedback[|feedback| - 1]))
  }

  function Pairs(entries: map<int, Entry>, feedback: seq<Feedback>): nat {
    if feedback == [] then 0
    else Pairs(entries, feedback[..|feedback| - 1]) + (if Known(entries, feedback[|feedback| - 1]) then 1 else 0)
  }

  predicate UnitRecencies(entries: map<int, Entry>) {
    forall id :: id in entries ==> Unit(entries[id].recency)
  }

  /** The hinge never lets go: two scores in [0, 1] are never more than 1 apart. */
  lemma HingeIsLinear(w: Four, entries: map<int, Entry>, fb: Feedback)
    requires OnSimplex(w) && UnitRecencies(entries)
    ensures Hinge(w, entries, fb) == (if Known(entries, fb) then 1.0 else 0.0) - Dot(w, Lead(entries, fb))
  {
    if Known(entries, fb) {
      var x, y := entries[fb.winner], entries[fb.loser];
      ScoreIsConvex(w, x, ACCESSES, MAX_ACCESSES, 0.0, 1.0);
      ScoreIsConvex(w, y, ACCESSES, MAX_ACCESSES, 0.0, 1.0);
      DotPlus(w, Standard(x), Standard(y));
    }
  }

  /** On the simplex the loss is the number of known pairs less the weighted lead of the winners. */
  lemma {:induction false} LossIsLinear(w: Four, entries: map<int, Entry>, feedback: seq<Feedback>)
    requires OnSimplex(w) && UnitRecencies(entries)
    ensures Loss(w, entries, feedback) == Pairs(entries, feedback) as real - Dot(w, Leads(entries, feedback))
  {
    if feedback != [] {
      var front, fb := feedback[..|feedback| - 1], feedback[|feedback| - 1];
      LossIsLinear(w, entries, front);
      HingeIsLinear(w, entries, fb);
      DotPlus(w, Leads(entries, front), Lead(entries, fb));
    }
  }
}
