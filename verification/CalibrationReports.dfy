/**
 What a calibration report says, told by the cases alone: for buckets that divide [0, 1] evenly, which
 cases a bucket is about, their mean confidence, how many of them were correct, and the error over all.
 */
module CalibrationReports {
  import opened Calibration
  import opened Reals

  /** The cases from low up to but without high; the interval that ends at one includes it. */
  function Between(cases: seq<Case>, low: real, high: real): seq<Case> {
    if cases == [] then []
    else
      var c := cases[|cases| - 1];
      Between(cases[..|cases| - 1], low, high) + (if low <= c.confidence && (c.confidence < high || high == 1.0) then [c] else [])
  }

  function SumOfConfidences(cases: seq<Case>): real {
    if cases == [] then 0.0 else SumOfConfidences(cases[..|cases| - 1]) + cases[|cases| - 1].confidence
  }

  function NumberCorrect(cases: seq<Case>): nat {
    if cases == [] then 0 else NumberCorrect(cases[..|cases| - 1]) + if cases[|cases| - 1].wasCorrect then 1 else 0
  }

  lemma {:induction false} TotalsAre(cases: seq<Case>)
    ensures Total(cases, Confidence()) == SumOfConfidences(cases)
    ensures Total(cases, Correct()) == NumberCorrect(cases) as real
  {
    if cases != [] {
      TotalsAre(cases[..|cases| - 1]);
    }
  }

  function Edge(i: nat, m: nat): real
    requires m > 0
  {
    i as real / m as real
  }

  lemma EdgeIs(i: nat, m: nat, size: real)
    requires m > 0 && size == 1.0 / m as real
    ensures Edge(i, m) == i as real * size
  {
    assert size * m as real == 1.0;
    assert i as real * size * m as real == i as real;
  }

  lemma EdgesRise(i: nat, j: nat, m: nat)
    requires m > 0 && i <= j
    ensures Edge(i, m) <= Edge(j, m) && Edge(m, m) == 1.0
  {
  }

  lemma EdgeBelowOne(i: nat, m: nat)
    requires i < m
    ensures Edge(i, m) < 1.0
  {
  }

  function Edges(m: nat): nat -> real
    requires m > 0
  {
    (i: nat) => Edge(i, m)
  }

  // Bounds that rise and reach one at the m-th.
  ghost predicate Rising(e: nat -> real, m: nat) {
    && (forall a: nat, b: nat :: a <= b <= m ==> e(a) <= e(b))
    && (forall a: nat :: a < m ==> e(a) < 1.0) && e(m) == 1.0
  }

  lemma EdgesAreRising(m: nat)
    requires m > 0
    ensures Rising(Edges(m), m)
  {
    EdgesRise(m, m, m);
    forall a: nat, b: nat | a <= b <= m ensures Edges(m)(a) <= Edges(m)(b) {
      EdgesRise(a, b, m);
    }
    forall a: nat | a < m ensures Edges(m)(a) < 1.0 {
      EdgeBelowOne(a, m);
    }
  }

  // A number from the j-th bound to the next lies between no others.
  lemma BetweenOnce(e: nat -> real, m: nat, x: real, i: nat, j: nat)
    requires i < m && j < m && x <= 1.0 && Rising(e, m)
    requires if x < 1.0 then e(j) <= x < e(j + 1) else j == m - 1
    ensures j == i <==> e(i) <= x && (x < e(i + 1) || e(i + 1) == 1.0)
  {
    assert i + 1 < m ==> e(i + 1) < 1.0;
    if i < j {
      assert e(i + 1) <= e(j);
    } else if j < i {
      assert e(j + 1) <= e(i);
    }
  }

  lemma IndexAtEdges(c: Case, size: real, m: nat)
    requires m > 0 && size == 1.0 / m as real && Unit(c.confidence)
    ensures size > 0.0 && IndexOf(c, size) < m
    ensures var j := IndexOf(c, size);
      if c.confidence < 1.0 then Edges(m)(j) <= c.confidence < Edges(m)(j + 1) else j == m - 1
  {
    EvenlyLabelled(c, size, m);
    EdgeIs(IndexOf(c, size), m, size);
    EdgeIs(IndexOf(c, size) + 1, m, size);
  }

  lemma IndexIsBetween(c: Case, size: real, m: nat, i: nat)
    requires m > 0 && size == 1.0 / m as real && Unit(c.confidence) && i < m
    ensures size > 0.0
    ensures IndexOf(c, size) == i <==> Edge(i, m) <= c.confidence && (c.confidence < Edge(i + 1, m) || Edge(i + 1, m) == 1.0)
  {
    IndexAtEdges(c, size, m);
    EdgesAreRising(m);
    BetweenOnce(Edges(m), m, c.confidence, i, IndexOf(c, size));
    assert Edges(m)(i) == Edge(i, m) && Edges(m)(i + 1) == Edge(i + 1, m);
  }

  lemma {:induction false} FillIsBetween(cases: seq<Case>, size: real, m: nat, i: nat)
    requires Valid(cases) && m > 0 && size == 1.0 / m as real && i < m
    ensures size > 0.0 && |Fill(cases, size)| == m && Fill(cases, size)[i] == Between(cases, Edge(i, m), Edge(i + 1, m))
  {
    EvenBuckets(size, m);
    if cases != [] {
      var n := |cases| - 1;
      FillIsBetween(cases[..n], size, m, i);
      IndexIsBetween(cases[n], size, m, i);
    }
  }

  /** r reports on the non-empty bucket b from low to high. */
  ghost predicate ReportsOn(r: BucketResult, b: seq<Case>, low: real, high: real) {
    && b != [] && r.low == low && r.high == high && r.sampleCount == |b|
    && r.meanConfidence == SumOfConfidences(b) / |b| as real && r.actualAccuracy == NumberCorrect(b) as real / |b| as real
  }

  ghost predicate Reports(r: BucketResult, cases: seq<Case>, i: nat, m: nat)
    requires m > 0
  {
    ReportsOn(r, Between(cases, Edge(i, m), Edge(i + 1, m)), Edge(i, m), Edge(i + 1, m))
  }

  lemma ResultOfReports(b: seq<Case>, i: nat, size: real, low: real, high: real, r: BucketResult)
    requires low == i as real * size && high == (i + 1) as real * size
    ensures b != [] && r == ResultOf(b, i, size) <==> ReportsOn(r, b, low, high)
  {
    TotalsAre(b);
  }

  ghost predicate Comes(buckets: seq<seq<Case>>, size: real, r: BucketResult, i: nat) {
    i < |buckets| && buckets[i] != [] && r == ResultOf(buckets[i], i, size)
  }

  lemma {:induction false} ResultsFrom(buckets: seq<seq<Case>>, size: real, r: BucketResult)
    ensures r in ResultsOf(buckets, size) <==> exists i :: Comes(buckets, size, r, i)
  {
    if buckets != [] {
      var n := |buckets| - 1;
      var front := buckets[..n];
      ResultsFrom(front, size, r);
      assert forall i: nat :: i < n ==> front[i] == buckets[i];
      if r in ResultsOf(front, size) {
        var i :| Comes(front, size, r, i);
        assert Comes(buckets, size, r, i);
      } else if i :| Comes(buckets, size, r, i) {
        assert !Comes(front, size, r, i);
      }
      assert r in ResultsOf(buckets, size) <==> r in ResultsOf(front, size) || Comes(buckets, size, r, n);
    }
  }

  lemma ResultReports(cases: seq<Case>, size: real, m: nat, i: nat, r: BucketResult)
    requires Valid(cases) && m > 0 && size == 1.0 / m as real && i < m
    ensures size > 0.0 && |Fill(cases, size)| == m
    ensures Comes(Fill(cases, size), size, r, i) <==> Reports(r, cases, i, m)
  {
    FillIsBetween(cases, size, m, i);
    EdgeIs(i, m, size);
    EdgeIs(i + 1, m, size);
    ResultOfReports(Fill(cases, size)[i], i, size, Edge(i, m), Edge(i + 1, m), r);
  }

  /** Buckets of size 1/m are reported exactly as the cases between i/m and (i+1)/m say, for each i below m with such cases. */
  lemma ReportedIff(cases: seq<Case>, size: real, m: nat, r: BucketResult)
    requires Valid(cases) && m > 0 && size == 1.0 / m as real
    ensures size > 0.0 && (r in ResultsOf(Fill(cases, size), size) <==> exists i: nat :: i < m && Reports(r, cases, i, m))
  {
    EvenBuckets(size, m);
    ResultsFrom(Fill(cases, size), size, r);
    forall i: nat | i < m ensures Comes(Fill(cases, size), size, r, i) <==> Reports(r, cases, i, m) {
      ResultReports(cases, size, m, i, r);
    }
  }

  // ----- the error

  /** The gap between the confidences of some cases and how many of them were correct. */
  function NetGap(cases: seq<Case>): real { Abs(SumOfConfidences(cases) - NumberCorrect(cases) as real) }

  /** Added up over the first n of m buckets. */
  function NetGaps(cases: seq<Case>, m: nat, n: nat): real
    requires m > 0
  {
    if n == 0 then 0.0 else NetGaps(cases, m, n - 1) + NetGap(Between(cases, Edge(n - 1, m), Edge(n, m)))
  }

  lemma BucketNetGap(b: seq<Case>, i: nat, size: real)
    requires b != []
    ensures Weight(ResultOf(b, i, size)) == NetGap(b)
  {
    TotalsAre(b);
    MeanGap(SumOfConfidences(b), NumberCorrect(b) as real, |b| as real);
    var r := ResultOf(b, i, size);
    assert Weight(r) == WeightOf(r.meanConfidence, r.actualAccuracy, |b| as real);
  }

  lemma GapSnoc(buckets: seq<seq<Case>>, b: seq<Case>, size: real)
    ensures WeightedGap(ResultsOf(buckets + [b], size))
         == WeightedGap(ResultsOf(buckets, size)) + NetGap(b)
  {
    assert (buckets + [b])[..|buckets|] == buckets;
    var front := ResultsOf(buckets, size);
    if b == [] {
      assert front + [] == front;
    } else {
      WeightedGapSnoc(front, ResultOf(b, |buckets|, size));
      BucketNetGap(b, |buckets|, size);
    }
  }

  ghost predicate FilledUpTo(buckets: seq<seq<Case>>, cases: seq<Case>, m: nat, n: nat)
    requires m > 0
  {
    n <= |buckets| && forall i: nat {:trigger buckets[i]} :: i < n ==> buckets[i] == Between(cases, Edge(i, m), Edge(i + 1, m))
  }

  lemma {:induction false} GapOfBuckets(buckets: seq<seq<Case>>, cases: seq<Case>, size: real, m: nat, n: nat)
    requires m > 0 && FilledUpTo(buckets, cases, m, n)
    ensures WeightedGap(ResultsOf(buckets[..n], size)) == NetGaps(cases, m, n)
  {
    if n > 0 {
      var k := n - 1;
      GapOfBuckets(buckets, cases, size, m, k);
      OneMoreBucket(buckets, size, k);
      assert buckets[k] == Between(cases, Edge(k, m), Edge(n, m));
    }
  }

  lemma OneMoreBucket(buckets: seq<seq<Case>>, size: real, k: nat)
    requires k < |buckets|
    ensures WeightedGap(ResultsOf(buckets[..k + 1], size)) == WeightedGap(ResultsOf(buckets[..k], size)) + NetGap(buckets[k])
  {
    assert buckets[..k + 1] == buckets[..k] + [buckets[k]];
    GapSnoc(buckets[..k], buckets[k], size);
  }

  /** The calibration error is the sum of the net gaps, per case. */
  lemma ErrorIsNetGaps(cases: seq<Case>, size: real, m: nat)
    requires Valid(cases) && cases != [] && m > 0 && size == 1.0 / m as real
    ensures size > 0.0 && CalibrationError(cases, size) == NetGaps(cases, m, m) / |cases| as real
  {
    EvenBuckets(size, m);
    forall i: nat | i < m ensures Fill(cases, size)[i] == Between(cases, Edge(i, m), Edge(i + 1, m)) {
      FillIsBetween(cases, size, m, i);
    }
    GapOfBuckets(Fill(cases, size), cases, size, m, m);
    assert Fill(cases, size)[..m] == Fill(cases, size);
  }

  // ----- the Brier score

  lemma SquareIsZero(x: real)
    ensures Square(x) >= 0.0 && (Square(x) == 0.0 <==> x == 0.0)
  {
    if x != 0.0 {
      assert (x * x) / x == x;
    }
  }

  lemma {:induction false} SquaresVanish(cases: seq<Case>)
    ensures Total(cases, SquareGaps()) >= 0.0
    ensures Total(cases, SquareGaps()) == 0.0 <==>
      forall i :: 0 <= i < |cases| ==> cases[i].confidence == if cases[i].wasCorrect then 1.0 else 0.0
  {
    if cases != [] {
      var n := |cases| - 1;
      SquaresVanish(cases[..n]);
      SquareIsZero(Gap(cases[n]));
      assert forall i :: 0 <= i < n ==> cases[..n][i] == cases[i];
    }
  }

  /** The Brier score vanishes exactly for certainty that is always right. */
  lemma BrierVanishesIff(cases: seq<Case>)
    requires cases != []
    ensures BrierScore(cases) >= 0.0
    ensures BrierScore(cases) == 0.0 <==>
      forall i :: 0 <= i < |cases| ==> cases[i].confidence == if cases[i].wasCorrect then 1.0 else 0.0
  {
    SquaresVanish(cases);
    var t, n := Total(cases, SquareGaps()), |cases| as real;
    assert (t / n) * n == t;
    QuotientNonneg(t, n);
  }

  /** Always claiming one half scores a quarter. */
  lemma {:induction false} GuessingScoresAQuarter(cases: seq<Case>)
    requires cases != [] && forall i :: 0 <= i < |cases| ==> cases[i].confidence == 0.5
    ensures BrierScore(cases) == 0.25
  {
    HalvesTotal(cases);
  }

  lemma {:induction false} HalvesTotal(cases: seq<Case>)
    requires forall i :: 0 <= i < |cases| ==> cases[i].confidence == 0.5
    ensures Total(cases, SquareGaps()) == 0.25 * |cases| as real
  {
    if cases != [] {
      HalvesTotal(cases[..|cases| - 1]);
      assert Square(Gap(cases[|cases| - 1])) == 0.25;
    }
  }
}
