/** Brier score, calibration buckets and expected calibration error of evaluation/confidence_metrics.py. */
module Calibration {
  import opened Common
  import opened Reals

  datatype Case = Case(confidence: real, wasCorrect: bool)

  datatype BucketResult = BucketResult(low: real, high: real, meanConfidence: real, actualAccuracy: real, sampleCount: nat)

  predicate Valid(cases: seq<Case>) {
    forall i :: 0 <= i < |cases| ==> Unit(cases[i].confidence)
  }

  function Outcome(c: Case): real { if c.wasCorrect then 1.0 else 0.0 }

  function Gap(c: Case): real { c.confidence - Outcome(c) }

  function Square(x: real): real { x * x }

  // ----- sums

  function Total(cases: seq<Case>, m: Case -> real): real {
    if cases == [] then 0.0 else Total(cases[..|cases| - 1], m) + m(cases[|cases| - 1])
  }

  lemma TotalSnoc(cases: seq<Case>, c: Case, m: Case -> real)
    ensures Total(cases + [c], m) == Total(cases, m) + m(c)
  {
    assert (cases + [c])[..|cases|] == cases;
  }

  function Confidence(): Case -> real { (c: Case) => c.confidence }
  function Correct(): Case -> real { (c: Case) => Outcome(c) }
  function Gaps(): Case -> real { (c: Case) => Gap(c) }
  function AbsGaps(): Case -> real { (c: Case) => Abs(Gap(c)) }
  function SquareGaps(): Case -> real { (c: Case) => Square(Gap(c)) }

  /** The Brier score before rounding. */
  function BrierScore(cases: seq<Case>): real {
    if cases == [] then 0.0 else Total(cases, SquareGaps()) / |cases| as real
  }

  // ----- buckets

  /** Python's round: to the nearest integer, halves to the even one. */
  function RoundHalfEven(x: real): (n: int)
    ensures -0.5 <= x - n as real <= 0.5
    ensures x - n as real == 0.5 || x - n as real == -0.5 ==> n % 2 == 0
  {
    var down := x.Floor;
    var rest := x - down as real;
    if rest < 0.5 then down else if rest > 0.5 then down + 1 else if down % 2 == 0 then down else down + 1
  }

  /** Rounded to four digits. */
  function Round4(x: real): (r: real)
    ensures -0.00005 <= r - x <= 0.00005
    ensures (r * 10000.0).Floor as real == r * 10000.0
  {
    RoundHalfEven(x * 10000.0) as real / 10000.0
  }

  function BucketCount(size: real): (n: nat)
    requires size > 0.0
    ensures n >= 1
  {
    var n := RoundHalfEven(1.0 / size);
    if n > 1 then n else 1
  }

  function IndexOf(c: Case, size: real): (i: nat)
    requires size > 0.0 && Unit(c.confidence)
    ensures i < BucketCount(size)
  {
    var n := BucketCount(size);
    QuotientNonneg(c.confidence, size);
    var i := (c.confidence / size).Floor;
    if i < n - 1 then i else n - 1
  }

  /** The cases, each appended to its bucket. */
  function Fill(cases: seq<Case>, size: real): (buckets: seq<seq<Case>>)
    requires size > 0.0 && Valid(cases)
    ensures |buckets| == BucketCount(size)
  {
    if cases == [] then seq(BucketCount(size), i => [])
    else
      var buckets := Fill(cases[..|cases| - 1], size);
      var c := cases[|cases| - 1];
      var i := IndexOf(c, size);
      buckets[i := buckets[i] + [c]]
  }

  function Flat(buckets: seq<seq<Case>>): seq<Case> {
    if buckets == [] then [] else Flat(buckets[..|buckets| - 1]) + buckets[|buckets| - 1]
  }

  lemma {:induction false} FlatUpdate(buckets: seq<seq<Case>>, i: nat, c: Case)
    requires i < |buckets|
    ensures multiset(Flat(buckets[i := buckets[i] + [c]])) == multiset(Flat(buckets)) + multiset{c}
  {
    var n := |buckets| - 1;
    var after := buckets[i := buckets[i] + [c]];
    if i == n {
      assert after[..n] == buckets[..n];
      ConcatAssociates(Flat(buckets[..n]), buckets[n], [c]);
    } else {
      FlatUpdate(buckets[..n], i, c);
      assert after[..n] == buckets[..n][i := buckets[..n][i] + [c]];
    }
  }

  lemma {:induction false} FlatEmpty(n: nat)
    ensures Flat(seq(n, i => [])) == []
  {
    if n > 0 {
      assert seq<seq<Case>>(n, i => [])[..n - 1] == seq(n - 1, i => []);
      FlatEmpty(n - 1);
    }
  }

  /** Together the buckets hold every case once: none is lost, duplicated or in two buckets. */
  lemma {:induction false} FillPartitions(cases: seq<Case>, size: real)
    requires size > 0.0 && Valid(cases)
    ensures multiset(Flat(Fill(cases, size))) == multiset(cases)
  {
    if cases == [] {
      FlatEmpty(BucketCount(size));
    } else {
      var n := |cases| - 1;
      var buckets, i := Fill(cases[..n], size), IndexOf(cases[n], size);
      FillPartitions(cases[..n], size);
      FlatUpdate(buckets, i, cases[n]);
      assert Fill(cases, size) == buckets[i := buckets[i] + [cases[n]]];
      MultisetSnoc(cases);
    }
  }

  /** A case is in bucket i exactly if i is its index. */
  lemma {:induction false} FillSorts(cases: seq<Case>, size: real, i: nat, c: Case)
    requires size > 0.0 && Valid(cases) && Unit(c.confidence) && i < BucketCount(size)
    ensures c in Fill(cases, size)[i] <==> c in cases && IndexOf(c, size) == i
  {
    if cases != [] {
      var n := |cases| - 1;
      FillSorts(cases[..n], size, i, c);
      assert cases == cases[..n] + [cases[n]];
    }
  }

  lemma FloorBelow(x: real, y: real, i: nat)
    requires y > 0.0 && x >= 0.0 && (x / y).Floor >= i
    ensures i as real * y <= x
  {
    assert x / y >= i as real;
    assert (x / y) * y == x;
    MulMono(i as real, x / y, y);
  }

  lemma FloorAbove(x: real, y: real, i: nat)
    requires y > 0.0 && x >= 0.0
    ensures (x / y).Floor < i <==> x < i as real * y
  {
    assert (x / y) * y == x;
    if (x / y).Floor < i {
      assert x / y < i as real;
      assert (i as real - x / y) * y > 0.0;
      assert (i as real - x / y) * y == i as real * y - (x / y) * y;
    } else {
      FloorBelow(x, y, i);
    }
  }

  /** A case lies within the bounds its bucket is labelled with, except that cases beyond the last
      bound are counted in the last bucket. */
  lemma LabelledIff(c: Case, size: real)
    requires size > 0.0 && Unit(c.confidence)
    ensures var i := IndexOf(c, size);
            i as real * size <= c.confidence
            && (c.confidence < (i + 1) as real * size <==> c.confidence < BucketCount(size) as real * size)
  {
    var i, n := IndexOf(c, size), BucketCount(size);
    QuotientNonneg(c.confidence, size);
    FloorBelow(c.confidence, size, i);
    FloorAbove(c.confidence, size, i + 1);
    FloorAbove(c.confidence, size, n);
  }

  /** With size 0.3 there are three buckets, and the last takes in what its label, up to 0.9, shuts out. */
  lemma LabelCanMiss(wasCorrect: bool)
    ensures var c := Case(0.95, wasCorrect); c.confidence >= (IndexOf(c, 0.3) + 1) as real * 0.3
  {
    assert (1.0 / 0.3).Floor == 3;
    LabelledIff(Case(0.95, wasCorrect), 0.3);
  }

  // ----- how many buckets, and what they hold

  /** The number of buckets is one, or the whole number nearest to 1 / size. */
  lemma BucketCountIsNearest(size: real)
    requires size > 0.0
    ensures var n := BucketCount(size); n >= 1 && (n == 1 || -0.5 <= 1.0 / size - n as real <= 0.5)
    ensures 1.0 / size > 1.5 ==> BucketCount(size) >= 2
  {
  }

  /** Buckets that divide [0, 1] evenly come out as many as they are. */
  lemma EvenBuckets(size: real, m: nat)
    requires m > 0 && size == 1.0 / m as real
    ensures size > 0.0 && BucketCount(size) == m
  {
    assert size * m as real == 1.0;
    assert 1.0 / size == m as real;
  }

  /** Then every case below one lies within the label of its bucket, and a case at one is in the last bucket. */
  lemma EvenlyLabelled(c: Case, size: real, m: nat)
    requires m > 0 && size == 1.0 / m as real && Unit(c.confidence)
    ensures size > 0.0 && IndexOf(c, size) < m
    ensures c.confidence < 1.0 ==> IndexOf(c, size) as real * size <= c.confidence < (IndexOf(c, size) + 1) as real * size
    ensures c.confidence == 1.0 ==> IndexOf(c, size) == m - 1
  {
    EvenBuckets(size, m);
    assert m as real * size == 1.0;
    LabelledIff(c, size);
    if c.confidence == 1.0 {
      FloorBelow(1.0, size, 0);
      assert 1.0 / size == m as real;
    }
  }

  // ----- results

  function ResultOf(bucket: seq<Case>, i: nat, size: real): BucketResult
    requires bucket != []
  {
    BucketResult(i as real * size, (i + 1) as real * size, Total(bucket, Confidence()) / |bucket| as real,
                 Total(bucket, Correct()) / |bucket| as real, |bucket|)
  }

  /** One result for each bucket that is not empty. */
  function ResultsOf(buckets: seq<seq<Case>>, size: real): seq<BucketResult> {
    if buckets == [] then []
    else
      var n := |buckets| - 1;
      ResultsOf(buckets[..n], size) + (if buckets[n] == [] then [] else [ResultOf(buckets[n], n, size)])
  }

  function Samples(results: seq<BucketResult>): nat {
    if results == [] then 0 else Samples(results[..|results| - 1]) + results[|results| - 1].sampleCount
  }

  function WeightedGap(results: seq<BucketResult>): real {
    if results == [] then 0.0
    else
      var b := results[|results| - 1];
      WeightedGap(results[..|results| - 1]) + Weight(b)
  }

  lemma {:induction false} SamplesAreCases(buckets: seq<seq<Case>>, size: real)
    ensures Samples(ResultsOf(buckets, size)) == |Flat(buckets)|
  {
    if buckets != [] {
      var n := |buckets| - 1;
      SamplesAreCases(buckets[..n], size);
      var front := ResultsOf(buckets[..n], size);
      if buckets[n] != [] {
        assert ResultsOf(buckets, size)[..|front|] == front;
      } else {
        assert ResultsOf(buckets, size) == front;
      }
    }
  }

  /** The sample counts add up to the number of cases. */
  lemma SamplesAddUp(cases: seq<Case>, size: real)
    requires size > 0.0 && Valid(cases)
    ensures Samples(ResultsOf(Fill(cases, size), size)) == |cases|
  {
    SamplesAreCases(Fill(cases, size), size);
    FillPartitions(cases, size);
    assert |multiset(Flat(Fill(cases, size)))| == |multiset(cases)|;
  }

  // ----- the inequality

  lemma {:induction false} TotalSplits(a: seq<Case>, b: seq<Case>, m: Case -> real)
    ensures Total(a + b, m) == Total(a, m) + Total(b, m)
  {
    if b == [] {
      assert a + b == a;
    } else {
      var n := |b| - 1;
      TotalSplits(a, b[..n], m);
      assert (a + b)[..|a| + n] == a + b[..n];
    }
  }

  lemma {:induction false} TotalFlatUpdate(buckets: seq<seq<Case>>, i: nat, c: Case, m: Case -> real)
    requires i < |buckets|
    ensures Total(Flat(buckets[i := buckets[i] + [c]]), m) == Total(Flat(buckets), m) + m(c)
  {
    var n := |buckets| - 1;
    var after := buckets[i := buckets[i] + [c]];
    TotalSplits(Flat(buckets[..n]), buckets[n], m);
    TotalSplits(Flat(after[..n]), after[n], m);
    if i == n {
      assert after[..n] == buckets[..n];
      TotalSnoc(buckets[n], c, m);
    } else {
      TotalFlatUpdate(buckets[..n], i, c, m);
      assert after[..n] == buckets[..n][i := buckets[..n][i] + [c]];
    }
  }

  lemma {:induction false} TotalFill(cases: seq<Case>, size: real, m: Case -> real)
    requires size > 0.0 && Valid(cases)
    ensures Total(Flat(Fill(cases, size)), m) == Total(cases, m)
  {
    if cases == [] {
      FlatEmpty(BucketCount(size));
    } else {
      var n := |cases| - 1;
      TotalFill(cases[..n], size, m);
      TotalFlatUpdate(Fill(cases[..n], size), IndexOf(cases[n], size), cases[n], m);
    }
  }

  lemma {:induction false} SumOfGaps(cases: seq<Case>)
    ensures Total(cases, Gaps()) == Total(cases, Confidence()) - Total(cases, Correct())
    ensures Abs(Total(cases, Gaps())) <= Total(cases, AbsGaps())
  {
    if cases != [] {
      SumOfGaps(cases[..|cases| - 1]);
    }
  }

  lemma MeanGap(a: real, b: real, n: real)
    requires n > 0.0
    ensures WeightOf(a / n, b / n, n) == Abs(a - b)
  {
    AbsMul(a / n - b / n, n);
    assert (a / n - b / n) * n == (a / n) * n - (b / n) * n;
    assert (a / n) * n == a && (b / n) * n == b;
  }

  function WeightOf(mean: real, accuracy: real, count: real): real { Abs(mean - accuracy) * count }

  function Weight(b: BucketResult): real { WeightOf(b.meanConfidence, b.actualAccuracy, b.sampleCount as real) }

  // A bucket weighs in with its net gap, which is at most the sum of the gaps in it.
  lemma BucketWeight(bucket: seq<Case>, i: nat, size: real)
    requires bucket != []
    ensures 0.0 <= Weight(ResultOf(bucket, i, size)) <= Total(bucket, AbsGaps())
  {
    var a, b, n := Total(bucket, Confidence()), Total(bucket, Correct()), |bucket| as real;
    MeanGap(a, b, n);
    SumOfGaps(bucket);
    assert Weight(ResultOf(bucket, i, size)) == WeightOf(a / n, b / n, n);
  }

  lemma WeightedGapSnoc(results: seq<BucketResult>, b: BucketResult)
    ensures WeightedGap(results + [b]) == WeightedGap(results) + Weight(b)
  {
    assert (results + [b])[..|results|] == results;
  }

  lemma {:induction false} WeightedGapBounded(buckets: seq<seq<Case>>, size: real)
    ensures 0.0 <= WeightedGap(ResultsOf(buckets, size)) <= Total(Flat(buckets), AbsGaps())
  {
    if buckets != [] {
      var n := |buckets| - 1;
      var bucket := buckets[n];
      var front := ResultsOf(buckets[..n], size);
      WeightedGapBounded(buckets[..n], size);
      TotalSplits(Flat(buckets[..n]), bucket, AbsGaps());
      if bucket == [] {
        assert front + [] == front == ResultsOf(buckets, size);
        assert Flat(buckets[..n]) + [] == Flat(buckets[..n]) == Flat(buckets);
      } else {
        WeightedGapSnoc(front, ResultOf(bucket, n, size));
        BucketWeight(bucket, n, size);
      }
    }
  }

  lemma SquareMono(a: real, b: real)
    requires 0.0 <= a <= b
    ensures Square(a) <= Square(b)
  {
    MulMono(a, b, a);
    MulMono(a, b, b);
    MulComm(a, b);
  }

  // (s + x)^2 <= (n + 1)(q + x^2) if s^2 <= n q
  lemma CauchyStep(s: real, q: real, n: real, x: real)
    requires n > 0.0 && Square(s) <= n * q
    ensures Square(s + x) <= (n + 1.0) * (q + Square(x))
  {
    var y := s - n * x;
    assert Square(y) >= 0.0;
    assert Square(y) == Square(s) - 2.0 * (n * (s * x)) + n * (n * Square(x));
    assert n * (q + n * Square(x) - 2.0 * (s * x)) == n * q + n * (n * Square(x)) - 2.0 * (n * (s * x));
    assert n * (q + n * Square(x) - 2.0 * (s * x)) >= 0.0;
    PositiveFactor(n, q + n * Square(x) - 2.0 * (s * x));
    assert Square(s + x) == Square(s) + 2.0 * (s * x) + Square(x);
    assert (n + 1.0) * (q + Square(x)) == n * q + q + n * Square(x) + Square(x);
  }

  // s^2 <= n q
  predicate Dominates(q: real, n: real, s: real) { Square(s) <= n * q }

  lemma {:induction false} GapsDominated(cases: seq<Case>)
    ensures Dominates(Total(cases, SquareGaps()), |cases| as real, Total(cases, AbsGaps()))
  {
    if cases != [] {
      var n := |cases| - 1;
      GapsDominated(cases[..n]);
      OneMoreGap(Total(cases[..n], AbsGaps()), Total(cases[..n], SquareGaps()), n, Gap(cases[n]));
    }
  }

  lemma OneMoreGap(s: real, q: real, n: nat, gap: real)
    requires Dominates(q, n as real, s) && (n == 0 ==> s == 0.0 && q == 0.0)
    ensures Dominates(q + Square(gap), (n + 1) as real, s + Abs(gap))
  {
    assert Square(Abs(gap)) == Square(gap);
    if n > 0 {
      CauchyStep(s, q, n as real, Abs(gap));
    }
  }

  lemma CauchySchwarz(cases: seq<Case>)
    ensures Square(Total(cases, AbsGaps())) <= |cases| as real * Total(cases, SquareGaps())
  {
    GapsDominated(cases);
  }

  lemma SquareOfMean(w: real, q: real, n: real)
    requires n > 0.0 && Dominates(q, n, w)
    ensures Square(w / n) <= q / n
  {
    var e := w / n;
    assert e * n == w;
    assert Square(w) == n * (n * Square(e));
    assert n * (q - n * Square(e)) >= 0.0;
    PositiveFactor(n, q - n * Square(e));
    assert (q / n) * n == q;
    assert n * (q / n - Square(e)) == q - n * Square(e);
    PositiveFactor(n, q / n - Square(e));
  }

  lemma GapWithinTotal(cases: seq<Case>, size: real)
    requires size > 0.0 && Valid(cases)
    ensures 0.0 <= WeightedGap(ResultsOf(Fill(cases, size), size)) <= Total(cases, AbsGaps())
  {
    WeightedGapBounded(Fill(cases, size), size);
    TotalFill(cases, size, AbsGaps());
  }

  lemma GapDominated(cases: seq<Case>, size: real)
    requires size > 0.0 && Valid(cases)
    ensures var w := WeightedGap(ResultsOf(Fill(cases, size), size));
      w >= 0.0 && Dominates(Total(cases, SquareGaps()), |cases| as real, w)
  {
    GapWithinTotal(cases, size);
    SquareMono(WeightedGap(ResultsOf(Fill(cases, size), size)), Total(cases, AbsGaps()));
    CauchySchwarz(cases);
  }

  /** The calibration error before rounding. */
  function CalibrationError(cases: seq<Case>, size: real): real
    requires size > 0.0 && Valid(cases)
  {
    if cases == [] then 0.0 else WeightedGap(ResultsOf(Fill(cases, size), size)) / |cases| as real
  }

  /** Before rounding, the square of the calibration error never exceeds the Brier score. */
  lemma CalibrationErrorSquared(cases: seq<Case>, size: real)
    requires size > 0.0 && Valid(cases)
    ensures CalibrationError(cases, size) >= 0.0 && Square(CalibrationError(cases, size)) <= BrierScore(cases)
  {
    if cases != [] {
      var w := WeightedGap(ResultsOf(Fill(cases, size), size));
      GapDominated(cases, size);
      SquareOfMean(w, Total(cases, SquareGaps()), |cases| as real);
      QuotientNonneg(w, |cases| as real);
    }
  }

  /** As reported, to four digits, the two obey the same bound up to half a unit of the last digit each. */
  lemma ReportedErrorSquared(cases: seq<Case>, size: real)
    requires size > 0.0 && Valid(cases)
    ensures var (error, brier) := (Round4(CalibrationError(cases, size)), Round4(BrierScore(cases)));
      error < 0.00005 || Square(error - 0.00005) <= brier + 0.00005
  {
    CalibrationErrorSquared(cases, size);
    var e := CalibrationError(cases, size);
    if Round4(e) >= 0.00005 {
      SquareMono(Round4(e) - 0.00005, e);
    }
  }

  // ----- the methods

  method CalibrationBuckets(cases: seq<Case>, size: real) returns (results: seq<BucketResult>)
    requires size > 0.0 && Valid(cases)
    ensures results == if cases == [] then [] else ResultsOf(Fill(cases, size), size)
    ensures Samples(results) == |cases|
  {
    if cases == [] {
      return [];
    }
    var buckets := Fill([], size);
    var j := 0;
    assert cases[..0] == [];
    while j < |cases|
      invariant j <= |cases| && buckets == Fill(cases[..j], size)
    {
      var i := IndexOf(cases[j], size);
      buckets := buckets[i := buckets[i] + [cases[j]]];
      assert cases[..j + 1][..j] == cases[..j];
      j := j + 1;
    }
    assert cases[..|cases|] == cases;
    SamplesAddUp(cases, size);
    results := Summarise(buckets, size);
  }

  method Summarise(buckets: seq<seq<Case>>, size: real) returns (results: seq<BucketResult>)
    ensures results == ResultsOf(buckets, size)
  {
    results := [];
    var i := 0;
    while i < |buckets|
      invariant i <= |buckets| && results == ResultsOf(buckets[..i], size)
    {
      assert buckets[..i + 1][..i] == buckets[..i];
      if buckets[i] != [] {
        results := results + [ResultOf(buckets[i], i, size)];
      }
      i := i + 1;
    }
    assert buckets[..|buckets|] == buckets;
  }

  /** The weighted mean gap of the buckets. */
  method ExpectedCalibrationError(cases: seq<Case>, size: real) returns (e: real)
    requires size > 0.0 && Valid(cases)
    ensures e == Round4(CalibrationError(cases, size))
    ensures e < 0.00005 || Square(e - 0.00005) <= Round4(BrierScore(cases)) + 0.00005
  {
    ReportedErrorSquared(cases, size);
    var buckets := CalibrationBuckets(cases, size);
    if buckets == [] {
      assert RoundHalfEven(0.0) == 0;
      return 0.0;
    }
    e := Round4(WeightedGap(buckets) / Samples(buckets) as real);
  }
}
