/** Products of reals, one fact at a time. */
module Reals {
  function Abs(x: real): real { if x < 0.0 then -x else x }

  function Clamp(x: real): real { if x < 0.0 then 0.0 else if x > 1.0 then 1.0 else x }

  /** Clamping moves a number to the nearest one in [0, 1]. */
  lemma ClampIsNearest(x: real, y: real)
    requires 0.0 <= y <= 1.0
    ensures 0.0 <= Clamp(x) <= 1.0 && Abs(x - Clamp(x)) <= Abs(x - y)
  {
  }

  predicate Unit(x: real) { 0.0 <= x <= 1.0 }

  function Power(x: real, n: nat): real { if n == 0 then 1.0 else Power(x, n - 1) * x }

  lemma MulNeg(a: real, b: real)
    ensures (-a) * b == -(a * b)
  {
  }

  lemma MulNonneg(a: real, b: real)
    requires a >= 0.0 && b >= 0.0
    ensures a * b >= 0.0
  {
  }

  lemma MulMono(a: real, b: real, c: real)
    requires a <= b && c >= 0.0
    ensures a * c <= b * c
  {
    MulNonneg(b - a, c);
    assert (b - a) * c == b * c - a * c;
  }

  lemma MulUnit(a: real, b: real)
    requires Unit(a) && Unit(b)
    ensures Unit(a * b)
  {
    MulNonneg(a, b);
    MulMono(a, 1.0, b);
  }

  lemma AbsMul(a: real, s: real)
    requires s >= 0.0
    ensures Abs(a * s) == Abs(a) * s
  {
    MulNeg(a, s);
    if a >= 0.0 {
      MulMono(0.0, a, s);
    } else {
      MulMono(0.0, -a, s);
    }
  }

  lemma AbsShrinks(a: real, s: real)
    requires Unit(s)
    ensures Abs(a * s) <= Abs(a)
  {
    AbsMul(a, s);
    MulMono(0.0, Abs(a), s);
    MulComm(Abs(a), s);
    MulMono(s, 1.0, Abs(a));
  }

  lemma MulComm(a: real, b: real)
    ensures a * b == b * a
  {
  }

  lemma MulAssoc(a: real, b: real, c: real)
    ensures (a * b) * c == a * (b * c)
  {
  }

  lemma QuotientNonneg(x: real, y: real)
    requires x >= 0.0 && y > 0.0
    ensures x / y >= 0.0
  {}

  lemma PositiveFactor(n: real, z: real)
    requires n > 0.0 && n * z >= 0.0
    ensures z >= 0.0
  {
    QuotientNonneg(n * z, n);
    assert (n * z) / n == z;
  }

  lemma {:induction false} PowerAdds(x: real, m: nat, n: nat)
    ensures Power(x, m + n) == Power(x, m) * Power(x, n)
    ensures Power(x, 1) == x
  {
    if n > 0 {
      PowerAdds(x, m, n - 1);
      MulAssoc(Power(x, m), Power(x, n - 1), x);
      assert Power(x, m + n) == Power(x, m + n - 1) * x;
    }
  }

  lemma {:induction false} PowerUnit(x: real, n: nat)
    requires Unit(x)
    ensures Unit(Power(x, n))
  {
    if n > 0 {
      PowerUnit(x, n - 1);
      var p := Power(x, n - 1);
      MulUnit(p, x);
      assert Power(x, n) == p * x;
    }
  }
}
