/** Division of reals, stated once for the solver. */
module RealLemmas {
  function Abs(x: real): real {
    if x < 0.0 then -x else x
  }

  /** A product as a term of its own, so that equal factors give equal products without arithmetic. */
  function Times(a: real, b: real): real {
    a * b
  }

  lemma TimesAdd(a: real, b: real, c: real)
    ensures Times(a + b, c) == Times(a, c) + Times(b, c)
    ensures Times(c, a + b) == Times(c, a) + Times(c, b)
  {
  }

  lemma TimesSub(a: real, b: real, c: real)
    ensures Times(a - b, c) == Times(a, c) - Times(b, c)
    ensures Times(c, a - b) == Times(c, a) - Times(c, b)
  {
  }

  lemma TimesAssoc(a: real, b: real, c: real)
    ensures Times(Times(a, b), c) == Times(a, Times(b, c))
    ensures Times(a, Times(b, c)) == Times(b, Times(a, c))
  {
  }

  lemma TimesMono(a: real, b: real, c: real)
    requires a <= b && c >= 0.0
    ensures Times(c, a) <= Times(c, b)
  {
  }

  lemma TimesMonoStrict(a: real, b: real, c: real)
    requires a < b && c > 0.0
    ensures Times(c, a) < Times(c, b)
  {
  }

  lemma TimesZero(a: real, b: real)
    ensures Times(a, b) == 0.0 <==> a == 0.0 || b == 0.0
    ensures Times(a, b) == Times(b, a)
  {
  }

  lemma DivMul(a: real, b: real)
    requires b != 0.0
    ensures a / b * b == a
  {
  }

  lemma TimesDiv(a: real, b: real)
    requires b != 0.0
    ensures Times(a / b, b) == a
  {
    DivMul(a, b);
  }

  lemma QuotientIs(a: real, b: real, q: real)
    requires b != 0.0 && q * b == a
    ensures a / b == q
  {
  }

  lemma DivSub(a: real, b: real, c: real)
    requires c != 0.0
    ensures (a - b) / c == a / c - b / c
  {
    QuotientIs(a - b, c, a / c - b / c);
  }

  lemma MulMono(a: real, b: real, c: real)
    requires a <= b && c >= 0.0
    ensures a * c <= b * c
  {
  }

  lemma DivMono(a: real, b: real, c: real)
    requires a <= b && c > 0.0
    ensures a / c <= b / c
  {
    DivSub(b, a, c);
    assert (b - a) / c >= 0.0;
  }

  lemma MulMonoStrict(a: real, b: real, c: real)
    requires a < b && c > 0.0
    ensures a * c < b * c
  {
  }

  lemma DivMonoStrict(a: real, b: real, c: real)
    requires a < b && c > 0.0
    ensures a / c < b / c
  {
    DivSub(b, a, c);
    assert (b - a) / c > 0.0;
  }

  lemma DivScale(k: real, a: real, b: real)
    requires k != 0.0 && b != 0.0
    ensures k * b != 0.0 && (k * a) / (k * b) == a / b
  {
    assert (a / b) * (k * b) == k * ((a / b) * b);
    DivMul(a, b);
    QuotientIs(k * a, k * b, a / b);
  }

  lemma MulDiv(k: real, a: real, b: real)
    requires b != 0.0
    ensures (k * a) / b == k * (a / b)
  {
    DivMul(a, b);
    assert (k * (a / b)) * b == k * ((a / b) * b);
    QuotientIs(k * a, b, k * (a / b));
  }

  lemma SquareNonNegative(a: real)
    ensures a * a >= 0.0
  {
  }

  lemma CrossMultiply(a: real, b: real, c: real, d: real)
    requires b > 0.0 && d > 0.0 && a * d <= c * b
    ensures a / b <= c / d
  {
    assert b * d > 0.0;
    DivScale(d, a, b);
    DivScale(b, c, d);
    DivMono(d * a, b * c, b * d);
  }
}
