/** Order facts about products and quotients of reals, stated once so that the proofs that use them stay linear. */
module Reals {
  function Min(a: int, b: int): int { if a < b then a else b }
  function Max(a: int, b: int): int { if a < b then b else a }
  function MinReal(a: real, b: real): real { if a < b then a else b }
  function MaxReal(a: real, b: real): real { if a < b then b else a }

  /** Nearest integer, halves up. */
  function Round(x: real): int { (x + 0.5).Floor }

  lemma Scale(a: real, b: real, c: real)
    requires a <= b && c >= 0.0
    ensures a * c <= b * c
  {
    assert (b - a) * c >= 0.0;
  }

  lemma ScaleStrict(a: real, b: real, c: real)
    requires a < b && c > 0.0
    ensures a * c < b * c
  {
    assert (b - a) * c > 0.0;
  }

  function Product(a: real, b: real): real { a * b }

  lemma ProductOrder(a: real, b: real, c: real)
    requires a <= b && c >= 0.0
    ensures Product(a, c) <= Product(b, c)
  {
    Scale(a, b, c);
  }

  lemma ProductStrict(a: real, b: real, c: real)
    requires a < b && c > 0.0
    ensures Product(a, c) < Product(b, c)
  {
    ScaleStrict(a, b, c);
  }

  lemma ProductOfDifference(x: real, m: real, w: real)
    ensures Product(x - m, w) == Product(x, w) - Product(m, w)
  {
  }

  lemma ProductOfQuotient(p: real, w: real)
    requires w != 0.0
    ensures Product(p / w, w) == p
  {
  }

  lemma HalfOf(off: real, w: real)
    requires -0.5 <= off < 0.5 && w > 0.0
    ensures -w <= 2.0 * Product(off, w) < w
  {
    assert (off + 0.5) * w >= 0.0;
    assert (0.5 - off) * w > 0.0;
  }

  /** A quotient rounded to the nearest whole number, multiplied out. */
  lemma NearestMultiple(p: real, w: real)
    requires w > 0.0
    ensures var near := Product(Round(p / w) as real, w); 2.0 * near - w <= 2.0 * p < 2.0 * near + w
  {
    var x := p / w;
    var m := Round(x) as real;
    assert -0.5 <= x - m < 0.5;
    hide Product, Round;
    HalfOf(x - m, w);
    ProductOfDifference(x, m, w);
    ProductOfQuotient(p, w);
  }

  lemma FloorOfQuotient(budget: real, unit: real)
    requires unit > 0.0
    ensures (budget / unit).Floor as real * unit <= budget < ((budget / unit).Floor as real + 1.0) * unit
  {
    var quotient := budget / unit;
    var next := quotient.Floor as real + 1.0;
    Scale(quotient.Floor as real, quotient, unit);
    ScaleStrict(quotient, next, unit);
    assert quotient * unit == budget;
    assert budget < next * unit;
  }

  /** A whole number of units fits a budget exactly when it is at most the floor of the quotient. */
  lemma UnitsWithin(units: int, budget: real, unit: real)
    requires unit > 0.0
    ensures units as real * unit <= budget <==> units <= (budget / unit).Floor
  {
    var k := (budget / unit).Floor;
    FloorOfQuotient(budget, unit);
    if units <= k {
      Scale(units as real, k as real, unit);
    } else {
      Scale(k as real + 1.0, units as real, unit);
    }
  }
}
