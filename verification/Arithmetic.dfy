/** Order of products and quotients, where the solver needs a hand. */
module Arithmetic {

  lemma ProductOrder(factor: nat, low: int, high: int)
    requires low <= high
    ensures factor * low <= factor * high && low * factor <= high * factor
  {
  }

  lemma SquareNonNegative(x: int)
    ensures x * x >= 0
  {
  }

  lemma MultipleOrder(p: int, q: int, whole: int)
    requires whole > 0 && p * whole < (q + 1) * whole
    ensures p <= q
  {
    if p > q {
      ProductOrder(whole, q + 1, p);
      assert false;
    }
  }

  lemma DivideStep(a: int, b: int, whole: int, step: int)
    requires whole > 0 && a <= b <= a + step * whole
    ensures a / whole <= b / whole <= a / whole + step
  {
    var q, p := a / whole, b / whole;
    assert q * whole <= a < q * whole + whole;
    assert p * whole <= b < p * whole + whole;
    assert (p + 1) * whole == p * whole + whole;
    assert (q + step + 1) * whole == q * whole + step * whole + whole;
    MultipleOrder(q, p, whole);
    MultipleOrder(p, q + step, whole);
  }

  lemma DivideOrder(a: int, b: int, whole: int)
    requires whole > 0 && a <= b
    ensures a / whole <= b / whole
  {
    var p, q := a / whole, b / whole;
    assert p * whole <= a && b < q * whole + whole;
    assert (q + 1) * whole == q * whole + whole;
    MultipleOrder(p, q, whole);
  }

  lemma DivideMultiple(n: int, whole: int)
    requires whole > 0
    ensures whole * n / whole == n && n * whole / whole == n
  {
    var q := n * whole / whole;
    assert q * whole <= n * whole < q * whole + whole;
    assert (q + 1) * whole == q * whole + whole && (n + 1) * whole == n * whole + whole;
    MultipleOrder(q, n, whole);
    MultipleOrder(n, q, whole);
  }
}
