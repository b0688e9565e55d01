/** Two facts about integer multiplication and division that the solver does not find unaided. */
module Arithmetic {
  lemma MulMonotone(a: int, b: int, d: int)
    requires a <= b && d > 0
    ensures a * d <= b * d
  {
    assert b * d - a * d == (b - a) * d;
  }

  /** Euclidean division has one quotient: a quotient and remainder in range are a / d and a % d. */
  lemma DivUnique(a: int, d: int, q: int, r: int)
    requires 0 <= r < d && a == q * d + r
    ensures a / d == q
  {
    var f := a / d;
    assert a == f * d + a % d;
    assert (f + 1) * d == f * d + d;
    assert (q + 1) * d == q * d + d;
    if q < f {
      MulMonotone(q + 1, f, d);
    } else if q > f {
      MulMonotone(f + 1, q, d);
    }
  }
}
