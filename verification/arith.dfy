/** Facts about integer multiplication, division and remainder that the
    solver does not find on its own when the divisor is a variable. */
module Arith {

  lemma MulAtLeast(x: int, m: int)
    requires x >= 1 && m > 0
    ensures x * m >= m
  {
  }

  /** Quotient and remainder by a positive m are unique. */
  lemma DivModUnique(a: int, m: int, q: int, r: int)
    requires m > 0 && 0 <= r < m && a == q * m + r
    ensures a / m == q && a % m == r
  {
    var q', r' := a / m, a % m;
    assert a == q' * m + r';
    if q' < q {
      assert (q - q') * m == q * m - q' * m;
      MulAtLeast(q - q', m);
      assert false;
    } else if q' > q {
      assert (q' - q) * m == q' * m - q * m;
      MulAtLeast(q' - q, m);
      assert false;
    }
  }

  /** Taking m away from a does not change its remainder by m. */
  lemma ModShift(a: int, m: int)
    requires m > 0
    ensures a % m == (a - m) % m
  {
    DivModUnique(a, m, (a - m) / m + 1, (a - m) % m);
  }

  /** A non-negative a below m is its own remainder. */
  lemma ModSmall(a: int, m: int)
    requires 0 <= a < m
    ensures a % m == a
  {
    DivModUnique(a, m, 0, a);
  }
}
