/** Quotient and remainder facts the solver needs spelled out. Divisors are positive throughout, so
    Dafny's division is the floor the sources ask for and its remainder is never negative. */
module Arithmetic {
  lemma NoSmallMultiple(d: int, n: int)
    requires n > 0 && -n < d * n < n
    ensures d == 0
  {
    if d >= 1 {
      assert false;
    } else if d <= -1 {
      assert false;
    }
  }

  lemma DivisionIsUnique(a: int, n: int, q: int, r: int)
    requires n > 0 && a == q * n + r && 0 <= r < n
    ensures a / n == q && a % n == r
  {
    assert a == (a / n) * n + a % n;
    assert (a / n - q) * n == (a / n) * n - q * n;
    NoSmallMultiple(a / n - q, n);
  }

  lemma NoSmallerMultiple(a: int, b: int, S: int)
    requires S > 0 && a <= b
    ensures a * S <= b * S
  {
  }

  lemma NextMultiple(x: int, y: int)
    ensures (x + 1) * y == x * y + y
  {
  }
}
