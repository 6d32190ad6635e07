/** Integer facts about Euclidean division that the solver does not find on
    its own. */
module Arith {

  lemma MulAtLeast(a: int, n: int)
    requires a >= 1 && n > 0
    ensures n * a >= n
  {
    assert n * a == n * (a - 1) + n;
    assert n * (a - 1) >= 0;
  }

  /** Quotient and remainder are unique. */
  lemma DivModUnique(x: int, n: int, q: int, r: int)
    requires n > 0 && 0 <= r < n && x == n * q + r
    ensures x / n == q && x % n == r
  {
    var q', r' := x / n, x % n;
    assert x == n * q' + r';
    assert n * (q - q') == r' - r;
    if q - q' > 0 {
      MulAtLeast(q - q', n);
    } else if q - q' < 0 {
      assert n * (q' - q) == r - r';
      MulAtLeast(q' - q, n);
    }
  }

  /** Adding the modulus does not change a remainder. */
  lemma ModShift(i: nat, n: nat)
    requires n > 0
    ensures (i + n) % n == i % n
  {
    assert i == n * (i / n) + i % n;
    DivModUnique(i + n, n, i / n + 1, i % n);
  }
}
