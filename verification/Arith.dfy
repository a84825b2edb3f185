/** The few facts about products, quotients and remainders that the proofs need. */
module Arith {
  lemma MulLess(a: int, b: int, m: nat)
    ensures a < b ==> a * m + m <= b * m
    ensures a <= b ==> a * m <= b * m
  {
    if a < b {
      var d: nat := b - a - 1;
      assert d * m >= 0;
      assert b * m == a * m + m + d * m;
    }
  }

  // Quotient and remainder are determined by x == q * m + r with 0 <= r < m.
  lemma DivModUnique(x: int, m: nat, q: int, r: int)
    requires 0 <= r < m && x == q * m + r
    ensures x / m == q && x % m == r
  {
    var d, e := x / m, x % m;
    assert x == d * m + e;
    MulLess(q, d, m);
    MulLess(d, q, m);
  }

  // Counting on from a counter, modulo c, wraps at most once within c.
  lemma WrapOnce(counter: nat, k: nat, c: nat)
    requires k < c
    ensures var idx := counter % c; (counter + k) % c == if idx + k < c then idx + k else idx + k - c
  {
    var idx, d := counter % c, counter / c;
    assert counter == d * c + idx;
    assert (d + 1) * c == d * c + c;
    if idx + k < c {
      DivModUnique(counter + k, c, d, idx + k);
    } else {
      DivModUnique(counter + k, c, d + 1, idx + k - c);
    }
  }

  // A product divides by its factor.
  lemma Multiple(k: int, m: nat)
    requires m > 0
    ensures k * m % m == 0 && k * m / m == k
  {
    DivModUnique(k * m, m, k, 0);
  }

  lemma Distribute(a: int, b: int, m: int)
    ensures (a + b) * m == a * m + b * m && (a - b) * m == a * m - b * m
  {
  }
}
