/** Bitwise AND on unsigned integers of any width, and powers of two. */
module Bits {
  import opened Arith

  function And(a: nat, b: nat): nat {
    if a == 0 || b == 0 then 0
    else 2 * And(a / 2, b / 2) + (if a % 2 == 1 && b % 2 == 1 then 1 else 0)
  }

  function Pow2(k: nat): (p: nat)
    ensures p > 0
  {
    if k == 0 then 1 else 2 * Pow2(k - 1)
  }

  ghost predicate IsPow2(c: nat) {
    exists k: nat :: c == Pow2(k)
  }

  lemma {:induction false} AndSame(a: nat)
    ensures And(a, a) == a
  {
    if a > 0 { AndSame(a / 2); }
  }

  // Masking with 2^k - 1 is reduction modulo 2^k.
  lemma {:induction false} MaskIsModulo(x: nat, k: nat)
    ensures And(x, Pow2(k) - 1) == x % Pow2(k)
  {
    if k == 0 {
      assert And(x, 0) == 0;
    } else if x == 0 {
      assert And(0, Pow2(k) - 1) == 0;
    } else {
      var p := Pow2(k - 1);
      MaskIsModulo(x / 2, k - 1);
      HalfModulo(x, p);
      MaskHalves(x, p);
      assert Pow2(k) == 2 * p;
    }
  }

  lemma MaskHalves(x: nat, p: nat)
    requires x > 0 && p > 0
    ensures And(x, 2 * p - 1) == 2 * And(x / 2, p - 1) + x % 2
  {
    assert (2 * p - 1) / 2 == p - 1;
    assert (2 * p - 1) % 2 == 1;
  }

  lemma HalfModulo(x: nat, p: nat)
    requires p > 0
    ensures x % (2 * p) == 2 * (x / 2 % p) + x % 2
  {
    var q, r := x / 2 / p, x / 2 % p;
    assert x / 2 == q * p + r;
    assert x == 2 * (q * p + r) + x % 2;
    assert 2 * (q * p) == q * (2 * p);
    DivModUnique(x, 2 * p, q, 2 * r + x % 2);
  }

  // The test of RingBufferInit accepts exactly the powers of two.
  lemma {:induction false} PowerTest(c: nat)
    requires c > 0
    ensures And(c, c - 1) == 0 <==> IsPow2(c)
  {
    var h := c / 2;
    if c % 2 == 1 {
      if c == 1 {
        assert c == Pow2(0);
      } else {
        AndSame(h);
        assert (c - 1) / 2 == h;
        if IsPow2(c) {
          var k: nat :| c == Pow2(k);
          Pow2Parity(k);
        }
      }
    } else {
      PowerTest(h);
      assert (c - 1) / 2 == h - 1;
      if IsPow2(h) {
        var k: nat :| h == Pow2(k);
        assert c == Pow2(k + 1);
      }
      if IsPow2(c) {
        var k: nat :| c == Pow2(k);
        assert k > 0;
        assert h == Pow2(k - 1);
      }
    }
  }

  lemma Pow2Parity(k: nat)
    ensures Pow2(k) % 2 == 1 ==> k == 0
    ensures if k >= 2 then Pow2(k) % 4 == 0 else Pow2(k) <= 2
  {
    if k >= 2 {
      assert Pow2(k) == 2 * Pow2(k - 1);
      assert Pow2(k - 1) == 2 * Pow2(k - 2);
    }
  }
}
