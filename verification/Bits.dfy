/** Machine words as natural numbers: shifts are multiplications and divisions by powers of two,
    and the bitwise operators work digit by digit. */
module Bits {

  type byte = x: int | 0 <= x < 256

  const TWO31: nat := 0x8000_0000
  const TWO32: nat := 0x1_0000_0000
  const TWO63: nat := 0x8000_0000_0000_0000
  const TWO64: nat := 0x1_0000_0000_0000_0000

  function Pow2(n: nat): (p: nat)
    ensures p > 0
  {
    if n == 0 then 1 else 2 * Pow2(n - 1)
  }

  function Or(a: nat, b: nat): nat {
    if a == 0 && b == 0 then 0
    else 2 * Or(a / 2, b / 2) + if a % 2 == 1 || b % 2 == 1 then 1 else 0
  }

  function Xor(a: nat, b: nat): nat {
    if a == 0 && b == 0 then 0
    else 2 * Xor(a / 2, b / 2) + if a % 2 == b % 2 then 0 else 1
  }

  lemma {:induction false} Pow2Adds(m: nat, n: nat)
    ensures Pow2(m + n) == Pow2(m) * Pow2(n)
  {
    if n > 0 {
      Pow2Adds(m, n - 1);
    }
  }

  lemma {:induction false} OrZero(a: nat)
    ensures Or(a, 0) == a && Or(0, a) == a
  {
    if a > 0 {
      OrZero(a / 2);
    }
  }

  lemma {:induction false} XorZero(a: nat)
    ensures Xor(a, 0) == a && Xor(0, a) == a
  {
    if a > 0 {
      XorZero(a / 2);
    }
  }

  /** Bits that lie wholly above the ones already set are simply added. */
  lemma {:induction false} OrAbove(low: nat, n: nat, high: nat)
    requires low < Pow2(n)
    ensures Or(low, high * Pow2(n)) == low + high * Pow2(n)
  {
    if n == 0 {
      OrZero(high);
    } else {
      var p := Pow2(n - 1);
      assert high * Pow2(n) == 2 * (high * p);
      OrAbove(low / 2, n - 1, high);
    }
  }

  /** Exclusive or with all ones is the complement within the word. */
  lemma {:induction false} XorOnes(a: nat, n: nat)
    requires a < Pow2(n)
    ensures Xor(a, Pow2(n) - 1) == Pow2(n) - 1 - a
    ensures Xor(Pow2(n) - 1, a) == Pow2(n) - 1 - a
  {
    if n > 0 {
      var p := Pow2(n - 1);
      XorOnes(a / 2, n - 1);
      assert (2 * p - 1) / 2 == p - 1 && (2 * p - 1) % 2 == 1;
    }
  }

  lemma AtMost(a: nat, b: nat, p: nat)
    requires a <= b
    ensures a * p <= b * p
  {
    assert (b - a) * p >= 0;
  }

  lemma Remainder(q: int, d: nat, r: nat)
    requires r < d
    ensures (q * d + r) % d == r && (q * d + r) / d == q
  {
    var x := q * d + r;
    assert d * (x / d - q) == r - x % d;
    if x / d > q {
      AtMost(1, x / d - q, d);
    } else if x / d < q {
      AtMost(1, q - x / d, d);
    }
  }

  lemma PowersUsed()
    ensures Pow2(7) == 128 && Pow2(14) == 0x4000 && Pow2(21) == 0x20_0000 && Pow2(28) == 0x1000_0000
    ensures Pow2(31) == TWO31 && Pow2(32) == TWO32 && Pow2(63) == TWO63 && Pow2(64) == TWO64
  {
    assert Pow2(4) == 16 && Pow2(8) == 256;
    Pow2Adds(7, 7);
    Pow2Adds(14, 7);
    Pow2Adds(21, 7);
    Pow2Adds(28, 4);
    Pow2Adds(32, 32);
    assert Pow2(32) == 2 * Pow2(31) && Pow2(64) == 2 * Pow2(63);
  }
}
