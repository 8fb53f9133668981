/** The decoder's record of required fields: bits in 32-bit words. */
module SeenBits {
  import opened Bits

  predicate Bit(w: nat, b: nat) {
    if b == 0 then w % 2 == 1 else Bit(w / 2, b - 1)
  }

  lemma {:induction false} NoBits(b: nat)
    ensures !Bit(0, b)
  {
    if b > 0 {
      NoBits(b - 1);
    }
  }

  /** Or-ing two words joins their bits. */
  lemma {:induction false} OrBits(v: nat, w: nat, b: nat)
    ensures Bit(Or(v, w), b) <==> Bit(v, b) || Bit(w, b)
  {
    if v == 0 && w == 0 {
      NoBits(b);
    } else if b > 0 {
      OrBits(v / 2, w / 2, b - 1);
    }
  }

  /** `1 << n` has bit `n` and no other. */
  lemma {:induction false} ShiftedOne(n: nat, b: nat)
    ensures Bit(Pow2(n), b) <==> b == n
  {
    if n == 0 {
      if b > 0 {
        NoBits(b - 1);
      }
    } else if b > 0 {
      ShiftedOne(n - 1, b - 1);
    }
  }

  lemma SetBit(w: nat, n: nat, b: nat)
    ensures Bit(Or(w, Pow2(n)), b) <==> Bit(w, b) || b == n
  {
    OrBits(w, Pow2(n), b);
    ShiftedOne(n, b);
  }

  ghost predicate NoneFrom(w: nat, n: nat) {
    forall b: nat :: b >= n ==> !Bit(w, b)
  }

  ghost predicate AllBelow(w: nat, n: nat) {
    forall b: nat :: b < n ==> Bit(w, b)
  }

  lemma HalfNone(w: nat, n: nat)
    requires n > 0 && NoneFrom(w, n)
    ensures NoneFrom(w / 2, n - 1)
  {
    forall b: nat | b >= n - 1 ensures !Bit(w / 2, b) {
      assert Bit(w, b + 1) == Bit(w / 2, b);
    }
  }

  lemma HalfAll(w: nat, n: nat)
    requires n > 0
    ensures AllBelow(w, n) <==> w % 2 == 1 && AllBelow(w / 2, n - 1)
  {
    if AllBelow(w, n) {
      assert Bit(w, 0);
      forall b: nat | b < n - 1 ensures Bit(w / 2, b) {
        assert Bit(w, b + 1);
      }
    }
    if w % 2 == 1 && AllBelow(w / 2, n - 1) {
      forall b: nat | b < n ensures Bit(w, b) {
        assert b > 0 ==> Bit(w / 2, b - 1);
      }
    }
  }

  /** A word without bits at or above `n` equals `n` ones exactly if it has every bit below `n`. */
  lemma {:induction false} AllOnes(w: nat, n: nat)
    requires NoneFrom(w, n)
    ensures w < Pow2(n) && (w == Pow2(n) - 1 <==> AllBelow(w, n))
    decreases n
  {
    if n == 0 {
      NoBitsIsZero(w);
    } else {
      HalfNone(w, n);
      HalfAll(w, n);
      hide NoneFrom, AllBelow;
      AllOnes(w / 2, n - 1);
      var p := Pow2(n - 1);
      assert w == 2 * (w / 2) + w % 2 && Pow2(n) == 2 * p;
    }
  }

  lemma {:induction false} NoBitsIsZero(w: nat)
    requires forall b: nat :: !Bit(w, b)
    ensures w == 0
  {
    if w > 0 {
      assert !Bit(w, 0);
      forall b: nat ensures !Bit(w / 2, b) {
        assert !Bit(w, b + 1);
      }
      NoBitsIsZero(w / 2);
    }
  }
}
