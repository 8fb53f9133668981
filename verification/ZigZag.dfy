/** The signed integer mapping, written with a complement in one library and with an exclusive or
    in the other. */
module ZigZag {
  import opened Bits

  /** A two's complement word of `bits` bits read as a signed number, and back. */
  function Signed(w: int, bits: nat): int {
    if 2 * w < Pow2(bits) then w else w - Pow2(bits)
  }

  function Word(n: int, bits: nat): nat {
    n % Pow2(bits)
  }

  function Complement(w: nat, bits: nat): int {
    Pow2(bits) - 1 - w
  }

  predicate Fits(n: int, bits: nat)
    requires bits > 0
  {
    0 <= n + Pow2(bits - 1) && n < Pow2(bits - 1)
  }

  lemma Truncated(x: int, q: int, d: nat, r: nat)
    requires x == q * d + r && r < d
    ensures x % d == r
  {
    Remainder(q, d, r);
  }

  lemma WordOfSigned(n: int, bits: nat)
    requires bits > 0 && Fits(n, bits)
    ensures Word(n, bits) == (if n < 0 then n + Pow2(bits) else n) && Signed(Word(n, bits), bits) == n
  {
    hide Pow2;
    Half(bits);
    Truncated(n, if n < 0 then -1 else 0, Pow2(bits), if n < 0 then n + Pow2(bits) else n);
  }

  /** `~((uint64_t)value << 1)` for a negative value, `(uint64_t)value << 1` otherwise. */
  function EncodeByComplement(n: int, bits: nat): int {
    var shifted := (2 * Word(n, bits)) % Pow2(bits);
    if n < 0 then Complement(shifted, bits) else shifted
  }

  /** `~(value >> 1)` for an odd value, `value >> 1` otherwise, read as signed. */
  function DecodeByComplement(w: nat, bits: nat): int {
    Signed(if w % 2 == 1 then Complement(w / 2, bits) else w / 2, bits)
  }

  /** `(uint)((n << 1) ^ (n >> (bits - 1)))`, where the right shift is arithmetic. */
  function EncodeByXor(n: int, bits: nat): nat {
    var sign := if n < 0 then Pow2(bits) - 1 else 0;
    Xor((2 * Word(n, bits)) % Pow2(bits), sign)
  }

  /** `(int)((n >> 1) ^ -(n & 1))`, where the right shift is logical. */
  function DecodeByXor(w: nat, bits: nat): int {
    Signed(Xor(w / 2, if w % 2 == 1 then Pow2(bits) - 1 else 0), bits)
  }

  lemma Half(bits: nat)
    requires bits > 0
    ensures Pow2(bits) == 2 * Pow2(bits - 1)
  {
  }

  lemma Shifted(n: int, bits: nat)
    requires bits > 0 && Fits(n, bits)
    ensures (2 * Word(n, bits)) % Pow2(bits) == if n < 0 then 2 * n + Pow2(bits) else 2 * n
  {
    WordOfSigned(n, bits);
    Half(bits);
    hide Pow2, Word;
    var p := Pow2(bits);
    Truncated(2 * Word(n, bits), if n < 0 then 1 else 0, p, if n < 0 then 2 * n + p else 2 * n);
  }

  /** Small magnitudes map to small words: 0, -1, 1, -2, ... to 0, 1, 2, 3, ... */
  lemma EncodesInterleaved(n: int, bits: nat)
    requires bits > 0 && Fits(n, bits)
    ensures EncodeByComplement(n, bits) == if n < 0 then -2 * n - 1 else 2 * n
    ensures 0 <= EncodeByComplement(n, bits) < Pow2(bits)
  {
    hide Pow2, Word;
    Half(bits);
    Shifted(n, bits);
  }

  /** Both ways of writing the encoder compute the same word. */
  lemma EncodersAgree(n: int, bits: nat)
    requires bits > 0 && Fits(n, bits)
    ensures EncodeByXor(n, bits) == EncodeByComplement(n, bits)
  {
    var shifted := (2 * Word(n, bits)) % Pow2(bits);
    if n < 0 {
      XorOnes(shifted, bits);
    } else {
      XorZero(shifted);
    }
  }

  /** Both ways of writing the decoder compute the same number. */
  lemma DecodersAgree(w: nat, bits: nat)
    requires w < Pow2(bits)
    ensures DecodeByXor(w, bits) == DecodeByComplement(w, bits)
  {
    if w % 2 == 1 {
      XorOnes(w / 2, bits);
    } else {
      XorZero(w / 2);
    }
  }

  /** Every signed number of the width survives the round trip ... */
  lemma SignedRoundTrip(n: int, bits: nat)
    requires bits > 0 && Fits(n, bits)
    ensures 0 <= EncodeByComplement(n, bits) < Pow2(bits)
    ensures DecodeByComplement(EncodeByComplement(n, bits), bits) == n
  {
    hide EncodeByComplement, Pow2;
    Half(bits);
    EncodesInterleaved(n, bits);
    assert n < 0 ==> (-2 * n - 1) / 2 == -n - 1 && (-2 * n - 1) % 2 == 1;
  }

  /** ... and so does every word, so the mapping is one to one and onto. */
  lemma WordRoundTrip(w: nat, bits: nat)
    requires bits > 0 && w < Pow2(bits)
    ensures Fits(DecodeByComplement(w, bits), bits)
    ensures EncodeByComplement(DecodeByComplement(w, bits), bits) == w
  {
    EncodesInterleaved(if w % 2 == 1 then -(w / 2) - 1 else w / 2, bits);
    assert Signed(if w % 2 == 1 then Complement(w / 2, bits) else w / 2, bits) ==
           if w % 2 == 1 then -(w / 2) - 1 else w / 2;
  }
}
