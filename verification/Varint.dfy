/** Base 128 varints: the encoder, the 64-bit decoder, and the 32-bit decoder with its sign
    extension rule. */
module Varint {
  import opened Bits

  /** What a decoder makes of the front of a byte string. */
  datatype Parsed<T> = Bad | Good(value: T, rest: seq<byte>)

  // ----- encoding -----

  function EncodeVarint(v: nat): (bytes: seq<byte>)
    ensures bytes != []
  {
    if v < 128 then [v] else [v % 128 + 128] + EncodeVarint(v / 128)
  }

  /** At most ten bytes are needed, as many as the encoder's buffer holds. */
  lemma {:induction false} VarintLength(v: nat, k: nat)
    requires v < Pow2(7 * k) && k > 0
    ensures |EncodeVarint(v)| <= k
  {
    Pow2Adds(7 * (k - 1), 7);
    PowersUsed();
    if v >= 128 {
      VarintLength(v / 128, k - 1);
    }
  }

  lemma VarintFits(v: nat)
    requires v < TWO64
    ensures |EncodeVarint(v)| <= 10
  {
    PowersUsed();
    Pow2Adds(64, 6);
    VarintLength(v, 10);
  }

  method EncodeVarintBytes(value: nat) returns (buffer: array<byte>, size: nat)
    requires value < TWO64
    ensures fresh(buffer) && size <= buffer.Length == 10 && buffer[..size] == EncodeVarint(value)
  {
    hide EncodeVarint, Continued, Beyond;
    VarintFits(value);
    Unfold(value);
    buffer := new byte[10];
    if value <= 0x7F {
      buffer[0] := value;
      assert buffer[..1] == [value];
      return buffer, 1;
    }
    var v: nat, i: nat := value, 0;
    ghost var all := EncodeVarint(value);
    while v > 0
      invariant i <= |all| <= 10 && all == EncodeVarint(value)
      invariant v > 0 ==> i < |all| && all[i..] == EncodeVarint(v)
      invariant v == 0 ==> 0 < i == |all| && 128 <= buffer[i - 1] && buffer[i - 1] - 128 == all[i - 1]
      invariant forall k :: 0 <= k < (if v == 0 then i - 1 else i) ==> buffer[k] == all[k]
    {
      NextByte(all, i, v);
      buffer[i] := Continued(v);
      v := Beyond(v);
      i := i + 1;
    }
    buffer[i - 1] := buffer[i - 1] - 128;
    size := i;
    assert buffer[..size] == all;
  }

  /** Seven bits with the mark that more follow, and what follows. */
  function Continued(v: nat): byte {
    v % 128 + 128
  }

  function Beyond(v: nat): nat {
    v / 128
  }

  /** The byte at `i`, when what follows is the encoding of `v`. */
  lemma NextByte(all: seq<byte>, i: nat, v: nat)
    requires v > 0 && i < |all| && all[i..] == EncodeVarint(v)
    ensures Beyond(v) < v && (Beyond(v) == 0 <==> v < 128)
    ensures v < 128 ==> |all| == i + 1 && Continued(v) == all[i] + 128
    ensures v >= 128 ==> i + 1 < |all| && all[i] == Continued(v) && all[i + 1..] == EncodeVarint(Beyond(v))
  {
    Unfold(v);
    hide EncodeVarint;
    assert all[i] == all[i..][0];
    if v >= 128 {
      assert all[i + 1..] == all[i..][1..] == EncodeVarint(Beyond(v));
    }
  }

  lemma Unfold(v: nat)
    ensures EncodeVarint(v) == if v < 128 then [v] else [v % 128 + 128] + EncodeVarint(v / 128)
  {
  }

  /** The first byte of an encoding and what follows it. */
  lemma HeadOfEncoded(v: nat, rest: seq<byte>)
    ensures var bytes := EncodeVarint(v) + rest;
      bytes != [] && bytes[0] == (if v < 128 then v else v % 128 + 128)
      && bytes[1..] == if v < 128 then rest else EncodeVarint(v / 128) + rest
  {
    Unfold(v);
    hide EncodeVarint;
    if v >= 128 {
      assert (EncodeVarint(v) + rest)[1..] == EncodeVarint(v / 128) + rest;
    } else {
      assert ([v] + rest)[1..] == rest;
    }
  }

  // ----- the 64-bit decoder -----

  function VarintLoop(bytes: seq<byte>, bitpos: nat, result: nat): (p: Parsed<nat>)
    ensures p.Good? ==> |p.rest| < |bytes|
    decreases |bytes|
  {
    if bitpos >= 64 || bytes == [] then Bad
    else
      var b, tail := bytes[0], bytes[1..];
      var r := Or(result, (b % 128 * Pow2(bitpos)) % TWO64);
      if b >= 128 then
        VarintLoop(tail, bitpos + 7, r)
      else Good(r, tail)
  }

  function DecodeVarint(bytes: seq<byte>): (p: Parsed<nat>)
    ensures p.Good? ==> |p.rest| < |bytes|
  {
    VarintLoop(bytes, 0, 0)
  }

  lemma {:induction false} PowerBound(n: nat)
    ensures n >= 64 ==> Pow2(n) >= TWO64
  {
    if n > 64 {
      PowerBound(n - 1);
    } else {
      PowersUsed();
    }
  }

  lemma Digit(w: nat, p: nat)
    ensures w * p == w / 128 * (128 * p) + w % 128 * p
    ensures 0 <= w % 128 * p <= 127 * p && 0 <= w / 128 * (128 * p)
    ensures w > 0 ==> w * p >= p
  {
    var q, r := w / 128, w % 128;
    assert w == 128 * q + r;
    assert (128 * q + r) * p == q * (128 * p) + r * p;
    AtMost(r, 127, p);
    if w > 0 {
      AtMost(1, w, p);
    }
  }

  function Shifted(w: nat, bitpos: nat): nat {
    w * Pow2(bitpos)
  }

  lemma LoopTurn(bytes: seq<byte>, bitpos: nat, result: nat)
    requires bytes != [] && bitpos < 64
    ensures var r := Or(result, Shifted(bytes[0] % 128, bitpos) % TWO64);
      VarintLoop(bytes, bitpos, result) ==
      if bytes[0] >= 128 then VarintLoop(bytes[1..], bitpos + 7, r) else Good(r, bytes[1..])
  {
    hide Or, Pow2;
  }

  lemma DigitBounds(wp: nat, low: nat, high: nat, p: nat, result: nat)
    requires wp == high + low && low <= 127 * p && result < p && result + wp < TWO64
    ensures low % TWO64 == low && result + low < 128 * p && result + low + high == result + wp
  {
  }

  lemma DigitSplits(w: nat, p: nat, result: nat)
    requires result < p && result + w * p < TWO64
    ensures (w % 128 * p) % TWO64 == w % 128 * p && result + w % 128 * p < 128 * p
    ensures result + w % 128 * p + w / 128 * (128 * p) == result + w * p
  {
    Digit(w, p);
    DigitBounds(w * p, w % 128 * p, w / 128 * (128 * p), p, result);
  }

  lemma NextPower(bitpos: nat)
    ensures Pow2(bitpos + 7) == 128 * Pow2(bitpos)
  {
    Pow2Adds(bitpos, 7);
    PowersUsed();
  }

  lemma PositionBound(w: nat, bitpos: nat)
    requires (w > 0 || bitpos == 0) && Shifted(w, bitpos) < TWO64
    ensures bitpos < 64
  {
    if bitpos >= 64 {
      Digit(w, Pow2(bitpos));
      PowerBound(bitpos);
    }
  }

  /** What one turn of the loop does to the number so far. */
  lemma LoopDigit(w: nat, bitpos: nat, result: nat)
    requires (w > 0 || bitpos == 0) && result < Pow2(bitpos) && result + Shifted(w, bitpos) < TWO64
    ensures var low := Shifted(w % 128, bitpos);
      && bitpos < 64 && low % TWO64 == low && Or(result, low) == result + low && result + low < Pow2(bitpos + 7)
      && result + low + Shifted(w / 128, bitpos + 7) == result + Shifted(w, bitpos)
  {
    PositionBound(w, bitpos);
    hide Or, Pow2;
    DigitSplits(w, Pow2(bitpos), result);
    NextPower(bitpos);
    OrAbove(result, bitpos, w % 128);
  }

  lemma {:induction false} LoopReadsBack(w: nat, bitpos: nat, result: nat, rest: seq<byte>)
    requires (w > 0 || bitpos == 0) && result < Pow2(bitpos) && result + Shifted(w, bitpos) < TWO64
    ensures VarintLoop(EncodeVarint(w) + rest, bitpos, result) == Good(result + Shifted(w, bitpos), rest)
    decreases w
  {
    hide Or, Pow2, EncodeVarint, Shifted, VarintLoop;
    HeadOfEncoded(w, rest);
    LoopDigit(w, bitpos, result);
    LoopTurn(EncodeVarint(w) + rest, bitpos, result);
    if w >= 128 {
      LoopReadsBack(w / 128, bitpos + 7, result + Shifted(w % 128, bitpos), rest);
    }
  }

  /** Decoding undoes encoding and leaves whatever follows. */
  lemma VarintRoundTrip(v: nat, rest: seq<byte>)
    requires v < TWO64
    ensures DecodeVarint(EncodeVarint(v) + rest) == Good(v, rest)
  {
    assert Pow2(0) == 1;
    LoopReadsBack(v, 0, 0, rest);
  }

  // ----- the 32-bit decoder -----

  /** `bitpos` is an 8-bit counter and wraps. */
  function Varint32Loop(bytes: seq<byte>, bitpos: nat, result: nat): (p: Parsed<nat>)
    ensures p.Good? ==> |p.rest| < |bytes|
    decreases |bytes|
  {
    if bytes == [] then Bad
    else
      var b, tail, next := bytes[0], bytes[1..], (bitpos + 7) % 256;
      var sign := if bitpos < 63 then 0xFF else 0x01;
      if bitpos >= 32 && b % 128 != 0 && (result / TWO31 == 0 || b != sign) then Bad
      else
        var r := if bitpos >= 32 then result else Or(result, (b % 128 * Pow2(bitpos)) % TWO32);
        if b >= 128 then
          Varint32Loop(tail, next, r)
        else if next == 35 && (b / 16) % 8 != 0 then Bad
        else Good(r, tail)
  }

  function DecodeVarint32(bytes: seq<byte>): (p: Parsed<nat>)
    ensures p.Good? ==> |p.rest| < |bytes|
  {
    if bytes == [] then Bad
    else if bytes[0] < 128 then Good(bytes[0], bytes[1..])
    else Varint32Loop(bytes[1..], 7, bytes[0] % 128)
  }

  lemma {:induction false} OrBound(a: nat, b: nat, n: nat)
    requires a < Pow2(n) && b < Pow2(n)
    ensures Or(a, b) < Pow2(n)
  {
    if n > 0 {
      OrBound(a / 2, b / 2, n - 1);
    }
  }

  lemma {:induction false} Varint32LoopBound(bytes: seq<byte>, bitpos: nat, result: nat)
    requires result < TWO32
    ensures var p := Varint32Loop(bytes, bitpos, result); p.Good? ==> p.value < TWO32
    decreases |bytes|
  {
    if bytes != [] {
      var x := (bytes[0] % 128 * Pow2(bitpos)) % TWO32;
      PowersUsed();
      OrBound(result, x, 32);
      Varint32LoopBound(bytes[1..], (bitpos + 7) % 256, result);
      Varint32LoopBound(bytes[1..], (bitpos + 7) % 256, Or(result, x));
    }
  }

  /** Whatever the input, a 32-bit decode yields a 32-bit number. */
  lemma Varint32Bound(bytes: seq<byte>)
    ensures var p := DecodeVarint32(bytes); p.Good? ==> p.value < TWO32
  {
    if bytes != [] && bytes[0] >= 128 {
      Varint32LoopBound(bytes[1..], 7, bytes[0] % 128);
    }
  }

  // ----- what the 32-bit decoder accepts of what the encoder writes -----

  lemma LowFits(low: nat, bitpos: nat)
    requires low < 128 && bitpos in {7, 14, 21}
    ensures (low * Pow2(bitpos)) % TWO32 == low * Pow2(bitpos)
  {
    hide Pow2;
    PowersUsed();
    AtMost(low, 127, Pow2(bitpos));
    Remainder(0, TWO32, low * Pow2(bitpos));
  }

  lemma LowStep(bytes: seq<byte>, bitpos: nat, result: nat)
    requires bytes != [] && bitpos < 28
    ensures var r := Or(result, (bytes[0] % 128 * Pow2(bitpos)) % TWO32);
      Varint32Loop(bytes, bitpos, result) ==
      if bytes[0] >= 128 then Varint32Loop(bytes[1..], bitpos + 7, r) else Good(r, bytes[1..])
  {
    hide Or, Pow2;
  }

  /** One more byte of the low 28 bits. */
  lemma LowByte(w: nat, bitpos: nat, result: nat, rest: seq<byte>)
    requires w > 0 && bitpos in {7, 14, 21} && result < Pow2(bitpos)
    ensures Varint32Loop(EncodeVarint(w) + rest, bitpos, result) ==
            if w < 128 then Good(result + w * Pow2(bitpos), rest)
            else Varint32Loop(EncodeVarint(w / 128) + rest, bitpos + 7, result + w % 128 * Pow2(bitpos))
  {
    hide Or, Pow2, EncodeVarint, Varint32Loop;
    HeadOfEncoded(w, rest);
    LowStep(EncodeVarint(w) + rest, bitpos, result);
    LowFits(w % 128, bitpos);
    assert (w % 128 + 128) % 128 == w % 128;
    OrAbove(result, bitpos, w % 128);
  }

  lemma LowBits(w: nat)
    ensures (w % 128 + 128) % 128 == w % 128 && w % 128 % 16 == w % 16
    ensures w < 128 ==> w % 128 == w && ((w / 16) % 8 == 0 <==> w < 16)
  {
  }

  lemma NibbleShift(b: nat)
    requires b < 128
    ensures (b * 0x1000_0000) % TWO32 == b % 16 * 0x1000_0000
  {
    assert b * 0x1000_0000 == b / 16 * TWO32 + b % 16 * 0x1000_0000;
    Remainder(b / 16, TWO32, b % 16 * 0x1000_0000);
  }

  /** The fifth byte: four of its bits fit. */
  lemma FifthByte(w: nat, result: nat, rest: seq<byte>)
    requires w > 0 && result < Pow2(28)
    ensures Varint32Loop(EncodeVarint(w) + rest, 28, result) ==
            if w < 16 then Good(result + w * Pow2(28), rest)
            else if w < 128 then Bad
            else Varint32Loop(EncodeVarint(w / 128) + rest, 35, result + w % 16 * Pow2(28))
  {
    hide Or, Pow2, EncodeVarint;
    PowersUsed();
    HeadOfEncoded(w, rest);
    LowBits(w);
    NibbleShift(w % 128);
    OrAbove(result, 28, w % 16);
  }

  /** Groups above bit 35: zero, or all ones repeating bit 31. */
  predicate HighAccepts(w: nat, bitpos: nat, negative: bool) {
    if w < 128 then w == 0 || (negative && bitpos >= 63 && w == 1)
    else (w % 128 == 0 || (negative && bitpos < 63 && w % 128 == 127)) && HighAccepts(w / 128, bitpos + 7, negative)
  }

  /** From bit 35 on the loop only looks whether a byte repeats the sign. */
  lemma HighTurn(bytes: seq<byte>, bitpos: nat, result: nat)
    requires bytes != [] && bitpos in {35, 42, 49, 56, 63}
    ensures var b, tail := bytes[0], bytes[1..];
      Varint32Loop(bytes, bitpos, result) ==
      if b % 128 != 0 && (result / TWO31 == 0 || b != (if bitpos < 63 then 0xFF else 0x01)) then Bad
      else if b >= 128 then Varint32Loop(tail, bitpos + 7, result) else Good(result, tail)
  {
    hide Or;
  }

  lemma {:induction false} HighBytes(w: nat, bitpos: nat, result: nat, rest: seq<byte>)
    requires w > 0 && bitpos in {35, 42, 49, 56, 63} && w < Pow2(64 - bitpos)
    ensures Varint32Loop(EncodeVarint(w) + rest, bitpos, result) ==
            if HighAccepts(w, bitpos, result / TWO31 != 0) then Good(result, rest) else Bad
    decreases w
  {
    hide EncodeVarint, Varint32Loop;
    HeadOfEncoded(w, rest);
    HighTurn(EncodeVarint(w) + rest, bitpos, result);
    assert bitpos == 63 ==> w < 2 by {
      assert Pow2(1) == 2;
    }
    hide Pow2;
    if w >= 128 {
      NextPower(64 - bitpos - 7);
      HighBytes(w / 128, bitpos + 7, result, rest);
    }
  }

  function Group(v: nat, k: nat): nat {
    (v / Pow2(7 * k)) % 128
  }

  /** Which 64-bit numbers the 32-bit decoder takes: the 32-bit ones, and those whose bits 31 and
      63 are set and whose groups in between are each all zeros or all ones.  Bits 32 to 34 are
      not looked at. */
  predicate Accepts32(v: nat) {
    v < TWO32 ||
    (v >= TWO63 && v / TWO31 % 2 == 1
     && Group(v, 5) in {0, 127} && Group(v, 6) in {0, 127} && Group(v, 7) in {0, 127} && Group(v, 8) in {0, 127})
  }

  // dividing step by step by 128 is dividing by the power at once

  lemma Div42(v: nat)
    ensures v / 0x8_0000_0000 / 128 == v / 0x400_0000_0000
  {
  }

  lemma Div49(v: nat)
    ensures v / 0x400_0000_0000 / 128 == v / 0x2_0000_0000_0000
  {
  }

  lemma Div56(v: nat)
    ensures v / 0x2_0000_0000_0000 / 128 == v / 0x100_0000_0000_0000
  {
  }

  lemma Div63(v: nat)
    ensures v / 0x100_0000_0000_0000 / 128 == v / TWO63
  {
  }

  lemma Groups(v: nat)
    ensures Pow2(35) == 0x8_0000_0000
    ensures Group(v, 5) == v / 0x8_0000_0000 % 128 && Group(v, 6) == v / 0x400_0000_0000 % 128
    ensures Group(v, 7) == v / 0x2_0000_0000_0000 % 128 && Group(v, 8) == v / 0x100_0000_0000_0000 % 128
  {
    hide Pow2;
    PowersUsed();
    Pow2Adds(28, 7);
    Pow2Adds(35, 7);
    Pow2Adds(42, 7);
    Pow2Adds(49, 7);
  }

  lemma HighIsAccepts(v: nat)
    requires Pow2(35) <= v < TWO64
    ensures HighAccepts(v / Pow2(35), 35, v / TWO31 % 2 == 1) <==> Accepts32(v)
  {
    hide Pow2, Group, HighAccepts;
    Groups(v);
    Div42(v);
    Div49(v);
    Div56(v);
    Div63(v);
    TopBit(v);
    var w := v / 0x8_0000_0000;
    assert 0 < w < 0x2000_0000;
    HighIsGroups(w, v / TWO31 % 2 == 1);
  }

  lemma TopBit(v: nat)
    requires v < TWO64
    ensures v / TWO63 <= 1 && (v / TWO63 == 1 <==> v >= TWO63)
  {
  }

  lemma HighIsGroups(w: nat, n: bool)
    requires 0 < w < 0x2000_0000
    ensures HighAccepts(w, 35, n) <==>
            && w / 128 / 128 / 128 / 128 == 1 && n && w % 128 in {0, 127} && w / 128 % 128 in {0, 127}
            && w / 128 / 128 % 128 in {0, 127} && w / 128 / 128 / 128 % 128 in {0, 127}
  {
    var w1 := w / 128;
    var w2 := w1 / 128;
    TopGroups2(w2, n);
    hide HighAccepts;
    OneGroup(w1, 42, n);
    OneGroup(w, 35, n);
  }

  lemma OneGroup(w: nat, bitpos: nat, n: bool)
    requires bitpos + 7 < 63
    ensures HighAccepts(w, bitpos, n) <==>
            if w < 128 then w == 0
            else (w % 128 == 0 || (n && w % 128 == 127)) && HighAccepts(w / 128, bitpos + 7, n)
  {
  }

  lemma TopGroups(w3: nat, n: bool)
    requires w3 < 256
    ensures HighAccepts(w3, 56, n) <==> w3 == 0 || (w3 >= 128 && n && w3 % 128 in {0, 127})
  {
    if w3 >= 128 {
      assert w3 / 128 == 1 && HighAccepts(1, 63, n) == n;
    }
  }

  lemma TopGroups2(w2: nat, n: bool)
    requires w2 < 256 * 128
    ensures HighAccepts(w2, 49, n) <==>
            w2 == 0 || (w2 / 128 >= 128 && n && w2 / 128 % 128 in {0, 127} && w2 % 128 in {0, 127})
  {
    if w2 >= 128 {
      TopGroups(w2 / 128, n);
    }
  }

  /** The 32-bit decoder on everything the encoder writes: exactly the accepted numbers decode,
      each to its low 32 bits. */
  lemma Varint32OfEncoded(v: nat, rest: seq<byte>)
    requires v < TWO64
    ensures DecodeVarint32(EncodeVarint(v) + rest) == if Accepts32(v) then Good(v % TWO32, rest) else Bad
  {
    hide Pow2, EncodeVarint, Varint32Loop, Accepts32, DecodeVarint32;
    PowersUsed();
    FirstByte(v, rest);
    var q1 := v / 128;
    if q1 >= 128 {
      LowByte(q1, 7, v % 128, rest);
      SecondByte(v, rest);
    } else {
      if v >= 128 {
        LowByte(q1, 7, v % 128, rest);
      }
      Small(v);
    }
  }

  lemma FirstByte(v: nat, rest: seq<byte>)
    ensures DecodeVarint32(EncodeVarint(v) + rest) ==
            if v < 128 then Good(v, rest) else Varint32Loop(EncodeVarint(v / 128) + rest, 7, v % 128)
  {
    hide EncodeVarint, Varint32Loop;
    HeadOfEncoded(v, rest);
  }

  lemma Small(v: nat)
    requires v < TWO32
    ensures Accepts32(v) && v % TWO32 == v
  {
  }

  lemma TooBig(v: nat)
    requires TWO32 <= v < TWO63
    ensures !Accepts32(v)
  {
  }

  lemma SecondByte(v: nat, rest: seq<byte>)
    requires 128 * 128 <= v < TWO64
    ensures Varint32Loop(EncodeVarint(v / 128 / 128) + rest, 14, v % 128 + v / 128 % 128 * Pow2(7)) ==
            if Accepts32(v) then Good(v % TWO32, rest) else Bad
  {
    hide Pow2, EncodeVarint, Varint32Loop, Accepts32;
    PowersUsed();
    var q2 := v / 128 / 128;
    var q3 := q2 / 128;
    var r2 := v % 128 + v / 128 % 128 * Pow2(7);
    LowByte(q2, 14, r2, rest);
    if q2 >= 128 {
      var r3 := r2 + q2 % 128 * Pow2(14);
      LowByte(q3, 21, r3, rest);
      if q3 >= 128 {
        assert q3 / 128 == v / Pow2(28) && r3 + q3 % 128 * Pow2(21) == v % Pow2(28);
        FromFifth(v, rest);
      } else {
        Small(v);
      }
    } else {
      Small(v);
    }
  }

  lemma FromFifth(v: nat, rest: seq<byte>)
    requires Pow2(28) <= v < TWO64
    ensures Varint32Loop(EncodeVarint(v / Pow2(28)) + rest, 28, v % Pow2(28)) ==
            if Accepts32(v) then Good(v % TWO32, rest) else Bad
  {
    hide Pow2, EncodeVarint, Varint32Loop, Accepts32, HighAccepts;
    PowersUsed();
    var w, r := v / 0x1000_0000, v % 0x1000_0000;
    FifthByte(w, r, rest);
    if w < 16 {
      Small(v);
    } else if w < 128 {
      TooBig(v);
    } else {
      var r' := r + w % 16 * 0x1000_0000;
      FifthIsLow(v, w);
      Pow2Adds(28, 7);
      Pow2Adds(29, 35);
      HighIsAccepts(v);
      HighBytes(w / 128, 35, r', rest);
    }
  }

  lemma FifthIsLow(v: nat, w: nat)
    requires w == v / 0x1000_0000 && w >= 128 && v < TWO64
    ensures var r := v % 0x1000_0000 + w % 16 * 0x1000_0000;
      r == v % TWO32 && r / TWO31 == v / TWO31 % 2 && w / 128 == v / 0x8_0000_0000 && 0 < w / 128 < 0x2000_0000
  {
    var x, l, h := v % 0x1000_0000, w % 16, w / 16;
    LowWord(v, x, l, h);
    BitOf31(v, h, x + l * 0x1000_0000);
    assert w / 128 == h / 8;
    Remainder(h / 8, 0x8_0000_0000, h % 8 * TWO32 + x + l * 0x1000_0000);
  }

  lemma LowWord(v: nat, x: nat, l: nat, h: nat)
    requires v == (16 * h + l) * 0x1000_0000 + x && x < 0x1000_0000 && l < 16
    ensures v == h * TWO32 + (x + l * 0x1000_0000) && x + l * 0x1000_0000 < TWO32
    ensures x + l * 0x1000_0000 == v % TWO32
  {
    Remainder(h, TWO32, x + l * 0x1000_0000);
  }

  lemma BitOf31(v: nat, h: nat, r: nat)
    requires v == h * TWO32 + r && r < TWO32
    ensures r / TWO31 == v / TWO31 % 2
  {
    var t := if r < TWO31 then 0 else 1;
    Remainder(2 * h + t, TWO31, r - t * TWO31);
  }

  /** A non-negative 63-bit number passes exactly if it has 32 bits. */
  lemma Varint32RoundTrip(v: nat, rest: seq<byte>)
    requires v < TWO63
    ensures DecodeVarint32(EncodeVarint(v) + rest) == if v < TWO32 then Good(v, rest) else Bad
  {
    hide DecodeVarint32, EncodeVarint, Accepts32;
    Varint32OfEncoded(v, rest);
    if v < TWO32 {
      Small(v);
    } else {
      TooBig(v);
    }
  }

  /** A negative int32 that was sign-extended to ten bytes comes back as its low 32 bits. */
  lemma Varint32Negative(n: int, rest: seq<byte>)
    requires -0x8000_0000 <= n < 0
    ensures DecodeVarint32(EncodeVarint(TWO64 + n) + rest) == Good(TWO32 + n, rest)
  {
    hide DecodeVarint32, EncodeVarint, Accepts32;
    NegativeGroups(n);
    Varint32OfEncoded(TWO64 + n, rest);
    assert TWO64 + n == (TWO32 - 1) * TWO32 + (TWO32 + n);
    Remainder(TWO32 - 1, TWO32, TWO32 + n);
  }

  lemma NegativeGroups(n: int)
    requires -0x8000_0000 <= n < 0
    ensures Accepts32(TWO64 + n)
  {
    hide Pow2;
    PowersUsed();
    Pow2Adds(28, 7);
    Pow2Adds(35, 7);
    Pow2Adds(42, 7);
    Pow2Adds(49, 7);
  }

  lemma OverlongZero()
    ensures DecodeVarint32([0x80, 0x00]) == Good(0, [])
  {
    hide Or, Pow2;
    assert [0x80, 0x00][1..] == [0x00] && [0x00][1..] == [];
    OrZero(0);
  }

  /** Overlong and odd inputs that the 32-bit decoder nevertheless takes. */
  lemma Varint32TakesOddInputs()
    ensures DecodeVarint32([0x80, 0x00]) == Good(0, [])
    ensures TWO63 + TWO31 < TWO64 - TWO31 && Accepts32(TWO63 + TWO31)
  {
    OverlongZero();
    hide Pow2, DecodeVarint32;
    PowersUsed();
    Pow2Adds(28, 7);
    Pow2Adds(35, 7);
    Pow2Adds(42, 7);
    Pow2Adds(49, 7);
  }

  // ----- skipping -----

  function SkipVarint(bytes: seq<byte>): (p: Parsed<()>)
    ensures p.Good? ==> |p.rest| < |bytes|
    decreases |bytes|
  {
    if bytes == [] then Bad
    else if bytes[0] >= 128 then SkipVarint(bytes[1..])
    else Good((), bytes[1..])
  }

  /** Skipping passes over exactly the encoding. */
  lemma {:induction false} SkipsEncoded(v: nat, rest: seq<byte>)
    ensures SkipVarint(EncodeVarint(v) + rest) == Good((), rest)
  {
    var bytes := EncodeVarint(v) + rest;
    if v < 128 {
      assert bytes[1..] == rest;
    } else {
      assert bytes[1..] == EncodeVarint(v / 128) + rest;
      SkipsEncoded(v / 128, rest);
    }
  }
}
