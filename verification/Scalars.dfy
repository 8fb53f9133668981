/** Single values, tags and skipped fields: reading what the encoder wrote. */
module Scalars {
  import opened Options
  import opened Bits
  import opened Varint
  import opened ZigZag
  import opened Descriptors
  import opened Encoding
  import opened Decoding

  // ----- integers -----

  lemma {:induction false} Pow2Grows(a: nat, b: nat)
    requires a <= b
    ensures Pow2(a) <= Pow2(b)
  {
    if a < b {
      Pow2Grows(a, b - 1);
    }
  }

  lemma FitsWider(n: int, a: nat, b: nat)
    requires 0 < a <= b && Fits(n, a)
    ensures Fits(n, b)
  {
    Pow2Grows(a - 1, b - 1);
  }

  /** The low half of a sign-extended word is the narrow word. */
  lemma LowHalf(n: int)
    requires Fits(n, 32)
    ensures Word(n, 64) % TWO32 == Word(n, 32)
  {
    FitsWider(n, 32, 64);
    WordOfSigned(n, 32);
    WordOfSigned(n, 64);
    PowersUsed();
    hide Pow2, Word;
    if n < 0 {
      Remainder(TWO32 - 1, TWO32, n + TWO32);
    } else {
      Remainder(0, TWO32, n);
    }
  }

  lemma IntReadsBack(size: nat, n: int, rest: seq<byte>)
    requires SizeOK(size) && Fits(n, Width(size))
    ensures DecodeVarint(EncodeVarint(Word(n, 64)) + rest) == Good(Word(n, 64), rest)
    ensures IntOfVarint(size, Word(n, 64)) == Some(n)
  {
    hide Pow2, DecodeVarint, EncodeVarint, Signed, Fits, Word;
    FitsWider(n, Width(size), 64);
    WordOfSigned(n, 64);
    WordBound(n, 64);
    PowersUsed();
    VarintRoundTrip(Word(n, 64), rest);
    if size < 8 {
      FitsWider(n, Width(size), 32);
      LowHalf(n);
      WordOfSigned(n, 32);
    }
  }

  lemma WordBound(n: int, bits: nat)
    ensures Word(n, bits) < Pow2(bits)
  {
  }

  lemma UIntReadsBack(size: nat, n: nat, rest: seq<byte>)
    requires SizeOK(size) && n < Pow2(Width(size))
    ensures DecodeVarint(EncodeVarint(Word(n, 64)) + rest) == Good(n, rest)
    ensures UIntOfVarint(size, n) == Some(n)
  {
    hide Pow2, DecodeVarint, EncodeVarint;
    Pow2Grows(Width(size), 64);
    PowersUsed();
    Remainder(0, TWO64, n);
    VarintRoundTrip(n, rest);
  }

  lemma SIntReadsBack(size: nat, n: int, rest: seq<byte>)
    requires SizeOK(size) && Fits(n, Width(size))
    ensures var w := EncodeByComplement(n, 64) % TWO64;
      DecodeVarint(EncodeVarint(w) + rest) == Good(w, rest) && SIntOfVarint(size, w) == Some(n)
  {
    hide Pow2, DecodeVarint, EncodeVarint, EncodeByComplement, DecodeByComplement;
    FitsWider(n, Width(size), 64);
    SignedRoundTrip(n, 64);
    PowersUsed();
    var w := EncodeByComplement(n, 64);
    Remainder(0, TWO64, w);
    VarintRoundTrip(w, rest);
  }

  // ----- strings -----

  lemma TakePrefix(s: seq<byte>, rest: seq<byte>)
    ensures Take(|s|, s + rest) == Good(s, rest)
  {
    assert (s + rest)[..|s|] == s && (s + rest)[|s|..] == rest;
  }

  lemma DelimitedReadsBack(s: seq<byte>, rest: seq<byte>)
    requires |s| < TWO32
    ensures TakeString(Delimited(s) + rest) == Good(s, rest)
  {
    hide DecodeVarint32, EncodeVarint, Take;
    Varint32RoundTrip(|s|, s + rest);
    assert Delimited(s) + rest == EncodeVarint(|s|) + (s + rest);
    TakePrefix(s, rest);
  }

  lemma {:induction false} CStringOfClean(s: seq<byte>)
    requires IsCString(s)
    ensures CString(s) == s
  {
    if s != [] {
      CStringOfClean(s[1..]);
    }
  }

  lemma StringReadsBack(l: LType, v: Value)
    requires (l.Bytes? || l.String? || l.FixedLengthBytes?) && ValueOK(l, v) && ValueEncodable(l, v)
    ensures StringOf(l, v.bytes) == if l.String? && |v.bytes| == l.dataSize then None else Some(v)
  {
    if l.String? {
      CStringOfClean(v.bytes);
    } else if l.FixedLengthBytes? && v.bytes == [] {
      assert seq(l.length, _ => 0) == v.bytes;
    }
  }

  // ----- every scalar type -----

  /** The one scalar that does not survive: a string that fills its buffer, leaving no room for
      the terminator the decoder adds. */
  predicate FitsBuffer(l: LType, v: Value) {
    l.String? && v.VBytes? ==> |v.bytes| < l.dataSize
  }

  lemma ScalarReadsBack(l: LType, v: Value, rest: seq<byte>)
    requires !l.Submessage? && ValueOK(l, v) && ValueEncodable(l, v) && |EncValue(l, v)| < TWO32
    ensures DecScalar(l, EncValue(l, v) + rest) == if FitsBuffer(l, v) then Good(v, rest) else Bad
  {
    hide DecodeVarint32, EncodeVarint, VarintLoop, DecodeVarint, TakeString, Take, Word, Pow2, EncodeByComplement,
         LittleEndian, FromLittleEndian, IntOfVarint, UIntOfVarint, SIntOfVarint, StringOf;
    if l.Bool? {
      Varint32RoundTrip(if v.b then 1 else 0, rest);
    } else if l.Fixed32? || l.Fixed64? {
      PowersUsed();
      var n := if l.Fixed32? then 4 else 8;
      LittleEndianRoundTrip(v.bits, n);
      TakePrefix(LittleEndian(v.bits, n), rest);
    } else if l.Int? {
      IntReadsBack(l.size, v.n, rest);
    } else if l.UInt? {
      UIntReadsBack(l.size, v.n, rest);
    } else if l.SInt? {
      SIntReadsBack(l.size, v.n, rest);
    } else {
      StringReadsBack(l, v);
      DelimitedReadsBack(v.bytes, rest);
    }
  }

  lemma PackableFits(l: LType, v: Value)
    requires Packable(l)
    ensures FitsBuffer(l, v)
  {
  }

  /** A value's bytes begin where the reader of its wire type expects and end where it stops. */
  lemma ValueIsSkipped(l: LType, v: Value, rest: seq<byte>)
    requires ValueOK(l, v) && |EncValue(l, v)| < TWO32
    ensures SkipField(WireType(l), EncValue(l, v) + rest) == Good((), rest)
  {
    hide DecodeVarint32, EncodeVarint, SkipVarint, TakeString, Take, Word, Pow2, EncodeByComplement, LittleEndian;
    match l
    case Bool => SkipsEncoded(if v.b then 1 else 0, rest);
    case Int(_) => SkipsEncoded(Word(v.n, 64), rest);
    case UInt(_) => SkipsEncoded(Word(v.n, 64), rest);
    case SInt(_) => SkipsEncoded(EncodeByComplement(v.n, 64) % TWO64, rest);
    case Fixed32 => TakePrefix(LittleEndian(v.bits, 4), rest);
    case Fixed64 => TakePrefix(LittleEndian(v.bits, 8), rest);
    case Bytes(_) => DelimitedReadsBack(v.bytes, rest);
    case String(_) => DelimitedReadsBack(v.bytes, rest);
    case FixedLengthBytes(_) => DelimitedReadsBack(v.bytes, rest);
    case Submessage(fields) => DelimitedReadsBack(EncTo(fields, v.slots, |fields|), rest);
  }

  lemma TagReadsBack(tag: nat, wt: nat, rest: seq<byte>)
    requires 0 < tag <= MAX_TAG && wt < 8
    ensures EncTag(tag, wt) + rest != []
    ensures DecodeTag(EncTag(tag, wt) + rest) == FieldTag(tag, wt, rest)
  {
    hide DecodeVarint32, EncodeVarint;
    Varint32RoundTrip(8 * tag + wt, rest);
    Remainder(tag, 8, wt);
  }
}
