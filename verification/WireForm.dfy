/** The wire format in plain numbers: what the encoder writes and the decoder takes, told without
    the constants the two of them share. */
module WireForm {
  import opened Options
  import opened Bits
  import opened Varint
  import opened ZigZag
  import opened Descriptors
  import opened Encoding
  import opened Decoding
  import opened Scalars
  import opened Merging
  import opened ReadBack

  // ----- tags -----

  /** Arrays of numbers are sent as one string of bytes. */
  predicate SentPacked(f: Field) {
    && (f.h.Repeated? || f.h.FixedCount?)
    && match f.l
       case Bytes(_) => false
       case String(_) => false
       case Submessage(_) => false
       case FixedLengthBytes(_) => false
       case _ => true
  }

  /** The three low bits of a tag. */
  function WireNumber(l: LType): nat {
    match l
    case Bool => 0
    case Int(_) => 0
    case UInt(_) => 0
    case SInt(_) => 0
    case Fixed64 => 1
    case Fixed32 => 5
    case Bytes(_) => 2
    case String(_) => 2
    case Submessage(_) => 2
    case FixedLengthBytes(_) => 2
  }

  /** Every value that is sent begins with a varint that holds its field's number and wire type. */
  lemma ItemBegins(f: Field, v: Value)
    ensures EncItem(f, v) == EncodeVarint(8 * f.tag + WireNumber(f.l)) + EncValue(f.l, v)
  {
  }

  /** A field that is sent begins with such a varint too; a packed array is a string of bytes
      under a tag of its own. */
  lemma FieldBegins(f: Field, s: Slot)
    requires Payload(f, s) != []
    ensures SentPacked(f) ==>
      var body := EncPacked(f.l, Payload(f, s), |Payload(f, s)|);
      EncField(f, s) == EncodeVarint(8 * f.tag + 2) + EncodeVarint(|body|) + body
    ensures !SentPacked(f) ==> EncField(f, s) == EncItems(f, Payload(f, s), |Payload(f, s)|)
    ensures EncodeVarint(8 * f.tag + if SentPacked(f) then 2 else WireNumber(f.l)) <= EncField(f, s)
  {
    var vs := Payload(f, s);
    if SentPacked(f) {
      var body := EncPacked(f.l, vs, |vs|);
      assert EncodeVarint(8 * f.tag + 2) + (EncodeVarint(|body|) + body) ==
             EncodeVarint(8 * f.tag + 2) + EncodeVarint(|body|) + body;
    } else {
      FirstItem(f, vs, |vs|);
    }
  }

  lemma {:induction false} FirstItem(f: Field, vs: seq<Value>, n: nat)
    requires 0 < n <= |vs|
    ensures EncodeVarint(8 * f.tag + WireNumber(f.l)) <= EncItems(f, vs, n)
    decreases n
  {
    hide EncValue, EncodeVarint;
    if n == 1 {
      assert EncItems(f, vs, 0) == [];
      assert EncItems(f, vs, 1) == EncItem(f, vs[0]);
    } else {
      FirstItem(f, vs, n - 1);
      assert EncItems(f, vs, n) == EncItems(f, vs, n - 1) + EncItem(f, vs[n - 1]);
    }
  }

  // ----- values -----

  /** The bytes of every kind of value. */
  lemma ValueBytes(l: LType, v: Value)
    requires ValueOK(l, v)
    ensures match l
            case Bool => EncValue(l, v) == [if v.b then 1 else 0]
            case Int(_) =>
              && v.n >= -0x8000_0000_0000_0000
              && EncValue(l, v) == EncodeVarint(if v.n < 0 then v.n + 0x1_0000_0000_0000_0000 else v.n)
            case UInt(_) => v.n >= 0 && EncValue(l, v) == EncodeVarint(v.n)
            case SInt(_) => EncValue(l, v) == EncodeVarint(if v.n < 0 then -2 * v.n - 1 else 2 * v.n)
            case Fixed32 =>
              EncValue(l, v) == [v.bits % 256, v.bits / 0x100 % 256, v.bits / 0x1_0000 % 256, v.bits / 0x100_0000]
            case Fixed64 =>
              EncValue(l, v) == [v.bits % 256, v.bits / 0x100 % 256, v.bits / 0x1_0000 % 256,
                                 v.bits / 0x100_0000 % 256, v.bits / 0x1_0000_0000 % 256,
                                 v.bits / 0x100_0000_0000 % 256, v.bits / 0x1_0000_0000_0000 % 256,
                                 v.bits / 0x100_0000_0000_0000]
            case Submessage(fields) =>
              && |v.slots| == |fields|
              && EncValue(l, v) == EncodeVarint(|Enc(fields, v.slots)|) + Enc(fields, v.slots)
            case _ => EncValue(l, v) == EncodeVarint(|v.bytes|) + v.bytes
  {
    hide Word, EncodeByComplement, Pow2, LittleEndian, EncTo, MessageOK;
    PowersUsed();
    match l
    case Bool => OneByte(if v.b then 1 else 0);
    case Int(size) =>
      FitsWider(v.n, Width(size), 64);
      WordOfSigned(v.n, 64);
    case UInt(size) =>
      Pow2Grows(Width(size), 64);
      Remainder(0, TWO64, v.n);
      assert Word(v.n, 64) == v.n by {
        WordIs(v.n);
      }
    case SInt(size) =>
      FitsWider(v.n, Width(size), 64);
      EncodesInterleaved(v.n, 64);
      Remainder(0, TWO64, EncodeByComplement(v.n, 64));
    case Fixed32 => FourBytes(v.bits);
    case Fixed64 => EightBytes(v.bits);
    case Submessage(fields) => LengthOK(fields, v.slots);
    case _ =>
  }

  lemma OneByte(n: nat)
    requires n < 128
    ensures EncodeVarint(n) == [n]
  {
  }

  lemma WordIs(n: nat)
    requires n < TWO64
    ensures Word(n, 64) == n
  {
    hide Pow2;
    PowersUsed();
  }

  lemma LengthOK(D: seq<Field>, m: seq<Slot>)
    requires MessageOK(D, m)
    ensures |m| == |D|
  {
  }

  lemma LowestFirst(w: nat, n: nat)
    requires n > 0
    ensures LittleEndian(w, n) == [w % 256] + LittleEndian(w / 256, n - 1) && LittleEndian(w, 0) == []
  {
  }

  lemma Shifts(w: nat)
    ensures w / 256 / 256 == w / 0x1_0000 && w / 256 / 256 / 256 == w / 0x100_0000
    ensures w / 256 / 256 / 256 / 256 == w / TWO32
  {
  }

  lemma FirstFour(w: nat, n: nat)
    requires n >= 4
    ensures LittleEndian(w, n) ==
            [w % 256, w / 0x100 % 256, w / 0x1_0000 % 256, w / 0x100_0000 % 256] + LittleEndian(w / TWO32, n - 4)
  {
    hide LittleEndian;
    Shifts(w);
    LowestFirst(w, n);
    LowestFirst(w / 256, n - 1);
    LowestFirst(w / 256 / 256, n - 2);
    LowestFirst(w / 256 / 256 / 256, n - 3);
  }

  lemma FourBytes(w: nat)
    requires w < TWO32
    ensures LittleEndian(w, 4) == [w % 256, w / 0x100 % 256, w / 0x1_0000 % 256, w / 0x100_0000]
  {
    FirstFour(w, 4);
  }

  lemma HighShifts(w: nat)
    requires w < TWO64
    ensures w / TWO32 < TWO32 && w / TWO32 / 0x100 == w / 0x100_0000_0000
    ensures w / TWO32 / 0x1_0000 == w / 0x1_0000_0000_0000 && w / TWO32 / 0x100_0000 == w / 0x100_0000_0000_0000
  {
  }

  lemma EightBytes(w: nat)
    requires w < TWO64
    ensures LittleEndian(w, 8) ==
            [w % 256, w / 0x100 % 256, w / 0x1_0000 % 256, w / 0x100_0000 % 256, w / 0x1_0000_0000 % 256,
             w / 0x100_0000_0000 % 256, w / 0x1_0000_0000_0000 % 256, w / 0x100_0000_0000_0000]
  {
    hide LittleEndian;
    FirstFour(w, 8);
    HighShifts(w);
    FourBytes(w / TWO32);
  }

  // ----- when a field is sent -----

  /** Nothing but zeros, in a type that proto3 leaves out then. */
  predicate AllZero(l: LType, v: Value) {
    match v
    case VBool(b) => !b
    case VInt(n) => n == 0
    case VBits(bits) => bits == 0
    case VBytes(bytes) => bytes == []
    case VMsg(_) => false
  }

  /** A submessage that proto3 leaves out: none of its fields sends anything, and none is of a
      kind that has no default. */
  predicate Blank(fields: seq<Field>, slots: seq<Slot>)
    requires |slots| == |fields|
  {
    forall i :: 0 <= i < |fields| ==>
      !fields[i].h.Required? && !fields[i].h.FixedCount? && EncField(fields[i], slots[i]) == []
  }

  /** When a field is sent: always if it is required, by its flag, by its count or by its union,
      and in proto3 unless it is zero, empty or blank. */
  lemma SentByPresence(f: Field, s: Slot)
    requires SlotOK(f, s)
    ensures EncField(f, s) != [] <==>
            match f.h
            case Required => true
            case Optional => s.has
            case Repeated(_) => s.items != []
            case FixedCount(_) => s.items != []
            case OneOf(_) => s.chosen.Some?
            case Singular =>
              if s.v.VMsg? && f.l.Submessage? then |s.v.slots| != |f.l.fields| || !Blank(f.l.fields, s.v.slots)
              else !AllZero(f.l, s.v)
  {
    hide EncItem, EncPacked, EncodeVarint, IsDefaultField, Blank;
    if f.l.Submessage? && f.h.Singular? {
      LengthOK(f.l.fields, s.v.slots);
      BlankIsDefault(f.l.fields, s.v.slots);
    }
    if Payload(f, s) != [] {
      FieldBegins(f, s);
    } else {
      NothingToSend(f, s);
    }
  }

  lemma BlankIsDefault(fields: seq<Field>, slots: seq<Slot>)
    requires MessageOK(fields, slots)
    ensures IsDefaultValue(Submessage(fields), VMsg(slots)) <==> Blank(fields, slots)
  {
    forall i | 0 <= i < |fields|
      ensures IsDefaultField(fields[i], slots[i]) <==>
        !fields[i].h.Required? && !fields[i].h.FixedCount? && EncField(fields[i], slots[i]) == []
    {
      assert SlotOK(fields[i], slots[i]);
      DefaultIsUnsent(fields[i], slots[i]);
    }
  }

  lemma DefaultIsUnsent(f: Field, s: Slot)
    requires SlotOK(f, s)
    ensures IsDefaultField(f, s) <==> !f.h.Required? && !f.h.FixedCount? && EncField(f, s) == []
  {
    hide EncItem, EncPacked, EncodeVarint, IsDefaultValue, EncField, ValueOK;
    if Payload(f, s) != [] {
      FieldBegins(f, s);
      assert EncField(f, s) != [];
    } else {
      NothingToSend(f, s);
    }
  }

  lemma NothingToSend(f: Field, s: Slot)
    requires Payload(f, s) == []
    ensures EncField(f, s) == []
  {
  }

  // ----- what the decoder takes -----

  /** A reader passes over what it does not know by its wire type alone: a varint on 0, eight bytes
      on 1, a string on 2, four bytes on 5, and nothing else. */
  lemma SkipsByWireType(wt: nat, bytes: seq<byte>)
    ensures SkipField(0, bytes) == SkipVarint(bytes)
    ensures SkipField(1, bytes) == if |bytes| < 8 then Bad else Good((), bytes[8..])
    ensures SkipField(5, bytes) == if |bytes| < 4 then Bad else Good((), bytes[4..])
    ensures match DecodeVarint32(bytes)
            case Bad => SkipField(2, bytes) == Bad
            case Good(n, rest) => SkipField(2, bytes) == if |rest| < n then Bad else Good((), rest[n..])
    ensures wt !in {0, 1, 2, 5} ==> SkipField(wt, bytes) == Bad
  {
    hide DecodeVarint32, SkipVarint;
  }

  /** A varint ends with its first byte below 128. */
  lemma {:induction false} SkipsToTheEnd(bytes: seq<byte>, n: nat)
    requires n <= |bytes| && forall m :: 0 <= m < n ==> bytes[m] >= 128
    ensures n == |bytes| ==> SkipVarint(bytes) == Bad
    ensures n < |bytes| && bytes[n] < 128 ==> SkipVarint(bytes) == Good((), bytes[n + 1..])
    decreases n
  {
    if n > 0 {
      SkipsToTheEnd(bytes[1..], n - 1);
    }
  }

  /** The largest and the smallest number of a signed type. */
  predicate InRange(size: nat, n: int) {
    match size
    case 1 => -0x80 <= n < 0x80
    case 2 => -0x8000 <= n < 0x8000
    case 4 => -0x8000_0000 <= n < 0x8000_0000
    case 8 => -0x8000_0000_0000_0000 <= n < 0x8000_0000_0000_0000
    case _ => false
  }

  function AsSigned(w: nat, modulus: nat): int {
    if 2 * w < modulus then w else w - modulus
  }

  lemma Ranges(size: nat)
    requires size in {1, 2, 4, 8}
    ensures forall n: int :: Fits(n, Width(size)) <==> InRange(size, n)
    ensures Pow2(Width(size)) == match size
                                 case 1 => 0x100
                                 case 2 => 0x1_0000
                                 case 4 => 0x1_0000_0000
                                 case _ => 0x1_0000_0000_0000_0000
  {
    PowersUsed();
    assert Pow2(8) == 2 * Pow2(7);
    Pow2Adds(8, 8);
    assert Pow2(16) == 2 * Pow2(15);
    hide Pow2;
  }

  /** What becomes of any varint on the wire in a signed, unsigned or zigzag field, those no encoder
      of this kind writes included: a signed field keeps the low 32 bits, or all 64 if it is that
      wide; then the number has to be in the field's range. */
  lemma NumbersTaken(size: nat, v: nat)
    requires v < 0x1_0000_0000_0000_0000
    ensures IntOf(Int(size), v) ==
            var n := if size == 8 then AsSigned(v, 0x1_0000_0000_0000_0000)
                     else AsSigned(v % 0x1_0000_0000, 0x1_0000_0000);
            if InRange(size, n) then Some(n) else None
    ensures IntOf(UInt(size), v) ==
            if (size == 1 && v < 0x100) || (size == 2 && v < 0x1_0000) || (size == 4 && v < 0x1_0000_0000) || size == 8
            then Some(v) else None
    ensures IntOf(SInt(size), v) ==
            var n := if v % 2 == 0 then v / 2 else -(v / 2) - 1;
            if InRange(size, n) then Some(n) else None
  {
    hide InRange, IntOfVarint, UIntOfVarint, SIntOfVarint, AsSigned;
    SignedTaken(size, v);
    UnsignedTaken(size, v);
    ZigZagTaken(size, v);
  }

  lemma RangeOf(size: nat, n: int)
    ensures InRange(size, n) <==> SizeOK(size) && Fits(n, Width(size))
  {
    if SizeOK(size) {
      Ranges(size);
    }
  }

  lemma SignedTaken(size: nat, v: nat)
    requires v < 0x1_0000_0000_0000_0000
    ensures var n := if size == 8 then AsSigned(v, 0x1_0000_0000_0000_0000)
                     else AsSigned(v % 0x1_0000_0000, 0x1_0000_0000);
            IntOfVarint(size, v) == if InRange(size, n) then Some(n) else None
  {
    PowersUsed();
    hide Pow2, Fits, InRange;
    RangeOf(size, if size == 8 then Signed(v, 64) else Signed(v % TWO32, 32));
  }

  lemma UnsignedTaken(size: nat, v: nat)
    requires v < 0x1_0000_0000_0000_0000
    ensures UIntOfVarint(size, v) ==
            if (size == 1 && v < 0x100) || (size == 2 && v < 0x1_0000) || (size == 4 && v < 0x1_0000_0000) || size == 8
            then Some(v) else None
  {
    if SizeOK(size) {
      Ranges(size);
    }
    hide Pow2;
  }

  lemma ZigZagTaken(size: nat, v: nat)
    requires v < 0x1_0000_0000_0000_0000
    ensures var n := if v % 2 == 0 then v / 2 else -(v / 2) - 1;
            SIntOfVarint(size, v) == if InRange(size, n) then Some(n) else None
  {
    PowersUsed();
    hide Pow2, Fits, InRange;
    var n := if v % 2 == 0 then v / 2 else -(v / 2) - 1;
    assert DecodeByComplement(v, 64) == n;
    RangeOf(size, n);
  }

  /** A string ends before its first NUL. */
  lemma {:induction false} StringEndsAtNul(s: seq<byte>)
    ensures CString(s) <= s && 0 !in CString(s)
    ensures CString(s) == s || s[|CString(s)|] == 0
  {
    if s != [] && s[0] != 0 {
      StringEndsAtNul(s[1..]);
      assert CString(s) == [s[0]] + CString(s[1..]);
    }
  }

  /** What becomes of any string of bytes on the wire. */
  lemma StringsTaken(s: seq<byte>, n: nat)
    ensures StringOf(Bytes(n), s) == if |s| <= n then Some(VBytes(s)) else None
    ensures match StringOf(String(n), s)
            case None => |s| >= n
            case Some(v) => |s| < n && v.VBytes? && v.bytes <= s && 0 !in v.bytes
                            && (v.bytes == s || s[|v.bytes|] == 0)
    ensures match StringOf(FixedLengthBytes(n), s)
            case None => s != [] && |s| != n
            case Some(v) => v.VBytes? && |v.bytes| == n && if s == [] then forall b :: b in v.bytes ==> b == 0
                                                           else v.bytes == s
  {
    StringEndsAtNul(s);
  }

  function FourBytesAt(b: seq<byte>, i: nat): int
    requires i + 4 <= |b|
  {
    var b0: int, b1: int, b2: int, b3: int := b[i], b[i + 1], b[i + 2], b[i + 3];
    b0 + 0x100 * b1 + 0x1_0000 * b2 + 0x100_0000 * b3
  }

  /** Words arrive lowest byte first. */
  lemma WordsTaken(b: seq<byte>)
    ensures |b| == 4 ==> FromLittleEndian(b) == FourBytesAt(b, 0)
    ensures |b| == 8 ==> FromLittleEndian(b) == FourBytesAt(b, 0) + 0x1_0000_0000 * FourBytesAt(b, 4)
  {
    hide FromLittleEndian;
    if |b| == 8 {
      FourTaken(b, 4);
      FourTaken(b, 0);
      assert b[8..] == [] && b[0..] == b;
      NoneTaken();
    } else if |b| == 4 {
      FourTaken(b, 0);
      assert b[4..] == [] && b[0..] == b;
      NoneTaken();
    }
  }

  lemma NoneTaken()
    ensures FromLittleEndian([]) == 0
  {
  }

  lemma OneTaken(b: seq<byte>, i: nat)
    requires i < |b|
    ensures FromLittleEndian(b[i..]) == b[i] + 256 * FromLittleEndian(b[i + 1..])
  {
    assert b[i..][1..] == b[i + 1..];
  }

  lemma FourTaken(b: seq<byte>, i: nat)
    requires i + 4 <= |b|
    ensures FromLittleEndian(b[i..]) == FourBytesAt(b, i) + 0x1_0000_0000 * FromLittleEndian(b[i + 4..])
  {
    hide FromLittleEndian;
    OneTaken(b, i);
    OneTaken(b, i + 1);
    OneTaken(b, i + 2);
    OneTaken(b, i + 3);
  }

  /** An array of numbers is taken in alike whether it comes packed, under wire type 2, or value by
      value, each under its own wire type. */
  lemma PackedOrOneByOne(D: seq<Field>, st: State, j: nat, vs: seq<Value>, rest: seq<byte>)
    requires |st.msg| == |D| && j < |D| && Find(D, D[j].tag) == Some(j) && SentPacked(D[j])
    requires TagOK(D[j]) && CanEnter(D, st, j) && vs != [] && forall v :: v in vs ==> ValueOK(D[j].l, v)
    requires |EncItems(D[j], vs, |vs|)| < 0x1_0000_0000 && |EncPacked(D[j].l, vs, |vs|)| < 0x1_0000_0000
    ensures var packed := EncPacked(D[j].l, vs, |vs|);
      DecodeLoop(D, st, EncItems(D[j], vs, |vs|) + rest) ==
      DecodeLoop(D, st, EncodeVarint(8 * D[j].tag + 2) + (EncodeVarint(|packed|) + packed) + rest)
  {
    hide DecodeLoop, MergeItems, EncItems, EncPacked, Enter, CanEnter, EncodeVarint;
    assert forall v :: v in vs ==> ValueEncodable(D[j].l, v);
    KnownPacked(D, st, D[j], j, vs, rest);
    ItemsReadBack(D, st, D[j], j, vs, |vs|, rest);
  }

  /** The struct a reader starts from, seen by reading nothing into it. */
  lemma NothingRead(D: seq<Field>)
    ensures (exists i :: 0 <= i < |D| && D[i].h.Required?) ==> Decode(D, []).None?
    ensures (forall i :: 0 <= i < |D| ==> !D[i].h.Required?) ==>
              Decode(D, []).Some? && StartsFrom(D, Decode(D, []).value)
  {
    var m := DefaultMessage(D);
    forall i | 0 <= i < |D| ensures SlotStartsFrom(D[i], m[i]) {
      DefaultStarts(D[i]);
    }
    if exists i :: 0 <= i < |D| && D[i].h.Required? {
      var i :| 0 <= i < |D| && D[i].h.Required?;
      FirstRequired(D, i);
      var none: set<nat> := {};
      assert 0 !in none && !AllSeen(D, none);
    } else {
      NoneRequired(D, |D|);
    }
  }

  lemma {:induction false} NoneRequired(D: seq<Field>, n: nat)
    requires n <= |D| && forall i :: 0 <= i < n ==> !D[i].h.Required?
    ensures RequiredIndex(D, n) == 0
  {
    if n > 0 {
      NoneRequired(D, n - 1);
    }
  }

  lemma FirstRequired(D: seq<Field>, i: nat)
    requires i < |D| && D[i].h.Required?
    ensures RequiredIndex(D, |D|) > 0
  {
    IndexGrows(D, i, |D|);
  }

  /** Every scalar with its initial value, flags down, arrays empty, no arm chosen. */
  ghost predicate StartsFrom(D: seq<Field>, m: seq<Slot>)
    decreases D
  {
    |m| == |D| && forall i :: 0 <= i < |D| ==> SlotStartsFrom(D[i], m[i])
  }

  ghost predicate SlotStartsFrom(f: Field, s: Slot)
    decreases f
  {
    match f.h
    case Required => s.Plain? && ValueStartsFrom(f.l, f.initial, s.v)
    case Singular => s.Plain? && ValueStartsFrom(f.l, f.initial, s.v)
    case Optional => s.Opt? && !s.has && ValueStartsFrom(f.l, f.initial, s.v)
    case OneOf(_) => s == Arm(None)
    case _ => s == Rep([])
  }

  ghost predicate ValueStartsFrom(l: LType, initial: Value, v: Value)
    decreases l
  {
    if l.Submessage? then v.VMsg? && StartsFrom(l.fields, v.slots) else v == initial
  }

  lemma {:induction false} DefaultStarts(f: Field)
    ensures SlotStartsFrom(f, DefaultSlot(f)) && ValueStartsFrom(f.l, f.initial, DefaultValue(f))
    decreases f
  {
    if f.l.Submessage? {
      var D := f.l.fields;
      forall i | 0 <= i < |D| ensures SlotStartsFrom(D[i], DefaultMessage(D)[i]) {
        DefaultStarts(D[i]);
      }
    }
  }
}
