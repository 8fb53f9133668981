/** What the encoder writes, as a function of descriptor and message. */
module Encoding {
  import opened Options
  import opened Bits
  import opened Varint
  import opened ZigZag
  import opened Descriptors

  const WT_VARINT: nat := 0
  const WT_64BIT: nat := 1
  const WT_STRING: nat := 2
  const WT_32BIT: nat := 5

  function WireType(l: LType): nat {
    match l
    case Bool => WT_VARINT
    case Int(_) => WT_VARINT
    case UInt(_) => WT_VARINT
    case SInt(_) => WT_VARINT
    case Fixed32 => WT_32BIT
    case Fixed64 => WT_64BIT
    case Bytes(_) => WT_STRING
    case String(_) => WT_STRING
    case Submessage(_) => WT_STRING
    case FixedLengthBytes(_) => WT_STRING
  }

  function EncTag(tag: nat, wt: nat): seq<byte> {
    EncodeVarint(8 * tag + wt)
  }

  /** The `n` low bytes of a word, lowest first. */
  function LittleEndian(w: nat, n: nat): (bytes: seq<byte>)
    ensures |bytes| == n
  {
    if n == 0 then [] else [w % 256] + LittleEndian(w / 256, n - 1)
  }

  function FromLittleEndian(bytes: seq<byte>): nat {
    if bytes == [] then 0 else bytes[0] + 256 * FromLittleEndian(bytes[1..])
  }

  lemma {:induction false} LittleEndianRoundTrip(w: nat, n: nat)
    requires w < Pow2(8 * n)
    ensures FromLittleEndian(LittleEndian(w, n)) == w
  {
    if n > 0 {
      Pow2Adds(8 * (n - 1), 8);
      assert Pow2(8) == 256;
      assert LittleEndian(w, n)[1..] == LittleEndian(w / 256, n - 1);
      LittleEndianRoundTrip(w / 256, n - 1);
    }
  }

  function Delimited(bytes: seq<byte>): seq<byte> {
    EncodeVarint(|bytes|) + bytes
  }

  /** The bytes of one value, without its tag.  A value of another kind than its field does not
      occur in a message. */
  function EncValue(l: LType, v: Value): seq<byte>
    decreases l, 0
  {
    match (l, v)
    case (Bool, VBool(b)) => EncodeVarint(if b then 1 else 0)
    case (Int(_), VInt(n)) => EncodeVarint(Word(n, 64))
    case (UInt(_), VInt(n)) => EncodeVarint(Word(n, 64))
    case (SInt(_), VInt(n)) => EncodeVarint(EncodeByComplement(n, 64) % TWO64)
    case (Fixed32, VBits(w)) => LittleEndian(w, 4)
    case (Fixed64, VBits(w)) => LittleEndian(w, 8)
    case (Bytes(_), VBytes(s)) => Delimited(s)
    case (String(_), VBytes(s)) => Delimited(s)
    case (FixedLengthBytes(_), VBytes(s)) => Delimited(s)
    case (Submessage(fields), VMsg(slots)) =>
      if |slots| == |fields| then Delimited(EncTo(fields, slots, |fields|)) else []
    case _ => []
  }

  /** The values a field has to send. */
  function Payload(f: Field, s: Slot): seq<Value> {
    match (f.h, s)
    case (Required, Plain(v)) => [v]
    case (Singular, Plain(v)) => if IsDefaultValue(f.l, v) then [] else [v]
    case (Optional, Opt(has, v)) => if has then [v] else []
    case (Repeated(_), Rep(items)) => items
    case (FixedCount(_), Rep(items)) => items
    case (OneOf(_), Arm(Some(v))) => [v]
    case _ => []
  }

  /** One value with its tag. */
  function EncItem(f: Field, v: Value): seq<byte>
    decreases f, 0
  {
    EncTag(f.tag, WireType(f.l)) + EncValue(f.l, v)
  }

  function EncItems(f: Field, vs: seq<Value>, n: nat): seq<byte>
    requires n <= |vs|
    decreases f, n
  {
    if n == 0 then [] else EncItems(f, vs, n - 1) + EncItem(f, vs[n - 1])
  }

  /** The values of a packed array, one after the other. */
  function EncPacked(l: LType, vs: seq<Value>, n: nat): seq<byte>
    requires n <= |vs|
    decreases l, n
  {
    if n == 0 then [] else EncPacked(l, vs, n - 1) + EncValue(l, vs[n - 1])
  }

  predicate Packs(f: Field) {
    IsRepeated(f.h) && Packable(f.l)
  }

  function EncField(f: Field, s: Slot): seq<byte>
    decreases f, |Payload(f, s)| + 1
  {
    var vs := Payload(f, s);
    if Packs(f) then
      if vs == [] then [] else EncTag(f.tag, WT_STRING) + Delimited(EncPacked(f.l, vs, |vs|))
    else EncItems(f, vs, |vs|)
  }

  /** The first `n` fields. */
  function EncTo(D: seq<Field>, m: seq<Slot>, n: nat): seq<byte>
    requires |m| == |D| && n <= |D|
    decreases D, n
  {
    if n == 0 then [] else EncTo(D, m, n - 1) + EncField(D[n - 1], m[n - 1])
  }

  function Enc(D: seq<Field>, m: seq<Slot>): seq<byte>
    requires |m| == |D|
  {
    EncTo(D, m, |D|)
  }

  // ----- when the encoder succeeds -----

  /** The encoder's own checks on one value: a byte array within its capacity, at every depth. */
  predicate ValueEncodable(l: LType, v: Value)
    decreases l
  {
    match (l, v)
    case (Bytes(capacity), VBytes(s)) => |s| <= capacity
    case (Submessage(fields), VMsg(slots)) =>
      |slots| == |fields| ==> forall i :: 0 <= i < |fields| ==> FieldEncodable(fields[i], slots[i])
    case _ => true
  }

  /** An array within its bound, and every value that is sent encodable. */
  predicate FieldEncodable(f: Field, s: Slot)
    decreases f
  {
    && (IsRepeated(f.h) ==> |Payload(f, s)| <= Limit(f.h))
    && forall v :: v in Payload(f, s) ==> ValueEncodable(f.l, v)
  }

  predicate Encodable(D: seq<Field>, m: seq<Slot>)
    requires |m| == |D|
  {
    forall i :: 0 <= i < |D| ==> FieldEncodable(D[i], m[i])
  }

  // ----- lengths -----

  lemma {:induction false} EncToGrows(D: seq<Field>, m: seq<Slot>, i: nat, n: nat)
    requires |m| == |D| && i <= n <= |D|
    ensures |EncTo(D, m, i)| <= |EncTo(D, m, n)|
    ensures i < n ==> |EncTo(D, m, i)| + |EncField(D[i], m[i])| <= |EncTo(D, m, n)|
    decreases n - i
  {
    if i < n - 1 {
      EncToGrows(D, m, i, n - 1);
    }
  }
}
