/** Message descriptors, and messages as the structs they describe.

    A descriptor is a list of fields.  A message has one slot for each field: the field's value
    and whatever the struct keeps beside it (a has_ flag, a count, a which_ tag).
 */
module Descriptors {
  import opened Options
  import opened Bits
  import opened ZigZag

  datatype LType =
    | Bool
    | Int(size: nat)               // int32, int64, enum: sign-extended varint
    | UInt(size: nat)
    | SInt(size: nat)              // zigzag
    | Fixed32
    | Fixed64
    | Bytes(capacity: nat)
    | String(dataSize: nat)        // room for the terminating NUL included
    | Submessage(fields: seq<Field>)
    | FixedLengthBytes(length: nat)

  datatype HType =
    | Required
    | Optional                     // with a has_ flag
    | Singular                     // proto3: present unless it is the default value
    | Repeated(max: nat)
    | FixedCount(count: nat)
    | OneOf(group: nat)

  datatype Field = Field(tag: nat, h: HType, l: LType, initial: Value)

  /** A string is what precedes the first NUL of its buffer. */
  datatype Value =
    | VBool(b: bool)
    | VInt(n: int)
    | VBits(bits: nat)
    | VBytes(bytes: seq<byte>)
    | VMsg(slots: seq<Slot>)

  datatype Slot =
    | Plain(v: Value)
    | Opt(has: bool, v: Value)
    | Rep(items: seq<Value>)
    | Arm(chosen: Option<Value>)

  // ----- what descriptors and messages look like -----

  predicate SizeOK(size: nat) {
    size in {1, 2, 4, 8}
  }

  function Width(size: nat): nat {
    8 * size
  }

  predicate IsCString(s: seq<byte>) {
    forall i :: 0 <= i < |s| ==> s[i] != 0
  }

  /** A value of the field's C type. */
  ghost predicate ValueOK(l: LType, v: Value)
    decreases l
  {
    match l
    case Bool => v.VBool?
    case Int(size) => v.VInt? && SizeOK(size) && Fits(v.n, Width(size))
    case UInt(size) => v.VInt? && SizeOK(size) && 0 <= v.n < Pow2(Width(size))
    case SInt(size) => v.VInt? && SizeOK(size) && Fits(v.n, Width(size))
    case Fixed32 => v.VBits? && v.bits < TWO32
    case Fixed64 => v.VBits? && v.bits < TWO64
    case Bytes(_) => v.VBytes?
    case String(dataSize) => v.VBytes? && |v.bytes| <= dataSize && IsCString(v.bytes)
    case Submessage(fields) => v.VMsg? && MessageOK(fields, v.slots)
    case FixedLengthBytes(length) => v.VBytes? && |v.bytes| == length
  }

  ghost predicate SlotOK(f: Field, s: Slot)
    decreases f
  {
    match f.h
    case Required => s.Plain? && ValueOK(f.l, s.v)
    case Singular => s.Plain? && ValueOK(f.l, s.v)
    case Optional => s.Opt? && ValueOK(f.l, s.v)
    case Repeated(_) => s.Rep? && forall v :: v in s.items ==> ValueOK(f.l, v)
    case FixedCount(count) => s.Rep? && |s.items| == count && forall v :: v in s.items ==> ValueOK(f.l, v)
    case OneOf(_) => s.Arm? && (s.chosen.Some? ==> ValueOK(f.l, s.chosen.value))
  }

  predicate Chosen(f: Field, s: Slot) {
    f.h.OneOf? && s.Arm? && s.chosen.Some?
  }

  /** At most one arm of a union is chosen. */
  predicate ArmsOK(D: seq<Field>, m: seq<Slot>)
    requires |m| == |D|
  {
    forall i, j :: 0 <= i < |D| && 0 <= j < |D| && Chosen(D[i], m[i]) && Chosen(D[j], m[j]) ==>
      D[i].h == D[j].h ==> i == j
  }

  ghost predicate MessageOK(D: seq<Field>, m: seq<Slot>)
    decreases D
  {
    |m| == |D| && ArmsOK(D, m) && forall i :: 0 <= i < |D| ==> SlotOK(D[i], m[i])
  }

  predicate Distinct(D: seq<Field>) {
    forall i, j :: 0 <= i < |D| && 0 <= j < |D| && D[i].tag == D[j].tag ==> i == j
  }

  const MAX_TAG: nat := 0x1FFF_FFFF

  /** What the descriptor generator guarantees: distinct positive tags, and proto3 fields that
      start out with the value that is not sent. */
  ghost predicate WellFormed(D: seq<Field>)
    decreases D
  {
    Distinct(D) && forall i :: 0 <= i < |D| ==> FieldOK(D[i])
  }

  ghost predicate FieldOK(f: Field)
    decreases f
  {
    && 0 < f.tag <= MAX_TAG
    && (if f.l.Submessage? then WellFormed(f.l.fields) else ValueOK(f.l, f.initial))
    && (f.h.Singular? && !f.l.Submessage? ==> IsDefaultValue(f.l, f.initial))
  }

  /** Distinctness of the tags and their range, at every depth. */
  ghost predicate TagsOK(D: seq<Field>)
    decreases D
  {
    Distinct(D) && forall i :: 0 <= i < |D| ==> TagOK(D[i])
  }

  ghost predicate TagOK(f: Field)
    decreases f
  {
    0 < f.tag <= MAX_TAG && (f.l.Submessage? ==> TagsOK(f.l.fields))
  }

  lemma {:induction false} WellFormedTags(D: seq<Field>)
    requires WellFormed(D)
    ensures TagsOK(D)
    decreases D
  {
    forall i | 0 <= i < |D| ensures TagOK(D[i]) {
      FieldTags(D[i]);
    }
  }

  lemma {:induction false} FieldTags(f: Field)
    requires FieldOK(f)
    ensures TagOK(f)
    decreases f
  {
    if f.l.Submessage? {
      WellFormedTags(f.l.fields);
    }
  }

  predicate Packable(l: LType) {
    l.Bool? || l.Int? || l.UInt? || l.SInt? || l.Fixed32? || l.Fixed64?
  }

  predicate IsRepeated(h: HType) {
    h.Repeated? || h.FixedCount?
  }

  function Limit(h: HType): nat
    requires IsRepeated(h)
  {
    if h.Repeated? then h.max else h.count
  }

  // ----- default values -----

  function DefaultValue(f: Field): Value
    decreases f, 0
  {
    if f.l.Submessage? then VMsg(DefaultMessage(f.l.fields)) else f.initial
  }

  /** The contents of a fixed-count array are not set; no items stands for that. */
  function DefaultSlot(f: Field): Slot
    decreases f, 1
  {
    match f.h
    case Required => Plain(DefaultValue(f))
    case Singular => Plain(DefaultValue(f))
    case Optional => Opt(false, DefaultValue(f))
    case Repeated(_) => Rep([])
    case FixedCount(_) => Rep([])
    case OneOf(_) => Arm(None)
  }

  function DefaultMessage(D: seq<Field>): (m: seq<Slot>)
    ensures |m| == |D|
    decreases D
  {
    seq(|D|, i requires 0 <= i < |D| => DefaultSlot(D[i]))
  }

  /** pb_check_proto3_default_value. */
  predicate IsDefaultField(f: Field, s: Slot)
    decreases f, 1
  {
    match f.h
    case Required => false
    case Repeated(_) => s.Rep? && s.items == []
    case FixedCount(_) => false
    case OneOf(_) => s.Arm? && s.chosen.None?
    case Optional => s.Opt? && !s.has
    case Singular => s.Plain? && IsDefaultValue(f.l, s.v)
  }

  predicate IsDefaultValue(l: LType, v: Value)
    decreases l
  {
    match l
    case Bytes(_) => v == VBytes([])
    case String(_) => v == VBytes([])
    case FixedLengthBytes(length) => length == 0
    case Submessage(fields) =>
      v.VMsg? && |v.slots| == |fields| && forall i :: 0 <= i < |fields| ==> IsDefaultField(fields[i], v.slots[i])
    case Bool => v == VBool(false)
    case Int(_) => v == VInt(0)
    case UInt(_) => v == VInt(0)
    case SInt(_) => v == VInt(0)
    case Fixed32 => v == VBits(0)
    case Fixed64 => v == VBits(0)
  }

  // ----- finding a field -----

  function FindFrom(D: seq<Field>, tag: nat, i: nat): (r: Option<nat>)
    requires i <= |D|
    ensures r.Some? ==> i <= r.value < |D| && D[r.value].tag == tag
    ensures r.None? ==> forall k :: i <= k < |D| ==> D[k].tag != tag
    decreases |D| - i
  {
    if i == |D| then None else if D[i].tag == tag then Some(i) else FindFrom(D, tag, i + 1)
  }

  function Find(D: seq<Field>, tag: nat): (r: Option<nat>)
    ensures r.Some? ==> r.value < |D| && D[r.value].tag == tag
    ensures r.None? ==> forall k :: 0 <= k < |D| ==> D[k].tag != tag
  {
    FindFrom(D, tag, 0)
  }
}
