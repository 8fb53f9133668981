/** What the decoder makes of a byte string, as a function.

    The wire type of a known field is only looked at to tell a packed array from a single value;
    the field's own type decides what is read.
 */
module Decoding {
  import opened Options
  import opened Bits
  import opened Varint
  import opened ZigZag
  import opened Descriptors
  import opened Encoding

  const MAX_REQUIRED: nat := 64

  // ----- single values -----

  function Take(n: nat, bytes: seq<byte>): (p: Parsed<seq<byte>>)
    ensures p.Good? ==> |p.value| == n && |p.rest| == |bytes| - n && bytes == p.value + p.rest
  {
    if |bytes| < n then Bad else Good(bytes[..n], bytes[n..])
  }

  function TakeString(bytes: seq<byte>): (p: Parsed<seq<byte>>)
    ensures p.Good? ==> |p.rest| < |bytes| && |p.value| < |bytes|
  {
    match DecodeVarint32(bytes)
    case Bad => Bad
    case Good(n, rest) => Take(n, rest)
  }

  /** A signed field narrower than 64 bits first keeps only the low 32 bits. */
  function IntOfVarint(size: nat, v: nat): Option<int> {
    var n := if size == 8 then Signed(v, 64) else Signed(v % TWO32, 32);
    if SizeOK(size) && Fits(n, Width(size)) then Some(n) else None
  }

  function UIntOfVarint(size: nat, v: nat): Option<int> {
    if SizeOK(size) && v < Pow2(Width(size)) then Some(v) else None
  }

  function SIntOfVarint(size: nat, v: nat): Option<int> {
    var n := DecodeByComplement(v, 64);
    if SizeOK(size) && Fits(n, Width(size)) then Some(n) else None
  }

  function IntOf(l: LType, v: nat): Option<int> {
    match l
    case Int(size) => IntOfVarint(size, v)
    case UInt(size) => UIntOfVarint(size, v)
    case SInt(size) => SIntOfVarint(size, v)
    case _ => None
  }

  function CString(s: seq<byte>): seq<byte> {
    if s == [] || s[0] == 0 then [] else [s[0]] + CString(s[1..])
  }

  /** What a string of bytes becomes in a field of the type. */
  function StringOf(l: LType, s: seq<byte>): Option<Value> {
    match l
    case Bytes(capacity) => if |s| > capacity then None else Some(VBytes(s))
    case String(dataSize) => if |s| + 1 > dataSize then None else Some(VBytes(CString(s)))
    case FixedLengthBytes(length) =>
      if s == [] then Some(VBytes(seq(length, _ => 0)))
      else if |s| != length then None
      else Some(VBytes(s))
    case _ => None
  }

  function DecScalar(l: LType, bytes: seq<byte>): (p: Parsed<Value>)
    ensures p.Good? ==> |p.rest| < |bytes|
  {
    if l.Bool? then
      match DecodeVarint32(bytes)
      case Bad => Bad
      case Good(v, rest) => Good(VBool(v != 0), rest)
    else if l.Fixed32? || l.Fixed64? then
      match Take(if l.Fixed32? then 4 else 8, bytes)
      case Bad => Bad
      case Good(b, rest) => Good(VBits(FromLittleEndian(b)), rest)
    else if l.Int? || l.UInt? || l.SInt? then
      match DecodeVarint(bytes)
      case Bad => Bad
      case Good(v, rest) => if IntOf(l, v).Some? then Good(VInt(IntOf(l, v).value), rest) else Bad
    else if l.Submessage? then Bad
    else
      match TakeString(bytes)
      case Bad => Bad
      case Good(s, rest) => if StringOf(l, s).Some? then Good(StringOf(l, s).value, rest) else Bad
  }

  // ----- tags and skipping -----

  datatype TagRead = BadTag | EndTag | FieldTag(tag: nat, wt: nat, rest: seq<byte>)

  /** A tag of zero ends the message. */
  function DecodeTag(bytes: seq<byte>): (r: TagRead)
    ensures r.FieldTag? ==> |r.rest| < |bytes|
  {
    match DecodeVarint32(bytes)
    case Bad => BadTag
    case Good(v, rest) => if v == 0 then EndTag else FieldTag(v / 8, v % 8, rest)
  }

  function Dropped<T>(p: Parsed<T>): Parsed<()> {
    match p
    case Bad => Bad
    case Good(_, rest) => Good((), rest)
  }

  function SkipField(wt: nat, bytes: seq<byte>): (p: Parsed<()>)
    ensures p.Good? ==> |p.rest| < |bytes|
  {
    if wt == WT_VARINT then SkipVarint(bytes)
    else if wt == WT_64BIT then Dropped(Take(8, bytes))
    else if wt == WT_STRING then Dropped(TakeString(bytes))
    else if wt == WT_32BIT then Dropped(Take(4, bytes))
    else Bad
  }

  /** A tag the descriptor does not have.  The search for tag 0 in an empty descriptor stops at the
      terminator, which then decodes like a bool. */
  function SkipUnknown(D: seq<Field>, tag: nat, wt: nat, bytes: seq<byte>): (p: Parsed<()>)
    ensures p.Good? ==> |p.rest| < |bytes|
  {
    if D == [] && tag == 0 then Dropped(DecodeVarint32(bytes)) else SkipField(wt, bytes)
  }

  // ----- slots -----

  function Items(s: Slot): seq<Value> {
    if s.Rep? then s.items else []
  }

  /** What is in place before a value is decoded.  Array items start from the defaults, and so
      does a union's submessage unless it is the arm already chosen. */
  function Base(f: Field, s: Slot): Value {
    if IsRepeated(f.h) then DefaultValue(f)
    else
      match s
      case Plain(v) => v
      case Opt(_, v) => v
      case Arm(Some(v)) => v
      case _ => DefaultValue(f)
  }

  predicate Room(f: Field, s: Slot) {
    IsRepeated(f.h) ==> |Items(s)| < Limit(f.h)
  }

  /** Storing a decoded value: an array grows, a union forgets its other arms. */
  function Assign(D: seq<Field>, m: seq<Slot>, j: nat, v: Value): (r: seq<Slot>)
    requires |m| == |D| && j < |D|
    ensures |r| == |D|
  {
    match D[j].h
    case Required => m[j := Plain(v)]
    case Singular => m[j := Plain(v)]
    case Optional => m[j := Opt(true, v)]
    case Repeated(_) => m[j := Rep(Items(m[j]) + [v])]
    case FixedCount(_) => m[j := Rep(Items(m[j]) + [v])]
    case OneOf(_) =>
      seq(|D|, i requires 0 <= i < |D| =>
        if i == j then Arm(Some(v)) else if D[i].h == D[j].h then Arm(None) else m[i])
  }

  // ----- the loop over fields -----

  /** The struct, the fixed-count array being received, and the required fields seen. */
  datatype State = State(msg: seq<Slot>, track: Option<nat>, seen: set<nat>)

  function RequiredIndex(D: seq<Field>, j: nat): nat
    requires j <= |D|
  {
    if j == 0 then 0 else RequiredIndex(D, j - 1) + if D[j - 1].h.Required? then 1 else 0
  }

  predicate AllSeen(D: seq<Field>, seen: set<nat>) {
    forall k :: 0 <= k < RequiredIndex(D, |D|) && k < MAX_REQUIRED ==> k in seen
  }

  /** The last fixed-count array was received in full. */
  predicate Complete(D: seq<Field>, st: State)
    requires |st.msg| == |D|
  {
    st.track.Some? && st.track.value < |D| && D[st.track.value].h.FixedCount? ==>
      |Items(st.msg[st.track.value])| == D[st.track.value].h.count
  }

  predicate CanEnter(D: seq<Field>, st: State, j: nat)
    requires |st.msg| == |D| && j < |D|
  {
    D[j].h.FixedCount? && st.track != Some(j) ==> Complete(D, st)
  }

  /** Before a value of field `j`: note that it was seen; start a fixed-count array afresh. */
  function Enter(D: seq<Field>, st: State, j: nat): (r: State)
    requires |st.msg| == |D| && j < |D|
    ensures |r.msg| == |D|
  {
    var k := RequiredIndex(D, j);
    var seen := if D[j].h.Required? && k < MAX_REQUIRED then st.seen + {k} else st.seen;
    if D[j].h.FixedCount? && st.track != Some(j) then State(st.msg[j := Rep([])], Some(j), seen)
    else st.(seen := seen)
  }

  /** Packed array: as many values as there are bytes, or room. */
  function DecPacked(l: LType, items: seq<Value>, limit: nat, bytes: seq<byte>): Parsed<seq<Value>>
    decreases |bytes|
  {
    if bytes == [] || |items| >= limit then Good(items, bytes)
    else
      match DecScalar(l, bytes)
      case Bad => Bad
      case Good(v, rest) => DecPacked(l, items + [v], limit, rest)
  }

  function DecPackedField(D: seq<Field>, st: State, j: nat, bytes: seq<byte>): (p: Parsed<State>)
    requires |st.msg| == |D| && j < |D| && IsRepeated(D[j].h)
    ensures p.Good? ==> |p.rest| < |bytes| && |p.value.msg| == |D|
  {
    match TakeString(bytes)
    case Bad => Bad
    case Good(sub, rest) =>
      match DecPacked(D[j].l, Items(st.msg[j]), Limit(D[j].h), sub)
      case Bad => Bad
      case Good(items, left) => if left == [] then Good(st.(msg := st.msg[j := Rep(items)]), rest) else Bad
  }

  function SubMessage(fields: seq<Field>, base: Value): (m: seq<Slot>)
    ensures |m| == |fields|
  {
    if base.VMsg? && |base.slots| == |fields| then base.slots else DefaultMessage(fields)
  }

  function DecValue(l: LType, base: Value, bytes: seq<byte>): (p: Parsed<Value>)
    ensures p.Good? ==> |p.rest| < |bytes|
    decreases |bytes|, 2
  {
    if l.Submessage? then
      match TakeString(bytes)
      case Bad => Bad
      case Good(sub, rest) =>
        var r := DecodeNoinit(l.fields, SubMessage(l.fields, base), sub);
        if r.Some? then Good(VMsg(r.value), rest) else Bad
    else DecScalar(l, bytes)
  }

  function DecItem(D: seq<Field>, st: State, j: nat, bytes: seq<byte>): (p: Parsed<State>)
    requires |st.msg| == |D| && j < |D|
    ensures p.Good? ==> |p.rest| < |bytes| && |p.value.msg| == |D|
    decreases |bytes|, 3
  {
    if !Room(D[j], st.msg[j]) then Bad
    else
      match DecValue(D[j].l, Base(D[j], st.msg[j]), bytes)
      case Bad => Bad
      case Good(v, rest) => Good(st.(msg := Assign(D, st.msg, j, v)), rest)
  }

  /** What follows a tag. */
  function Step(D: seq<Field>, st: State, tag: nat, wt: nat, bytes: seq<byte>): (p: Parsed<State>)
    requires |st.msg| == |D|
    ensures p.Good? ==> |p.rest| < |bytes| && |p.value.msg| == |D|
    decreases |bytes|, 4
  {
    match Find(D, tag)
    case None =>
      (match SkipUnknown(D, tag, wt, bytes)
       case Bad => Bad
       case Good(_, rest) => Good(st, rest))
    case Some(j) =>
      if !CanEnter(D, st, j) then Bad
      else if wt == WT_STRING && Packs(D[j]) then DecPackedField(D, Enter(D, st, j), j, bytes)
      else DecItem(D, Enter(D, st, j), j, bytes)
  }

  /** How the loop ends: in an error, at the end of the bytes, or at a zero tag. */
  datatype Ending = Failed | AtEnd(st: State) | AtZero(st: State)

  function DecodeLoop(D: seq<Field>, st: State, bytes: seq<byte>): (r: Ending)
    requires |st.msg| == |D|
    ensures !r.Failed? ==> |r.st.msg| == |D|
    decreases |bytes|, 0
  {
    if bytes == [] then AtEnd(st)
    else
      match DecodeTag(bytes)
      case BadTag => Failed
      case EndTag => AtZero(st)
      case FieldTag(tag, wt, rest) =>
        match Step(D, st, tag, wt, rest)
        case Bad => Failed
        case Good(st', rest') => DecodeLoop(D, st', rest')
  }

  /** The checks made when the loop has ended. */
  predicate Accepts(D: seq<Field>, r: Ending)
    requires !r.Failed? ==> |r.st.msg| == |D|
  {
    !r.Failed? && Complete(D, r.st) && AllSeen(D, r.st.seen)
  }

  /** Decoding into a struct that already holds something. */
  function DecodeNoinit(D: seq<Field>, m: seq<Slot>, bytes: seq<byte>): (r: Option<seq<Slot>>)
    requires |m| == |D|
    ensures r.Some? ==> |r.value| == |D|
    decreases |bytes|, 1
  {
    var r := DecodeLoop(D, State(m, None, {}), bytes);
    if Accepts(D, r) then Some(r.st.msg) else None
  }

  /** Decoding into a struct that is reset first. */
  function Decode(D: seq<Field>, bytes: seq<byte>): Option<seq<Slot>> {
    DecodeNoinit(D, DefaultMessage(D), bytes)
  }
}
