/** The encoder of pb_encode.c: it writes exactly the specified bytes, or fails. */
module Encoder {
  import opened Options
  import opened Bits
  import opened Varint
  import opened ZigZag
  import opened Descriptors
  import opened Encoding
  import opened Scalars
  import opened Merging
  import opened ReadBack
  import opened Combining
  import opened OutputStream

  /** The outcome of writing `bytes`, if the encoder's own checks pass: all of them, exactly when
      they fit. */
  ghost predicate Wrote(before: Snap, now: Snap, bytes: seq<byte>, encodable: bool, ok: bool)
    requires SnapOK(before)
  {
    && SnapOK(now) && now.sizing == before.sizing && now.maxSize == before.maxSize
    && |now.contents| == |before.contents|
    && ok == (encodable && HasSpace(before, |bytes|))
    && (ok ==> now == Advance(before, bytes))
  }

  lemma WroteThen(a: Snap, b: Snap, c: Snap, x: seq<byte>, y: seq<byte>, okY: bool, ok: bool)
    requires SnapOK(a) && Wrote(a, b, x, true, true) && Wrote(b, c, y, okY, ok)
    ensures Wrote(a, c, x + y, okY, ok)
  {
    AdvanceTwice(a, x, y);
  }

  lemma WroteNothing(a: Snap)
    requires SnapOK(a)
    ensures Wrote(a, a, [], true, true)
  {
    AdvanceNone(a);
  }

  /** pb_enc_bool, pb_enc_varint, pb_enc_uvarint and pb_enc_svarint. */
  method EncodeInteger(stream: OStream, l: LType, v: Value) returns (ok: bool)
    requires stream.Valid() && (l.Bool? || l.Int? || l.UInt? || l.SInt?) && ValueOK(l, v)
    modifies stream`state, stream`bytesWritten, stream.buf
    ensures Wrote(old(stream.Now()), stream.Now(), EncValue(l, v), true, ok)
  {
    PowersUsed();
    if l.Bool? {
      ok := stream.WriteVarint(if v.b then 1 else 0);
    } else if l.SInt? {
      FitsWider(v.n, Width(l.size), 64);
      hide Pow2, Word, EncodeVarint, EncodeByComplement, Advance;
      ok := stream.WriteSVarint(v.n);
    } else {
      WordBound(v.n, 64);
      hide Pow2, Word, EncodeVarint, Advance;
      ok := stream.WriteVarint(Word(v.n, 64));
    }
  }

  /** Every field encoder but the one for submessages. */
  method EncodeScalar(stream: OStream, l: LType, v: Value) returns (ok: bool)
    requires stream.Valid() && !l.Submessage? && ValueOK(l, v) && |EncValue(l, v)| < TWO64
    modifies stream`state, stream`bytesWritten, stream.buf
    ensures Wrote(old(stream.Now()), stream.Now(), EncValue(l, v), ValueEncodable(l, v), ok)
  {
    hide Pow2, Word, EncodeVarint, EncodeByComplement, LittleEndian, Advance, SnapOK, HasSpace;
    if l.Bool? || l.Int? || l.UInt? || l.SInt? {
      ok := EncodeInteger(stream, l, v);
    } else if l.Fixed32? || l.Fixed64? {
      ok := stream.WriteFixed(v.bits, if l.Fixed32? then 4 else 8);
    } else {
      if l.Bytes? && |v.bytes| > l.capacity {
        return false;
      }
      ok := stream.WriteString(v.bytes);
    }
  }

  /** A failure on part of the bytes is a failure on all of them. */
  lemma WroteLess(a: Snap, b: Snap, x: seq<byte>, okX: bool, all: seq<byte>, okAll: bool)
    requires SnapOK(a) && Wrote(a, b, x, okX, false) && |x| <= |all| && (okAll ==> okX)
    ensures Wrote(a, b, all, okAll, false)
  {
  }

  lemma {:induction false} EncItemsGrows(f: Field, vs: seq<Value>, i: nat, n: nat)
    requires i <= n <= |vs|
    ensures |EncItems(f, vs, i)| <= |EncItems(f, vs, n)|
    ensures i < n ==> |EncItem(f, vs[i])| <= |EncItems(f, vs, n)|
    decreases n - i
  {
    hide EncItem;
    if i < n {
      EncItemsGrows(f, vs, i, n - 1);
    }
  }

  lemma {:induction false} FixedPackedLength(l: LType, vs: seq<Value>, n: nat)
    requires (l.Fixed32? || l.Fixed64?) && n <= |vs| && forall v :: v in vs ==> ValueOK(l, v)
    ensures |EncPacked(l, vs, n)| == n * if l.Fixed32? then 4 else 8
    decreases n
  {
    if n > 0 {
      FixedPackedLength(l, vs, n - 1);
      assert ValueOK(l, vs[n - 1]);
      assert |EncValue(l, vs[n - 1])| == if l.Fixed32? then 4 else 8;
    }
  }

  /** The values of a packed array, into the stream or into a counting one. */
  method EncodePacked(stream: OStream, l: LType, items: seq<Value>) returns (ok: bool)
    requires stream.Valid() && Packable(l) && (forall v :: v in items ==> ValueOK(l, v))
    requires |EncPacked(l, items, |items|)| < TWO64
    modifies stream`state, stream`bytesWritten, stream.buf
    ensures Wrote(old(stream.Now()), stream.Now(), EncPacked(l, items, |items|), true, ok)
  {
    hide ValueOK, EncValue, Advance, SnapOK, HasSpace;
    ghost var before := stream.Now();
    ok := true;
    WroteNothing(before);
    for i := 0 to |items|
      invariant ok && stream.Valid() && Wrote(before, stream.Now(), EncPacked(l, items, i), true, true)
    {
      ghost var mid := stream.Now();
      EncPackedGrows(l, items, i, |items|);
      EncPackedGrows(l, items, i + 1, |items|);
      PackableEncodable(l, items[i]);
      ok := EncodeScalar(stream, l, items[i]);
      WroteThen(before, mid, stream.Now(), EncPacked(l, items, i), EncValue(l, items[i]), true, ok);
      if !ok {
        WroteLess(before, stream.Now(), EncPacked(l, items, i + 1), true, EncPacked(l, items, |items|), true);
        return;
      }
    }
  }

  lemma PackableEncodable(l: LType, v: Value)
    requires Packable(l)
    ensures ValueEncodable(l, v)
  {
  }

  /** A packed array: its size first, computed or found by a counting pass. */
  method EncodePackedArray(stream: OStream, f: Field, items: seq<Value>) returns (ok: bool)
    requires stream.Valid() && Packs(f) && f.tag <= MAX_TAG && items != []
    requires forall v :: v in items ==> ValueOK(f.l, v)
    requires |EncPacked(f.l, items, |items|)| < TWO64
    modifies stream`state, stream`bytesWritten, stream.buf
    ensures Wrote(old(stream.Now()), stream.Now(), EncTag(f.tag, WT_STRING) + Delimited(EncPacked(f.l, items, |items|)),
                  true, ok)
  {
    hide ValueOK, EncValue, Advance, EncPacked, EncTag, EncodeVarint;
    ghost var before, data := stream.Now(), EncPacked(f.l, items, |items|);
    ghost var tag, head := EncTag(f.tag, WT_STRING), EncodeVarint(|data|);
    assert tag + Delimited(data) == tag + head + data;
    ok := stream.WriteTag(WT_STRING, f.tag);
    ghost var tagged := stream.Now();
    assert Wrote(before, tagged, tag, true, ok);
    if !ok {
      WroteLess(before, tagged, tag, true, tag + head + data, true);
      return;
    }
    var size;
    if f.l.Fixed32? {
      FixedPackedLength(f.l, items, |items|);
      size := 4 * |items|;
    } else if f.l.Fixed64? {
      FixedPackedLength(f.l, items, |items|);
      size := 8 * |items|;
    } else {
      var none := new byte[0];
      var sizestream := new OStream(true, none, 0, 0);
      ghost var zero := sizestream.Now();
      ok := EncodePacked(sizestream, f.l, items);
      assert ok && sizestream.Now() == zero.(written := |data|) by { CountingAdvance(zero, data); }
      size := sizestream.bytesWritten;
    }
    assert size == |data| && stream.Now() == tagged;
    ok := stream.WriteVarint(size);
    ghost var headed := stream.Now();
    assert Wrote(tagged, headed, head, true, ok);
    WroteThen(before, tagged, headed, tag, head, true, ok);
    if !ok {
      WroteLess(before, headed, tag + head, true, tag + head + data, true);
      return;
    }
    if stream.sizing {
      stream.Count(size);
      CountingAdvance(headed, data);
    } else {
      ok := EncodePacked(stream, f.l, items);
    }
    WroteThen(before, headed, stream.Now(), tag + head, data, true, ok);
  }

  lemma CountingAdvance(s: Snap, bytes: seq<byte>)
    requires SnapOK(s) && s.sizing
    ensures Advance(s, bytes) == s.(written := s.written + |bytes|)
  {
  }

  // ----- tagged values, fields, messages -----

  method EncodeItem(stream: OStream, f: Field, v: Value) returns (ok: bool)
    requires stream.Valid() && f.tag <= MAX_TAG && ValueOK(f.l, v) && TypeTagsOK(f.l) && |EncItem(f, v)| < TWO64
    modifies stream`state, stream`bytesWritten, stream.buf
    ensures Wrote(old(stream.Now()), stream.Now(), EncItem(f, v), ValueEncodable(f.l, v), ok)
    decreases f, 0
  {
    hide ValueOK, EncValue, Advance, EncTag, ValueEncodable;
    ghost var before, tag, body := stream.Now(), EncTag(f.tag, WireType(f.l)), EncValue(f.l, v);
    ok := stream.WriteTag(WireType(f.l), f.tag);
    ghost var tagged := stream.Now();
    assert Wrote(before, tagged, tag, true, ok);
    if !ok {
      WroteLess(before, tagged, tag, true, tag + body, ValueEncodable(f.l, v));
      return;
    }
    ok := EncodeValue(stream, f.l, v);
    WroteThen(before, tagged, stream.Now(), tag, body, ValueEncodable(f.l, v), ok);
  }

  method EncodeValue(stream: OStream, l: LType, v: Value) returns (ok: bool)
    requires stream.Valid() && ValueOK(l, v) && TypeTagsOK(l) && |EncValue(l, v)| < TWO64
    modifies stream`state, stream`bytesWritten, stream.buf
    ensures Wrote(old(stream.Now()), stream.Now(), EncValue(l, v), ValueEncodable(l, v), ok)
    decreases l
  {
    if l.Submessage? {
      MessageOKLength(l.fields, v.slots);
      hide TagsOK, MessageOK, EncTo, FieldEncodable, Advance;
      ok := EncodeSubmessage(stream, l.fields, v.slots);
    } else {
      hide EncValue, ValueOK, ValueEncodable, Advance;
      ok := EncodeScalar(stream, l, v);
    }
  }

  /** encode_array. */
  method EncodeArray(stream: OStream, f: Field, items: seq<Value>) returns (ok: bool)
    requires stream.Valid() && TagOK(f) && IsRepeated(f.h) && (forall v :: v in items ==> ValueOK(f.l, v))
    requires |EncField(f, Rep(items))| < TWO64
    modifies stream`state, stream`bytesWritten, stream.buf
    ensures Wrote(old(stream.Now()), stream.Now(), EncField(f, Rep(items)), FieldEncodable(f, Rep(items)), ok)
    decreases f, 2
  {
    hide ValueOK, EncValue, Advance, EncTag, ValueEncodable, EncItems, EncPacked, Delimited, SnapOK, HasSpace;
    ghost var before := stream.Now();
    assert Payload(f, Rep(items)) == items;
    if |items| == 0 {
      EmptyItems(f);
      WroteNothing(before);
      return true;
    }
    if |items| > Limit(f.h) {
      WroteNothing(before);
      return false;
    }
    if Packable(f.l) {
      DelimitedLength(EncPacked(f.l, items, |items|));
      AllPackable(f, items);
      ok := EncodePackedArray(stream, f, items);
    } else {
      ok := EncodeItems(stream, f, items);
    }
  }

  lemma AllPackable(f: Field, items: seq<Value>)
    requires Packable(f.l)
    ensures forall v :: v in items ==> ValueEncodable(f.l, v)
  {
  }

  method EncodeItems(stream: OStream, f: Field, items: seq<Value>) returns (ok: bool)
    requires stream.Valid() && TagOK(f) && (forall v :: v in items ==> ValueOK(f.l, v))
    requires |EncItems(f, items, |items|)| < TWO64
    modifies stream`state, stream`bytesWritten, stream.buf
    ensures Wrote(old(stream.Now()), stream.Now(), EncItems(f, items, |items|),
                  forall v :: v in items ==> ValueEncodable(f.l, v), ok)
    decreases f, 1
  {
    hide ValueOK, EncItem, Advance, ValueEncodable, SnapOK, HasSpace;
    ghost var before, all := stream.Now(), forall v :: v in items ==> ValueEncodable(f.l, v);
    ok := true;
    WroteNothing(before);
    for i := 0 to |items|
      invariant ok && stream.Valid() && Wrote(before, stream.Now(), EncItems(f, items, i), true, true)
      invariant forall k :: 0 <= k < i ==> ValueEncodable(f.l, items[k])
    {
      ghost var mid := stream.Now();
      EncItemsGrows(f, items, i, |items|);
      EncItemsGrows(f, items, i + 1, |items|);
      ok := EncodeItem(stream, f, items[i]);
      WroteThen(before, mid, stream.Now(), EncItems(f, items, i), EncItem(f, items[i]),
                ValueEncodable(f.l, items[i]), ok);
      if !ok {
        WroteLess(before, stream.Now(), EncItems(f, items, i + 1), ValueEncodable(f.l, items[i]),
                  EncItems(f, items, |items|), all);
        return;
      }
    }
  }

  /** encode_basic_field. */
  method EncodeField(stream: OStream, f: Field, s: Slot) returns (ok: bool)
    requires stream.Valid() && TagOK(f) && SlotOK(f, s) && |EncField(f, s)| < TWO64
    modifies stream`state, stream`bytesWritten, stream.buf
    ensures Wrote(old(stream.Now()), stream.Now(), EncField(f, s), FieldEncodable(f, s), ok)
    decreases f, 3
  {
    hide ValueOK, EncValue, Advance, EncTag, ValueEncodable, EncItem, EncPacked, SnapOK, HasSpace, IsDefaultValue;
    PayloadTyped(f, s);
    match f.h {
      case Required =>
        OneItem(f, s.v);
        ok := EncodeItem(stream, f, s.v);
      case Optional =>
        ok := EncodeIf(stream, f, s, s.has, s.v);
      case Singular =>
        ok := EncodeIf(stream, f, s, !IsDefaultValue(f.l, s.v), s.v);
      case Repeated(_) =>
        assert s == Rep(s.items);
        ok := EncodeArray(stream, f, s.items);
      case FixedCount(_) =>
        assert s == Rep(s.items);
        ok := EncodeArray(stream, f, s.items);
      case OneOf(_) =>
        ok := EncodeIf(stream, f, s, s.chosen.Some?, if s.chosen.Some? then s.chosen.value else VBool(false));
    }
  }

  lemma OneItem(f: Field, v: Value)
    ensures EncItems(f, [v], 1) == EncItem(f, v)
  {
    assert EncItems(f, [v], 0) == [];
  }

  /** The value and its tag, if it is to be sent. */
  method EncodeIf(stream: OStream, f: Field, s: Slot, present: bool, v: Value) returns (ok: bool)
    requires stream.Valid() && TagOK(f) && !IsRepeated(f.h) && Payload(f, s) == (if present then [v] else [])
    requires (present ==> ValueOK(f.l, v)) && |EncField(f, s)| < TWO64
    modifies stream`state, stream`bytesWritten, stream.buf
    ensures Wrote(old(stream.Now()), stream.Now(), EncField(f, s), FieldEncodable(f, s), ok)
    decreases f, 1
  {
    hide ValueOK, EncValue, Advance, EncTag, ValueEncodable, EncItem, EncPacked, SnapOK, HasSpace, Payload;
    if present {
      OneItem(f, v);
      ok := EncodeItem(stream, f, v);
    } else {
      EmptyItems(f);
      WroteNothing(stream.Now());
      ok := true;
    }
  }

  /** pb_encode. */
  method Encode(stream: OStream, D: seq<Field>, m: seq<Slot>) returns (ok: bool)
    requires stream.Valid() && TagsOK(D) && MessageOK(D, m) && |EncTo(D, m, |D|)| < TWO64
    modifies stream`state, stream`bytesWritten, stream.buf
    ensures Wrote(old(stream.Now()), stream.Now(), Enc(D, m), Encodable(D, m), ok)
    decreases D, 0
  {
    hide Advance, EncField, SnapOK, HasSpace, TagOK, SlotOK, FieldEncodable;
    ghost var before := stream.Now();
    ok := true;
    WroteNothing(before);
    for i := 0 to |D|
      invariant ok && stream.Valid() && Wrote(before, stream.Now(), EncTo(D, m, i), true, true)
      invariant forall k :: 0 <= k < i ==> FieldEncodable(D[k], m[k])
    {
      ghost var mid := stream.Now();
      EncToGrows(D, m, i, |D|);
      EncToGrows(D, m, i + 1, |D|);
      ok := EncodeField(stream, D[i], m[i]);
      WroteThen(before, mid, stream.Now(), EncTo(D, m, i), EncField(D[i], m[i]), FieldEncodable(D[i], m[i]), ok);
      if !ok {
        WroteLess(before, stream.Now(), EncTo(D, m, i + 1), FieldEncodable(D[i], m[i]), EncTo(D, m, |D|),
                  Encodable(D, m));
        return;
      }
    }
  }

  /** pb_encode_submessage: a counting pass for the size, then the bytes through a stream that
      takes no more than that.  The two passes always agree. */
  method EncodeSubmessage(stream: OStream, D: seq<Field>, m: seq<Slot>) returns (ok: bool)
    requires stream.Valid() && TagsOK(D) && MessageOK(D, m) && |m| == |D| && |Delimited(EncTo(D, m, |D|))| < TWO64
    modifies stream`state, stream`bytesWritten, stream.buf
    ensures Wrote(old(stream.Now()), stream.Now(), Delimited(Enc(D, m)), Encodable(D, m), ok)
    decreases D, 1
  {
    hide Advance, EncTo, TagsOK, MessageOK, Encodable, EncodeVarint;
    ghost var before, data := stream.Now(), EncTo(D, m, |D|);
    ghost var head := EncodeVarint(|data|);
    DelimitedLength(data);
    var none := new byte[0];
    var substream := new OStream(true, none, 0, 0);
    ghost var zero := substream.Now();
    ok := Encode(substream, D, m);
    if !ok {
      return;
    }
    CountingAdvance(zero, data);
    var size := substream.bytesWritten;
    ok := stream.WriteVarint(size);
    ghost var headed := stream.Now();
    assert Wrote(before, headed, head, true, ok);
    if !ok {
      WroteLess(before, headed, head, true, head + data, true);
      return;
    }
    if stream.sizing {
      stream.Count(size);
      CountingAdvance(headed, data);
      WroteThen(before, headed, stream.Now(), head, data, true, true);
      return;
    }
    if stream.bytesWritten + size > stream.maxSize {
      assert Wrote(headed, headed, data, true, false);
      WroteThen(before, headed, headed, head, data, true, false);
      return false;
    }
    substream := new OStream(false, stream.buf, stream.state, size);
    ghost var start := substream.Now();
    ok := Encode(substream, D, m);
    stream.bytesWritten := stream.bytesWritten + substream.bytesWritten;
    stream.state := substream.state;
    BufferAdvance(start, data);
    BufferAdvance(headed, data);
    if substream.bytesWritten != size {
      assert false;
    }
    WroteThen(before, headed, stream.Now(), head, data, true, ok);
  }

  lemma BufferAdvance(s: Snap, bytes: seq<byte>)
    requires SnapOK(s) && !s.sizing && HasSpace(s, |bytes|)
    ensures Advance(s, bytes) == s.(contents := Splice(s.contents, s.state, bytes), state := s.state + |bytes|,
                                    written := s.written + |bytes|)
  {
  }

  /** pb_get_encoded_size. */
  method GetEncodedSize(D: seq<Field>, m: seq<Slot>) returns (ok: bool, size: nat)
    requires TagsOK(D) && MessageOK(D, m) && |EncTo(D, m, |D|)| < TWO64
    ensures ok == Encodable(D, m) && (ok ==> size == |Enc(D, m)|)
  {
    hide Advance, EncTo, TagsOK, MessageOK, Encodable;
    MessageOKLength(D, m);
    var none := new byte[0];
    var stream := new OStream(true, none, 0, 0);
    ghost var zero := stream.Now();
    ok := Encode(stream, D, m);
    size := stream.bytesWritten;
    if ok {
      CountingAdvance(zero, Enc(D, m));
    }
  }
}
