/** Decoding into a struct that already holds something: what becomes of each of its slots, and of
    the slots of the submessages in it. */
module Occupied {
  import opened Options
  import opened Bits
  import opened Descriptors
  import opened Encoding
  import opened Decoding
  import opened Scalars
  import opened Merging
  import opened ReadBack
  import opened Combining
  import opened WireForm

  // ----- one slot -----

  /** The submessage in a slot that is no array. */
  function Held(s: Slot): Option<seq<Slot>> {
    match s
    case Plain(v) => if v.VMsg? then Some(v.slots) else None
    case Opt(_, v) => if v.VMsg? then Some(v.slots) else None
    case Arm(chosen) => if chosen.Some? && chosen.value.VMsg? then Some(chosen.value.slots) else None
    case Rep(_) => None
  }

  predicate Knows(D': seq<Field>, tag: nat) {
    exists k :: 0 <= k < |D'| && D'[k].tag == tag
  }

  /** Field `i` of the message is sent, and goes to slot `j` of the reader. */
  predicate GoesTo(D: seq<Field>, m: seq<Slot>, i: nat, D': seq<Field>, j: nat)
    requires |m| == |D| && j < |D'|
  {
    i < |D| && EncField(D[i], m[i]) != [] && D[i].tag == D'[j].tag
  }

  /** Field `i` of the message is sent, known to the reader, and another arm of the union `j` is in. */
  predicate Displaces(D: seq<Field>, m: seq<Slot>, i: nat, D': seq<Field>, j: nat)
    requires |m| == |D| && j < |D'|
  {
    && i < |D| && EncField(D[i], m[i]) != [] && D[i].tag != D'[j].tag && Knows(D', D[i].tag)
    && D'[j].h.OneOf? && D[i].h == D'[j].h
  }

  /** A submessage is decoded into the one that is there, or else into a fresh one; any other value
      is taken as it is. */
  predicate ReadsAs(l': LType, place: Option<seq<Slot>>, l: LType, v: Value, x: Value) {
    if l'.Submessage? && l.Submessage? then
      && v.VMsg? && x.VMsg? && |v.slots| == |l.fields| && |x.slots| == |l'.fields|
      && Some(x.slots) ==
         if place.Some? && |place.value| == |l'.fields|
         then DecodeNoinit(l'.fields, place.value, Enc(l.fields, v.slots))
         else Decode(l'.fields, Enc(l.fields, v.slots))
    else x == v
  }

  /** Array items are read as messages of their own. */
  predicate ItemsRead(l': LType, l: LType, vs: seq<Value>, xs: seq<Value>) {
    |xs| == |vs| && forall k :: 0 <= k < |vs| ==> ReadsAs(l', None, l, vs[k], xs[k])
  }

  /** Slot `j` after a message has been decoded that sends field `i` to it. */
  predicate Received(f': Field, was: Slot, f: Field, s: Slot, now: Slot) {
    match (s, now)
    case (Plain(v), Plain(x)) => ReadsAs(f'.l, Held(was), f.l, v, x)
    case (Opt(_, v), Opt(has, x)) => has && ReadsAs(f'.l, Held(was), f.l, v, x)
    case (Arm(Some(v)), Arm(Some(x))) => ReadsAs(f'.l, Held(was), f.l, v, x)
    case (Rep(vs), Rep(xs)) =>
      var kept := if was.Rep? && f'.h.Repeated? then was.items else [];
      kept <= xs && ItemsRead(f'.l, f.l, vs, xs[|kept|..])
    case _ => false
  }

  lemma SentHasPayload(f: Field, s: Slot)
    ensures EncField(f, s) != [] <==> Payload(f, s) != []
  {
    hide Payload, EncItems, EncPacked;
    if Payload(f, s) != [] {
      FieldBegins(f, s);
    } else {
      NothingToSend(f, s);
    }
  }

  lemma FoundByTag(D: seq<Field>, tag: nat, i: nat)
    requires Distinct(D) && i < |D| && D[i].tag == tag
    ensures Find(D, tag) == Some(i)
  {
  }

  lemma KnownIsFound(D': seq<Field>, tag: nat)
    ensures Knows(D', tag) <==> Find(D', tag).Some?
  {
  }

  /** What is combined from a value is what a decode of its bytes gives. */
  lemma CombinedReadsAs(l': LType, base: Value, place: Option<seq<Slot>>, l: LType, v: Value)
    requires CompatibleType(l', l) && ValueOK(l, v) && ValueEncodable(l, v) && TypeTagsOK(l)
    requires ValueRoom(l', base, l, v)
    requires l.Submessage? && v.VMsg? && |v.slots| == |l.fields| ==> |Enc(l.fields, v.slots)| < TWO32
    requires l'.Submessage? ==>
      SubMessage(l'.fields, base) ==
      if place.Some? && |place.value| == |l'.fields| then place.value else DefaultMessage(l'.fields)
    ensures ReadsAs(l', place, l, v, CombineValue(l', base, l, v))
  {
    hide MergeMessage, Combine, HasRoom, MessageOK, Reads, TagsOK, DecodeNoinit, EncTo, FieldEncodable;
    if l.Submessage? {
      MessageOKLength(l.fields, v.slots);
      MessageReadsBack(l'.fields, SubMessage(l'.fields, base), l.fields, v.slots);
      MergedMessage(l'.fields, SubMessage(l'.fields, base), l.fields, v.slots);
    }
  }

  // ----- lengths -----

  lemma {:induction false} ItemWithin(f: Field, vs: seq<Value>, n: nat, k: nat)
    requires k < n <= |vs|
    ensures |EncItem(f, vs[k])| <= |EncItems(f, vs, n)|
    decreases n
  {
    hide EncItem;
    if k < n - 1 {
      ItemWithin(f, vs, n - 1, k);
    }
  }

  lemma InnerIsShorter(f: Field, s: Slot, k: nat)
    requires f.l.Submessage? && k < |Payload(f, s)|
    requires Payload(f, s)[k].VMsg? && |Payload(f, s)[k].slots| == |f.l.fields|
    ensures |Enc(f.l.fields, Payload(f, s)[k].slots)| <= |EncField(f, s)|
  {
    hide EncTo, EncItems, Delimited;
    var vs := Payload(f, s);
    ItemWithin(f, vs, |vs|, k);
    hide Payload;
    DelimitedLength(Enc(f.l.fields, vs[k].slots));
  }

  // ----- every slot -----

  lemma PlaceOf(f': Field, b: Slot)
    requires f'.l.Submessage?
    ensures SubMessage(f'.l.fields, DefaultValue(f')) == DefaultMessage(f'.l.fields)
    ensures !IsRepeated(f'.h) ==>
      SubMessage(f'.l.fields, Base(f', b)) ==
      if Held(b).Some? && |Held(b).value| == |f'.l.fields| then Held(b).value else DefaultMessage(f'.l.fields)
  {
  }

  lemma InnersAreShort(f: Field, s: Slot)
    requires |EncField(f, s)| < TWO32
    ensures forall v :: v in Payload(f, s) && f.l.Submessage? && v.VMsg? && |v.slots| == |f.l.fields| ==>
              |Enc(f.l.fields, v.slots)| < TWO32
  {
    hide Enc, EncField, Payload;
    var vs := Payload(f, s);
    forall k | 0 <= k < |vs| && f.l.Submessage? && vs[k].VMsg? && |vs[k].slots| == |f.l.fields|
      ensures |Enc(f.l.fields, vs[k].slots)| < TWO32
    {
      InnerIsShorter(f, s, k);
    }
  }

  lemma {:induction false} ItemsAreReceived(f': Field, f: Field, vs: seq<Value>)
    requires CompatibleType(f'.l, f.l) && TypeTagsOK(f.l)
    requires forall v :: v in vs ==>
               && ValueOK(f.l, v) && ValueEncodable(f.l, v) && ValueRoom(f'.l, DefaultValue(f'), f.l, v)
               && (f.l.Submessage? && v.VMsg? && |v.slots| == |f.l.fields| ==> |Enc(f.l.fields, v.slots)| < TWO32)
    ensures ItemsRead(f'.l, f.l, vs, CombineItems(f', f, vs))
  {
    if f'.l.Submessage? {
      PlaceOf(f', Rep([]));
    }
    hide ValueRoom, ValueOK, ValueEncodable, CompatibleType, CombineValue, ReadsAs, SubMessage, DefaultValue, Enc;
    forall k | 0 <= k < |vs| ensures ReadsAs(f'.l, None, f.l, vs[k], CombineItems(f', f, vs)[k]) {
      assert vs[k] in vs;
      CombinedReadsAs(f'.l, DefaultValue(f'), None, f.l, vs[k]);
    }
  }

  lemma ArraySlot(f': Field, b: Slot, f: Field, s: Slot)
    requires f'.h == f.h && SlotOK(f, s) && Payload(f, s) != [] && IsRepeated(f.h)
    requires ItemsRead(f'.l, f.l, Payload(f, s), CombineItems(f', f, Payload(f, s)))
    ensures Received(f', b, f, s, CombineSlot(f', b, f, s))
  {
    hide CombineValue, CombineItems, Base, Held, ItemsRead, ValueOK, DefaultValue;
    var kept := if b.Rep? && f'.h.Repeated? then b.items else [];
    var xs := CombineItems(f', f, Payload(f, s));
    assert (kept + xs)[|kept|..] == xs;
    assert [] + xs == xs;
  }

  lemma {:induction false} ArrayIsReceived(f': Field, b: Slot, f: Field, s: Slot)
    requires CompatibleField(f', f) && SlotOK(f, s) && FieldEncodable(f, s) && TagOK(f) && SlotRoom(f', b, f, s)
    requires Payload(f, s) != [] && |EncField(f, s)| < TWO32 && IsRepeated(f.h)
    ensures Received(f', b, f, s, CombineSlot(f', b, f, s))
  {
    hide ValueRoom, ValueOK, ValueEncodable, CompatibleType, EncField, DefaultValue, Enc, ItemsRead, CombineItems,
         CombineSlot, Received;
    PayloadOK(f, s);
    InnersAreShort(f, s);
    hide Payload, FieldEncodable, SlotOK;
    ItemsAreReceived(f', f, Payload(f, s));
    ArraySlot(f', b, f, s);
  }

  lemma {:induction false} SingleIsReceived(f': Field, b: Slot, f: Field, s: Slot)
    requires CompatibleField(f', f) && SlotOK(f, s) && FieldEncodable(f, s) && TagOK(f) && SlotRoom(f', b, f, s)
    requires Payload(f, s) != [] && |EncField(f, s)| < TWO32 && !IsRepeated(f.h)
    ensures Received(f', b, f, s, CombineSlot(f', b, f, s))
  {
    var v := Payload(f, s)[0];
    assert v in Payload(f, s);
    PayloadOK(f, s);
    InnersAreShort(f, s);
    if f'.l.Submessage? {
      PlaceOf(f', b);
    }
    hide ValueRoom, ValueOK, ValueEncodable, CompatibleType, EncField, ReadsAs, SubMessage, DefaultValue, Enc, Held,
         FieldEncodable, Base;
    CombinedReadsAs(f'.l, Base(f', b), Held(b), f.l, v);
    hide SlotRoom, TagOK, CombineValue, CombineItems;
    SingleSlot(f', b, f, s);
  }

  lemma SingleSlot(f': Field, b: Slot, f: Field, s: Slot)
    requires f'.h == f.h && SlotOK(f, s) && Payload(f, s) != [] && !IsRepeated(f.h)
    ensures var v := Payload(f, s)[0];
      var x := CombineValue(f'.l, Base(f', b), f.l, v);
      ReadsAs(f'.l, Held(b), f.l, v, x) ==> Received(f', b, f, s, CombineSlot(f', b, f, s))
  {
    hide CombineValue, CombineItems, Base, Held, ReadsAs, ValueOK, IsDefaultValue;
  }

  /** Every slot of a struct a message was decoded into: what was sent to it is received in its
      place; another arm of its union clears it; otherwise it is as it was. */
  lemma {:induction false} DecodedSlot(D': seq<Field>, base: seq<Slot>, D: seq<Field>, m: seq<Slot>, j: nat)
    requires |base| == |D'| && MessageOK(D, m) && Encodable(D, m) && TagsOK(D) && Reads(D', D) && j < |D'|
    requires |m| == |D| && |Enc(D, m)| < TWO32 && DecodeNoinit(D', base, Enc(D, m)).Some?
    ensures var now := DecodeNoinit(D', base, Enc(D, m)).value[j];
      && (forall i: nat :: GoesTo(D, m, i, D', j) ==> Received(D'[j], base[j], D[i], m[i], now))
      && (forall i: nat :: Displaces(D, m, i, D', j) ==> now == Arm(None))
      && ((forall i: nat :: !GoesTo(D, m, i, D', j) && !Displaces(D, m, i, D', j)) ==> now == base[j])
  {
    MessageReadsBack(D', base, D, m);
    MergedMessage(D', base, D, m);
    assert DecodeNoinit(D', base, Enc(D, m)) == Some(Combine(D', base, D, m));
    assert HasRoom(D', base, D, m);
    CombinedSlot(D', base, D, m, j);
  }

  /** Which fields are sent, in the terms of the encoder and of the merger. */
  lemma SentFields(D': seq<Field>, D: seq<Field>, m: seq<Slot>)
    requires MessageOK(D, m) && |m| == |D|
    ensures forall i :: 0 <= i < |D| ==> (EncField(D[i], m[i]) != [] <==> Payload(D[i], m[i]) != [])
    ensures forall i :: 0 <= i < |D| && D[i].h.OneOf? ==> (EncField(D[i], m[i]) != [] <==> Chosen(D[i], m[i]))
    ensures forall i :: 0 <= i < |D| ==> (Knows(D', D[i].tag) <==> Find(D', D[i].tag).Some?)
  {
    hide EncField, Payload, Chosen, SlotOK, Knows, Find;
    forall i | 0 <= i < |D|
      ensures EncField(D[i], m[i]) != [] <==> Payload(D[i], m[i]) != []
      ensures D[i].h.OneOf? ==> (Payload(D[i], m[i]) != [] <==> Chosen(D[i], m[i]))
      ensures Knows(D', D[i].tag) <==> Find(D', D[i].tag).Some?
    {
      SentHasPayload(D[i], m[i]);
      assert SlotOK(D[i], m[i]);
      PayloadTyped(D[i], m[i]);
      KnownIsFound(D', D[i].tag);
    }
  }

  lemma NotDisplaced(D': seq<Field>, D: seq<Field>, m: seq<Slot>, j: nat)
    requires MessageOK(D, m) && |m| == |D| && j < |D'| && forall i: nat :: !Displaces(D, m, i, D', j)
    ensures !Displaced(D', D, m, |D|, D'[j])
  {
    SentFields(D', D, m);
    hide EncField, Payload, Knows, Find, MessageOK;
    forall i: nat | i < |D| && D'[j].h.OneOf? && D[i].h == D'[j].h && D[i].tag != D'[j].tag
                    && Find(D', D[i].tag).Some?
      ensures !Chosen(D[i], m[i])
    {
      assert !Displaces(D, m, i, D', j);
    }
  }

  lemma StaysPut(D': seq<Field>, base: seq<Slot>, D: seq<Field>, m: seq<Slot>, j: nat)
    requires |base| == |D'| && MessageOK(D, m) && |m| == |D| && j < |D'|
    requires forall i: nat :: !GoesTo(D, m, i, D', j) && !Displaces(D, m, i, D', j)
    ensures CombinedAt(D', base, D, m, |D|, j) == base[j]
  {
    NotDisplaced(D', D, m, j);
    hide EncField, Payload, CombineSlot, MessageOK, Displaced, Displaces;
    if Find(D, D'[j].tag).Some? {
      var i := Find(D, D'[j].tag).value;
      assert !GoesTo(D, m, i, D', j);
      SentHasPayload(D[i], m[i]);
      EmptyHasRoom(D'[j], base[j], D[i], m[i]);
    }
  }

  lemma {:induction false} CombinedSlot(D': seq<Field>, base: seq<Slot>, D: seq<Field>, m: seq<Slot>, j: nat)
    requires |base| == |D'| && MessageOK(D, m) && Encodable(D, m) && TagsOK(D) && Reads(D', D) && j < |D'|
    requires |m| == |D| && |Enc(D, m)| < TWO32 && HasRoom(D', base, D, m)
    ensures var now := CombinedAt(D', base, D, m, |D|, j);
      && (forall i: nat :: GoesTo(D, m, i, D', j) ==> Received(D'[j], base[j], D[i], m[i], now))
      && (forall i: nat :: Displaces(D, m, i, D', j) ==> now == Arm(None))
      && ((forall i: nat :: !GoesTo(D, m, i, D', j) && !Displaces(D, m, i, D', j)) ==> now == base[j])
  {
    hide EncField, Payload, CombineSlot, Received, FieldEncodable, ValueOK, SlotRoom, Knows;
    SentFields(D', D, m);
    if forall i: nat :: !GoesTo(D, m, i, D', j) && !Displaces(D, m, i, D', j) {
      StaysPut(D', base, D, m, j);
    }
    forall i: nat | GoesTo(D, m, i, D', j)
      ensures Received(D'[j], base[j], D[i], m[i], CombinedAt(D', base, D, m, |D|, j))
    {
      FoundByTag(D, D[i].tag, i);
      FoundByTag(D', D[i].tag, j);
      EncToGrows(D, m, i, |D|);
      assert SlotOK(D[i], m[i]);
      if IsRepeated(D[i].h) {
        ArrayIsReceived(D'[j], base[j], D[i], m[i]);
      } else {
        SingleIsReceived(D'[j], base[j], D[i], m[i]);
      }
    }
  }

  // ----- every depth -----

  /** The slot a path of field indices leads to, through submessages that are not in arrays. */
  function At(m: seq<Slot>, path: seq<nat>): Option<Slot>
    decreases |path|
  {
    if path == [] || path[0] >= |m| then None
    else if |path| == 1 then Some(m[path[0]])
    else if Held(m[path[0]]).Some? then At(Held(m[path[0]]).value, path[1..])
    else None
  }

  /** Nothing is sent to slot `j`, nor to another arm of its union. */
  ghost predicate Untouched(D: seq<Field>, m: seq<Slot>, D': seq<Field>, j: nat)
    requires |m| == |D| && j < |D'|
  {
    forall i: nat :: !GoesTo(D, m, i, D', j) && !Displaces(D, m, i, D', j)
  }

  /** Field `i` sends a submessage to slot `j`, which already holds one. */
  predicate Meets(D: seq<Field>, m: seq<Slot>, i: nat, D': seq<Field>, base: seq<Slot>, j: nat)
    requires |m| == |D| && |base| == |D'| && j < |D'|
  {
    && GoesTo(D, m, i, D', j) && D[i].l.Submessage? && D'[j].l.Submessage?
    && Held(m[i]).Some? && |Held(m[i]).value| == |D[i].l.fields|
    && Held(base[j]).Some? && |Held(base[j]).value| == |D'[j].l.fields|
  }

  /** The message sends nothing to the slot the path leads to, although it may send other parts of
      the submessages on the way. */
  ghost predicate Spared(D': seq<Field>, base: seq<Slot>, D: seq<Field>, m: seq<Slot>, path: seq<nat>)
    requires |base| == |D'| && |m| == |D|
    decreases |path|
  {
    && path != [] && path[0] < |D'|
    && var j := path[0];
       Untouched(D, m, D', j) ||
       (|path| > 1 && exists i: nat ::
          && Meets(D, m, i, D', base, j)
          && Spared(D'[j].l.fields, Held(base[j]).value, D[i].l.fields, Held(m[i]).value, path[1..]))
  }

  lemma InnerFacts(f': Field, f: Field, s: Slot)
    requires CompatibleField(f', f) && SlotOK(f, s) && FieldEncodable(f, s) && TagOK(f) && f.l.Submessage?
    requires f'.l.Submessage? && EncField(f, s) != [] && |EncField(f, s)| < TWO32
    requires Held(s).Some? && |Held(s).value| == |f.l.fields|
    ensures var D1', D1, m1 := f'.l.fields, f.l.fields, Held(s).value;
      MessageOK(D1, m1) && Encodable(D1, m1) && TagsOK(D1) && Reads(D1', D1) && |Enc(D1, m1)| < TWO32
  {
    SentHasPayload(f, s);
    InnersAreShort(f, s);
    PayloadOK(f, s);
    hide Enc, EncField, IsDefaultValue, FieldEncodable, MessageOK, TagsOK, Reads;
    assert Payload(f, s) == [VMsg(Held(s).value)];
    assert VMsg(Held(s).value) in Payload(f, s);
    hide SlotOK;
    assert ValueEncodable(f.l, VMsg(Held(s).value)) && ValueOK(f.l, VMsg(Held(s).value));
  }

  lemma FieldFacts(D': seq<Field>, base: seq<Slot>, D: seq<Field>, m: seq<Slot>, i: nat, j: nat)
    requires |base| == |D'| && MessageOK(D, m) && Encodable(D, m) && TagsOK(D) && Reads(D', D) && j < |D'|
    requires |m| == |D| && |Enc(D, m)| < TWO32 && Meets(D, m, i, D', base, j)
    ensures var D1', D1, m1 := D'[j].l.fields, D[i].l.fields, Held(m[i]).value;
      MessageOK(D1, m1) && Encodable(D1, m1) && TagsOK(D1) && Reads(D1', D1) && |Enc(D1, m1)| < TWO32
  {
    hide EncField, CompatibleField, SlotOK, TagOK, FieldEncodable;
    FoundByTag(D', D[i].tag, j);
    assert SlotOK(D[i], m[i]) && TagOK(D[i]) && FieldEncodable(D[i], m[i]) && CompatibleField(D'[j], D[i]);
    EncToGrows(D, m, i, |D|);
    hide MessageOK, Encodable, TagsOK, Reads, Enc, Held;
    InnerFacts(D'[j], D[i], m[i]);
  }

  /** What a submessage that meets another becomes. */
  lemma ReceivedHeld(f': Field, was: Slot, f: Field, s: Slot, now: Slot)
    requires Received(f', was, f, s, now) && f.l.Submessage? && f'.l.Submessage?
    requires Held(s).Some? && |Held(s).value| == |f.l.fields|
    requires Held(was).Some? && |Held(was).value| == |f'.l.fields|
    ensures Held(now).Some? && Held(now) == DecodeNoinit(f'.l.fields, Held(was).value, Enc(f.l.fields, Held(s).value))
  {
    hide DecodeNoinit, Enc, ItemsRead;
  }

  /** Decoding into an occupied struct leaves alone whatever the message does not send, at every
      depth: through required, singular and optional submessages and through the arm of a union
      that is already chosen. */
  lemma {:induction false} UnsentSlotsStay(D': seq<Field>, base: seq<Slot>, D: seq<Field>, m: seq<Slot>,
                                           path: seq<nat>)
    requires |base| == |D'| && MessageOK(D, m) && Encodable(D, m) && TagsOK(D) && Reads(D', D)
    requires |m| == |D| && |Enc(D, m)| < TWO32 && DecodeNoinit(D', base, Enc(D, m)).Some?
    requires Spared(D', base, D, m, path)
    ensures At(DecodeNoinit(D', base, Enc(D, m)).value, path) == At(base, path)
    decreases |path|
  {
    var j, r := path[0], DecodeNoinit(D', base, Enc(D, m)).value;
    DecodedSlot(D', base, D, m, j);
    hide DecodeNoinit, Enc, MessageOK, Encodable, TagsOK, Reads, GoesTo, Displaces, Received, Held;
    if !Untouched(D, m, D', j) {
      var i: nat :| Meets(D, m, i, D', base, j) &&
        Spared(D'[j].l.fields, Held(base[j]).value, D[i].l.fields, Held(m[i]).value, path[1..]);
      FieldFacts(D', base, D, m, i, j);
      ReceivedHeld(D'[j], base[j], D[i], m[i], r[j]);
      UnsentSlotsStay(D'[j].l.fields, Held(base[j]).value, D[i].l.fields, Held(m[i]).value, path[1..]);
    }
  }
}
