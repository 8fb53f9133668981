/** Decoding an encoded message is merging it: exactly, and whatever bytes follow. */
module ReadBack {
  import opened Options
  import opened Bits
  import opened Varint
  import opened Descriptors
  import opened Encoding
  import opened Decoding
  import opened Scalars
  import opened Merging

  // ----- what merging keeps -----

  /** Field `j` has been entered: entering it again changes nothing. */
  predicate Entered(D': seq<Field>, st: State, j: nat)
    requires |st.msg| == |D'| && j < |D'|
  {
    && (D'[j].h.FixedCount? ==> st.track == Some(j))
    && (D'[j].h.Required? && RequiredIndex(D', j) < MAX_REQUIRED ==> RequiredIndex(D', j) in st.seen)
  }

  lemma EnterOnce(D': seq<Field>, st: State, j: nat)
    requires |st.msg| == |D'| && j < |D'|
    ensures Entered(D', Enter(D', st, j), j)
    ensures Entered(D', st, j) ==> Enter(D', st, j) == st
    ensures st.seen <= Enter(D', st, j).seen
  {
    hide RequiredIndex;
    var k := RequiredIndex(D', j);
    assert k in st.seen ==> st.seen + {k} == st.seen;
  }

  lemma {:induction false} MergeItemsKeep(D': seq<Field>, st: State, j: nat, l: LType, vs: seq<Value>, n: nat)
    requires |st.msg| == |D'| && j < |D'| && n <= |vs|
    ensures var r := MergeItems(D', st, j, l, vs, n); r.Some? ==>
      && r.value.track == st.track && r.value.seen == st.seen
      && (IsRepeated(D'[j].h) ==> |Items(r.value.msg[j])| == |Items(st.msg[j])| + n)
      && (forall i :: 0 <= i < |D'| && i != j && !D'[i].h.OneOf? ==> r.value.msg[i] == st.msg[i])
    decreases n
  {
    hide MergeValue;
    if n > 0 {
      MergeItemsKeep(D', st, j, l, vs, n - 1);
    }
  }

  // ----- fields the reader does not know -----

  lemma UnknownItem(D': seq<Field>, st: State, f: Field, v: Value, rest: seq<byte>)
    requires |st.msg| == |D'| && Find(D', f.tag).None? && 0 < f.tag <= MAX_TAG
    requires ValueOK(f.l, v) && |EncItem(f, v)| < TWO32
    ensures DecodeLoop(D', st, EncItem(f, v) + rest) == DecodeLoop(D', st, rest)
  {
    hide EncValue, DecodeTag, SkipField, EncTag;
    var wt, body := WireType(f.l), EncValue(f.l, v);
    assert EncItem(f, v) + rest == EncTag(f.tag, wt) + (body + rest);
    TagReadsBack(f.tag, wt, body + rest);
    ValueIsSkipped(f.l, v, rest);
  }

  lemma {:induction false} UnknownItems(D': seq<Field>, st: State, f: Field, vs: seq<Value>, n: nat, rest: seq<byte>)
    requires |st.msg| == |D'| && Find(D', f.tag).None? && 0 < f.tag <= MAX_TAG
    requires n <= |vs| && (forall v :: v in vs ==> ValueOK(f.l, v)) && |EncItems(f, vs, n)| < TWO32
    ensures DecodeLoop(D', st, EncItems(f, vs, n) + rest) == DecodeLoop(D', st, rest)
    decreases n
  {
    hide EncItem, DecodeLoop;
    if n == 0 {
      assert EncItems(f, vs, 0) + rest == rest;
    } else {
      var item := EncItem(f, vs[n - 1]);
      assert EncItems(f, vs, n) + rest == EncItems(f, vs, n - 1) + (item + rest);
      UnknownItems(D', st, f, vs, n - 1, item + rest);
      UnknownItem(D', st, f, vs[n - 1], rest);
    }
  }

  lemma UnknownPacked(D': seq<Field>, st: State, tag: nat, sub: seq<byte>, rest: seq<byte>)
    requires |st.msg| == |D'| && Find(D', tag).None? && 0 < tag <= MAX_TAG && |sub| < TWO32
    ensures DecodeLoop(D', st, EncTag(tag, WT_STRING) + Delimited(sub) + rest) == DecodeLoop(D', st, rest)
  {
    hide DecodeTag, EncTag, Delimited, TakeString;
    assert EncTag(tag, WT_STRING) + Delimited(sub) + rest == EncTag(tag, WT_STRING) + (Delimited(sub) + rest);
    TagReadsBack(tag, WT_STRING, Delimited(sub) + rest);
    DelimitedReadsBack(sub, rest);
  }

  // ----- packed arrays -----

  lemma {:induction false} EncPackedGrows(l: LType, vs: seq<Value>, i: nat, n: nat)
    requires i <= n <= |vs|
    ensures |EncPacked(l, vs, i)| <= |EncPacked(l, vs, n)|
    ensures i < n ==> |EncValue(l, vs[i])| <= |EncPacked(l, vs, n)|
    decreases n - i
  {
    hide EncValue;
    if i < n {
      EncPackedGrows(l, vs, i, n - 1);
    }
  }

  /** Reading the values one by one, as long as there is room. */
  lemma {:induction false} PackedPrefix(l: LType, items: seq<Value>, limit: nat, vs: seq<Value>, n: nat,
                                        rest: seq<byte>)
    requires Packable(l) && n <= |vs| && (forall v :: v in vs ==> ValueOK(l, v)) && |EncPacked(l, vs, n)| < TWO32
    requires |items| + n <= limit
    ensures DecPacked(l, items, limit, EncPacked(l, vs, n) + rest) == DecPacked(l, items + vs[..n], limit, rest)
    decreases n
  {
    hide EncValue, DecScalar;
    if n == 0 {
      assert EncPacked(l, vs, 0) + rest == rest && items + vs[..0] == items;
    } else {
      var v := vs[n - 1];
      var body := EncValue(l, v);
      assert EncPacked(l, vs, n) + rest == EncPacked(l, vs, n - 1) + (body + rest);
      EncPackedGrows(l, vs, n - 1, n);
      PackedPrefix(l, items, limit, vs, n - 1, body + rest);
      PackableFits(l, v);
      ScalarReadsBack(l, v, rest);
      ValueIsNotEmpty(l, v);
      assert items + vs[..n - 1] + [v] == items + vs[..n];
    }
  }

  lemma ValueIsNotEmpty(l: LType, v: Value)
    requires ValueOK(l, v)
    ensures EncValue(l, v) != []
  {
    hide EncodeVarint;
  }

  /** With too many values for the room there is, bytes are left over. */
  lemma PackedOverflow(l: LType, items: seq<Value>, limit: nat, vs: seq<Value>)
    requires Packable(l) && (forall v :: v in vs ==> ValueOK(l, v)) && |EncPacked(l, vs, |vs|)| < TWO32
    requires |items| <= limit < |items| + |vs|
    ensures var r := DecPacked(l, items, limit, EncPacked(l, vs, |vs|)); r.Good? && r.rest != []
  {
    hide EncValue;
    var n := limit - |items|;
    var tail := PackedTail(l, vs, n, |vs|);
    EncPackedGrows(l, vs, n, |vs|);
    PackedPrefix(l, items, limit, vs, n, tail);
  }

  lemma {:induction false} PackedTail(l: LType, vs: seq<Value>, n: nat, k: nat) returns (tail: seq<byte>)
    requires n <= k <= |vs| && forall v :: v in vs ==> ValueOK(l, v)
    ensures EncPacked(l, vs, k) == EncPacked(l, vs, n) + tail && (n < k ==> tail != [])
    decreases k - n
  {
    hide EncValue, ValueOK;
    if n == k {
      tail := [];
    } else {
      var t := PackedTail(l, vs, n, k - 1);
      var body := EncValue(l, vs[k - 1]);
      ValueIsNotEmpty(l, vs[k - 1]);
      tail := t + body;
      assert EncPacked(l, vs, n) + t + body == EncPacked(l, vs, n) + (t + body);
    }
  }

  lemma MergePackable(D': seq<Field>, st: State, j: nat, l: LType, v: Value)
    requires |st.msg| == |D'| && j < |D'| && IsRepeated(D'[j].h) && Packable(l)
    ensures MergeItem(D', st, j, l, v) ==
            if |Items(st.msg[j])| < Limit(D'[j].h)
            then Some(st.(msg := st.msg[j := Rep(Items(st.msg[j]) + [v])])) else None
  {
    PackableFits(l, v);
  }

  /** Merging packable values appends them, if they all fit. */
  lemma {:induction false} MergePackables(D': seq<Field>, st: State, j: nat, l: LType, vs: seq<Value>, n: nat)
    requires |st.msg| == |D'| && j < |D'| && IsRepeated(D'[j].h) && Packable(l) && n <= |vs| && n > 0
    ensures MergeItems(D', st, j, l, vs, n) ==
            if |Items(st.msg[j])| + n <= Limit(D'[j].h)
            then Some(st.(msg := st.msg[j := Rep(Items(st.msg[j]) + vs[..n])])) else None
    decreases n
  {
    hide MergeItem;
    if n == 1 {
      assert vs[..1] == [vs[0]];
      assert MergeItems(D', st, j, l, vs, 0) == Some(st);
      MergePackable(D', st, j, l, vs[0]);
    } else {
      MergePackables(D', st, j, l, vs, n - 1);
      assert vs[..n] == vs[..n - 1] + [vs[n - 1]];
      assert Items(st.msg[j]) + vs[..n] == Items(st.msg[j]) + vs[..n - 1] + [vs[n - 1]];
      if |Items(st.msg[j])| + n - 1 <= Limit(D'[j].h) {
        MergePackable(D', MergeItems(D', st, j, l, vs, n - 1).value, j, l, vs[n - 1]);
        var all := Rep(Items(st.msg[j]) + vs[..n]);
        assert st.msg[j := Rep(Items(st.msg[j]) + vs[..n - 1])][j := all] == st.msg[j := all];
      }
    }
  }

  lemma PackedBody(D': seq<Field>, st: State, j: nat, vs: seq<Value>, rest: seq<byte>)
    requires |st.msg| == |D'| && j < |D'| && Packs(D'[j]) && vs != []
    requires (forall v :: v in vs ==> ValueOK(D'[j].l, v)) && |EncPacked(D'[j].l, vs, |vs|)| < TWO32
    ensures DecPackedField(D', st, j, Delimited(EncPacked(D'[j].l, vs, |vs|)) + rest) ==
            match MergeItems(D', st, j, D'[j].l, vs, |vs|) case None => Bad case Some(s) => Good(s, rest)
  {
    hide Delimited, TakeString, DecPacked, MergeItems, EncPacked;
    var l, items, limit := D'[j].l, Items(st.msg[j]), Limit(D'[j].h);
    var sub := EncPacked(l, vs, |vs|);
    DelimitedReadsBack(sub, rest);
    MergePackables(D', st, j, l, vs, |vs|);
    assert vs[..|vs|] == vs;
    if |items| + |vs| <= limit {
      assert sub + [] == sub;
      PackedPrefix(l, items, limit, vs, |vs|, []);
      NothingLeft(l, items + vs, limit);
    } else if |items| <= limit {
      PackedOverflow(l, items, limit, vs);
    } else {
      NoRoom(l, items, limit, sub);
      var tail := PackedTail(l, vs, 0, |vs|);
      assert EncPacked(l, vs, 0) == [] by { EmptyPacked(l, vs); }
    }
  }

  lemma EmptyPacked(l: LType, vs: seq<Value>)
    ensures EncPacked(l, vs, 0) == []
  {
  }

  lemma NothingLeft(l: LType, items: seq<Value>, limit: nat)
    ensures DecPacked(l, items, limit, []) == Good(items, [])
  {
  }

  lemma NoRoom(l: LType, items: seq<Value>, limit: nat, bytes: seq<byte>)
    requires |items| >= limit
    ensures DecPacked(l, items, limit, bytes) == Good(items, bytes)
  {
  }

  lemma KnownPacked(D': seq<Field>, st: State, f: Field, j: nat, vs: seq<Value>, rest: seq<byte>)
    requires |st.msg| == |D'| && Find(D', f.tag) == Some(j) && CompatibleField(D'[j], f) && Packs(f) && vs != []
    requires 0 < f.tag <= MAX_TAG && (forall v :: v in vs ==> ValueOK(f.l, v))
    requires |EncPacked(f.l, vs, |vs|)| < TWO32 && CanEnter(D', st, j)
    ensures DecodeLoop(D', st, EncTag(f.tag, WT_STRING) + Delimited(EncPacked(f.l, vs, |vs|)) + rest) ==
            match MergeItems(D', Enter(D', st, j), j, f.l, vs, |vs|)
            case None => Failed
            case Some(s) => DecodeLoop(D', s, rest)
  {
    hide DecodeTag, EncTag, Delimited, DecPackedField, MergeItems, EncPacked, Enter, CanEnter;
    var body := Delimited(EncPacked(f.l, vs, |vs|));
    assert EncTag(f.tag, WT_STRING) + body + rest == EncTag(f.tag, WT_STRING) + (body + rest);
    TagReadsBack(f.tag, WT_STRING, body + rest);
    PackedBody(D', Enter(D', st, j), j, vs, rest);
  }

  // ----- values one by one -----

  lemma {:induction false} ValueReadsBack(l': LType, base: Value, l: LType, v: Value, rest: seq<byte>)
    requires CompatibleType(l', l) && ValueOK(l, v) && ValueEncodable(l, v) && TypeTagsOK(l)
    requires |EncValue(l, v)| < TWO32
    ensures DecValue(l', base, EncValue(l, v) + rest) ==
            match MergeValue(l', base, l, v) case None => Bad case Some(x) => Good(x, rest)
    decreases l, 0
  {
    hide TakeString, DecScalar, DecodeNoinit, MergeMessage, EncTo;
    if l.Submessage? {
      var sub := EncTo(l.fields, v.slots, |l.fields|);
      hide Delimited;
      DelimitedReadsBack(sub, rest);
      assert |sub| < TWO32 by { DelimitedLength(sub); }
      MessageReadsBack(l'.fields, SubMessage(l'.fields, base), l.fields, v.slots);
    } else {
      hide EncValue;
      ScalarReadsBack(l, v, rest);
    }
  }

  lemma DelimitedLength(s: seq<byte>)
    ensures |s| < |Delimited(s)|
  {
  }

  ghost predicate TypeTagsOK(l: LType) {
    l.Submessage? ==> TagsOK(l.fields)
  }

  lemma {:induction false} ItemReadsBack(D': seq<Field>, st: State, f: Field, j: nat, v: Value, rest: seq<byte>)
    requires |st.msg| == |D'| && Find(D', f.tag) == Some(j) && CompatibleField(D'[j], f)
    requires TagOK(f) && ValueOK(f.l, v) && ValueEncodable(f.l, v) && |EncItem(f, v)| < TWO32 && CanEnter(D', st, j)
    ensures DecodeLoop(D', st, EncItem(f, v) + rest) ==
            match MergeItem(D', Enter(D', st, j), j, f.l, v)
            case None => Failed
            case Some(s) => DecodeLoop(D', s, rest)
    decreases f, 0
  {
    hide EncValue, DecodeTag, EncTag, DecValue, MergeValue, Enter, CanEnter, Assign, Base, Room;
    var wt, body := WireType(f.l), EncValue(f.l, v);
    assert EncItem(f, v) + rest == EncTag(f.tag, wt) + (body + rest);
    TagReadsBack(f.tag, wt, body + rest);
    var s := Enter(D', st, j);
    ValueReadsBack(D'[j].l, Base(D'[j], s.msg[j]), f.l, v, rest);
    SamePacking(D'[j], f);
    assert Step(D', st, f.tag, wt, body + rest) == DecItem(D', s, j, body + rest);
  }

  lemma SamePacking(f': Field, f: Field)
    requires CompatibleField(f', f)
    ensures Packs(f') == Packs(f)
  {
  }

  lemma {:induction false} ItemsReadBack(D': seq<Field>, st: State, f: Field, j: nat, vs: seq<Value>, n: nat,
                                         rest: seq<byte>)
    requires |st.msg| == |D'| && Find(D', f.tag) == Some(j) && CompatibleField(D'[j], f)
    requires TagOK(f) && 0 < n <= |vs| && (forall v :: v in vs ==> ValueOK(f.l, v) && ValueEncodable(f.l, v))
    requires |EncItems(f, vs, n)| < TWO32 && CanEnter(D', st, j)
    ensures DecodeLoop(D', st, EncItems(f, vs, n) + rest) ==
            match MergeItems(D', Enter(D', st, j), j, f.l, vs, n)
            case None => Failed
            case Some(s) => DecodeLoop(D', s, rest)
    decreases f, n
  {
    hide EncItem, DecodeLoop, MergeItem, Enter, CompatibleField, TagOK;
    var v := vs[n - 1];
    var item, entered := EncItem(f, v), Enter(D', st, j);
    assert EncItems(f, vs, n) + rest == EncItems(f, vs, n - 1) + (item + rest);
    EnterOnce(D', st, j);
    if n == 1 {
      assert EncItems(f, vs, 0) + (item + rest) == item + rest;
      assert MergeItems(D', entered, j, f.l, vs, 0) == Some(entered);
      ItemReadsBack(D', st, f, j, v, rest);
    } else {
      ItemsReadBack(D', st, f, j, vs, n - 1, item + rest);
      var s := MergeItems(D', entered, j, f.l, vs, n - 1);
      if s.Some? {
        MergeItemsKeep(D', entered, j, f.l, vs, n - 1);
        EnterOnce(D', s.value, j);
        ItemReadsBack(D', s.value, f, j, v, rest);
      }
    }
  }

  // ----- fields and messages -----

  lemma PayloadOK(f: Field, s: Slot)
    requires SlotOK(f, s) && FieldEncodable(f, s)
    ensures forall v :: v in Payload(f, s) ==> ValueOK(f.l, v) && ValueEncodable(f.l, v)
  {
    hide ValueOK, ValueEncodable, IsDefaultValue;
  }

  lemma {:induction false} FieldReadsBack(D': seq<Field>, st: State, f: Field, s: Slot, rest: seq<byte>)
    requires |st.msg| == |D'| && TagOK(f) && SlotOK(f, s) && FieldEncodable(f, s) && |EncField(f, s)| < TWO32
    requires Find(D', f.tag).Some? ==>
      CompatibleField(D'[Find(D', f.tag).value], f) && CanEnter(D', st, Find(D', f.tag).value)
    ensures DecodeLoop(D', st, EncField(f, s) + rest) ==
            match MergeField(D', st, f, s) case None => Failed case Some(r) => DecodeLoop(D', r, rest)
    decreases f
  {
    hide DecodeLoop, MergeItems, EncItems, EncPacked, Enter, SlotOK, FieldEncodable, CompatibleField, Payload, CanEnter,
         EncTag, Delimited;
    var vs := Payload(f, s);
    PayloadOK(f, s);
    if vs == [] {
      EmptyItems(f);
      assert EncField(f, s) + rest == rest;
    } else {
      var sub := EncPacked(f.l, vs, |vs|);
      assert Packs(f) ==> |sub| < TWO32 by { DelimitedLength(sub); }
      match Find(D', f.tag)
      case None =>
        if Packs(f) { UnknownPacked(D', st, f.tag, sub, rest); } else { UnknownItems(D', st, f, vs, |vs|, rest); }
      case Some(j) =>
        if Packs(f) { KnownPacked(D', st, f, j, vs, rest); } else { ItemsReadBack(D', st, f, j, vs, |vs|, rest); }
    }
  }

  lemma EmptyItems(f: Field)
    ensures EncItems(f, [], 0) == []
  {
  }

  /** No fixed-count array is half received, and the last one was not any of `D[n..]`. */
  ghost predicate Settled(D': seq<Field>, st: State, D: seq<Field>, n: nat)
    requires |st.msg| == |D'| && n <= |D|
  {
    && (st.track.Some? ==> st.track.value < |D'| && D'[st.track.value].h.FixedCount?)
    && Complete(D', st)
    && forall i :: n <= i < |D| && st.track.Some? ==> D[i].tag != D'[st.track.value].tag
  }

  lemma SettledStays(D': seq<Field>, st: State, D: seq<Field>, m: seq<Slot>, n: nat)
    requires |st.msg| == |D'| && |m| == |D| && n < |D| && Distinct(D) && Settled(D', st, D, n) && SlotOK(D[n], m[n])
    requires Find(D', D[n].tag).Some? ==> CompatibleField(D'[Find(D', D[n].tag).value], D[n])
    ensures var r := MergeField(D', st, D[n], m[n]); r.Some? ==> Settled(D', r.value, D, n + 1)
  {
    hide MergeItems, CompatibleType, ValueOK, IsDefaultValue;
    var vs := Payload(D[n], m[n]);
    match Find(D', D[n].tag)
    case None =>
    case Some(j) =>
      var e := Enter(D', st, j);
      MergeItemsKeep(D', e, j, D[n].l, vs, |vs|);
  }

  lemma {:induction false} PrefixReadsBack(D': seq<Field>, st: State, D: seq<Field>, m: seq<Slot>, n: nat,
                                           rest: seq<byte>)
    requires |st.msg| == |D'| && MessageOK(D, m) && Encodable(D, m) && TagsOK(D) && Reads(D', D)
    requires n <= |D| && |EncTo(D, m, n)| < TWO32 && Settled(D', st, D, 0)
    ensures match MergeTo(D', st, D, m, n)
            case None => DecodeLoop(D', st, EncTo(D, m, n) + rest) == Failed
            case Some(r) => DecodeLoop(D', st, EncTo(D, m, n) + rest) == DecodeLoop(D', r, rest) && Settled(D', r, D, n)
    decreases D, n
  {
    hide DecodeLoop, MergeField, EncField, SlotOK, FieldEncodable, CompatibleField, TagOK, Settled;
    if n == 0 {
      assert EncTo(D, m, 0) + rest == rest;
    } else {
      var f, s := D[n - 1], m[n - 1];
      var body := EncField(f, s);
      assert EncTo(D, m, n) + rest == EncTo(D, m, n - 1) + (body + rest);
      PrefixReadsBack(D', st, D, m, n - 1, body + rest);
      var r := MergeTo(D', st, D, m, n - 1);
      if r.Some? {
        SettledEnters(D', r.value, D, n - 1);
        FieldReadsBack(D', r.value, f, s, rest);
        SettledStays(D', r.value, D, m, n - 1);
      }
    }
  }

  lemma SettledEnters(D': seq<Field>, st: State, D: seq<Field>, n: nat)
    requires |st.msg| == |D'| && n < |D| && Settled(D', st, D, n)
    ensures Find(D', D[n].tag).Some? ==> CanEnter(D', st, Find(D', D[n].tag).value)
  {
  }

  // ----- required fields -----

  lemma MergeFieldSeen(D': seq<Field>, st: State, f: Field, s: Slot)
    requires |st.msg| == |D'|
    ensures var r := MergeField(D', st, f, s); r.Some? ==>
      && st.seen <= r.value.seen
      && (Find(D', f.tag).Some? && Payload(f, s) != [] ==> Entered(D', r.value, Find(D', f.tag).value))
  {
    hide MergeItems, RequiredIndex, Payload;
    match Find(D', f.tag)
    case None =>
    case Some(j) =>
      EnterOnce(D', st, j);
      MergeItemsKeep(D', Enter(D', st, j), j, f.l, Payload(f, s), |Payload(f, s)|);
  }

  /** Each required field that `D[..n]` sends has been seen. */
  lemma {:induction false} SentIsSeen(D': seq<Field>, st: State, D: seq<Field>, m: seq<Slot>, n: nat, j: nat)
    requires |st.msg| == |D'| && MessageOK(D, m) && Reads(D', D) && n <= |D| && j < |D'| && D'[j].h.Required?
    requires Find(D, D'[j].tag).Some? && Find(D, D'[j].tag).value < n && MergeTo(D', st, D, m, n).Some?
    requires RequiredIndex(D', j) < MAX_REQUIRED
    ensures RequiredIndex(D', j) in MergeTo(D', st, D, m, n).value.seen
    decreases n
  {
    hide MergeField, RequiredIndex, CompatibleType, ValueOK;
    var r, f, s := MergeTo(D', st, D, m, n - 1).value, D[n - 1], m[n - 1];
    MergeFieldSeen(D', r, f, s);
    if Find(D, D'[j].tag).value == n - 1 {
      assert Find(D', f.tag) == Some(j);
      assert SlotOK(f, s) && f.h.Required?;
      assert Payload(f, s) == [s.v];
    } else {
      SentIsSeen(D', st, D, m, n - 1, j);
    }
  }

  lemma {:induction false} IndexGrows(D: seq<Field>, i: nat, j: nat)
    requires i < j <= |D| && D[i].h.Required?
    ensures RequiredIndex(D, i) < RequiredIndex(D, j)
    decreases j
  {
    if i < j - 1 {
      IndexGrows(D, i, j - 1);
    }
  }

  lemma {:induction false} RequiredAt(D: seq<Field>, n: nat, k: nat) returns (j: nat)
    requires n <= |D| && k < RequiredIndex(D, n)
    ensures j < n && D[j].h.Required? && RequiredIndex(D, j) == k
    decreases n
  {
    if D[n - 1].h.Required? && RequiredIndex(D, n - 1) == k {
      j := n - 1;
    } else {
      j := RequiredAt(D, n - 1, k);
    }
  }

  lemma AllAreSeen(D': seq<Field>, st: State, D: seq<Field>, m: seq<Slot>)
    requires |st.msg| == |D'| && MessageOK(D, m) && Reads(D', D) && MergeTo(D', st, D, m, |D|).Some?
    ensures AllSeen(D', MergeTo(D', st, D, m, |D|).value.seen)
  {
    assert |m| == |D|;
    hide MergeTo, MessageOK;
    forall k | 0 <= k < RequiredIndex(D', |D'|) && k < MAX_REQUIRED ensures k in MergeTo(D', st, D, m, |D|).value.seen {
      var j := RequiredAt(D', |D'|, k);
      SentIsSeen(D', st, D, m, |D|, j);
    }
  }

  // ----- the theorem -----

  /** Decoding what was encoded under `D`, by a reader with `D'` whose struct holds `base`, gives
      exactly the merged message; it fails exactly when merging does. */
  lemma {:induction false} MessageReadsBack(D': seq<Field>, base: seq<Slot>, D: seq<Field>, m: seq<Slot>)
    requires |base| == |D'| && MessageOK(D, m) && Encodable(D, m) && TagsOK(D) && Reads(D', D)
    requires |EncTo(D, m, |D|)| < TWO32
    ensures DecodeNoinit(D', base, EncTo(D, m, |D|)) == MergeMessage(D', base, D, m)
    decreases D
  {
    assert |m| == |D|;
    hide MergeTo, EncTo, MessageOK, Encodable, TagsOK, Reads;
    var st := State(base, None, {});
    var bytes := EncTo(D, m, |D|);
    assert bytes + [] == bytes;
    PrefixReadsBack(D', st, D, m, |D|, []);
    var r := MergeTo(D', st, D, m, |D|);
    if r.Some? {
      assert DecodeLoop(D', r.value, []) == AtEnd(r.value);
      AllAreSeen(D', st, D, m);
    }
  }
}
