/** The meaning of merging, slot by slot: the last value of a scalar wins, arrays are appended,
    submessages are merged in turn, and a union keeps the arm that came last. */
module Combining {
  import opened Options
  import opened Bits
  import opened Descriptors
  import opened Encoding
  import opened Decoding
  import opened Scalars
  import opened Merging
  import opened ReadBack

  // ----- slot by slot -----

  function CombineValue(l': LType, base: Value, l: LType, v: Value): Value
    decreases l, 0
  {
    if l.Submessage? && l'.Submessage? && v.VMsg? && |v.slots| == |l.fields|
    then VMsg(Combine(l'.fields, SubMessage(l'.fields, base), l.fields, v.slots))
    else v
  }

  function CombineItems(f': Field, f: Field, vs: seq<Value>): (r: seq<Value>)
    ensures |r| == |vs|
    decreases f, 0
  {
    seq(|vs|, k requires 0 <= k < |vs| => CombineValue(f'.l, DefaultValue(f'), f.l, vs[k]))
  }

  function CombineSlot(f': Field, b: Slot, f: Field, s: Slot): Slot
    decreases f, 1
  {
    var vs := Payload(f, s);
    if vs == [] then b
    else
      match f'.h
      case Repeated(_) => Rep(Items(b) + CombineItems(f', f, vs))
      case FixedCount(_) => Rep(CombineItems(f', f, vs))
      case Optional => Opt(true, CombineValue(f'.l, Base(f', b), f.l, vs[0]))
      case OneOf(_) => Arm(Some(CombineValue(f'.l, Base(f', b), f.l, vs[0])))
      case Required => Plain(CombineValue(f'.l, Base(f', b), f.l, vs[0]))
      case Singular => Plain(CombineValue(f'.l, Base(f', b), f.l, vs[0]))
  }

  /** The writer chose another arm of the union that `f'` is in, one the reader knows. */
  predicate Displaced(D': seq<Field>, D: seq<Field>, m: seq<Slot>, n: nat, f': Field)
    requires |m| == |D| && n <= |D|
  {
    f'.h.OneOf? && exists i :: 0 <= i < n && Chosen(D[i], m[i]) && D[i].h == f'.h && D[i].tag != f'.tag
                               && Find(D', D[i].tag).Some?
  }

  /** Slot `j` after the first `n` fields of the writer's message. */
  function CombinedAt(D': seq<Field>, base: seq<Slot>, D: seq<Field>, m: seq<Slot>, n: nat, j: nat): Slot
    requires |base| == |D'| && |m| == |D| && n <= |D| && j < |D'|
    decreases D, 0
  {
    if Displaced(D', D, m, n, D'[j]) then Arm(None)
    else
      match Find(D, D'[j].tag)
      case Some(i) => if i < n then CombineSlot(D'[j], base[j], D[i], m[i]) else base[j]
      case None => base[j]
  }

  function Combine(D': seq<Field>, base: seq<Slot>, D: seq<Field>, m: seq<Slot>): (r: seq<Slot>)
    requires |base| == |D'| && |m| == |D|
    ensures |r| == |D'|
    decreases D, 1
  {
    seq(|D'|, j requires 0 <= j < |D'| => CombinedAt(D', base, D, m, |D|, j))
  }

  // ----- when there is room -----

  predicate ValueRoom(l': LType, base: Value, l: LType, v: Value)
    decreases l, 0
  {
    if l.Submessage? then
      l'.Submessage? && v.VMsg? && |v.slots| == |l.fields|
      && HasRoom(l'.fields, SubMessage(l'.fields, base), l.fields, v.slots)
    else FitsBuffer(l, v)
  }

  /** The array has room for all the values, and each value for its strings and its own arrays. */
  predicate SlotRoom(f': Field, b: Slot, f: Field, s: Slot)
    decreases f
  {
    var vs := Payload(f, s);
    if f'.h.Repeated? then
      (vs != [] ==> |Items(b)| + |vs| <= f'.h.max) && forall v :: v in vs ==> ValueRoom(f'.l, DefaultValue(f'), f.l, v)
    else if f'.h.FixedCount? then
      |vs| <= f'.h.count && forall v :: v in vs ==> ValueRoom(f'.l, DefaultValue(f'), f.l, v)
    else forall v :: v in vs ==> ValueRoom(f'.l, Base(f', b), f.l, v)
  }

  predicate HasRoom(D': seq<Field>, base: seq<Slot>, D: seq<Field>, m: seq<Slot>)
    requires |base| == |D'| && |m| == |D|
    decreases D
  {
    HasRoomTo(D', base, D, m, |D|)
  }

  predicate HasRoomTo(D': seq<Field>, base: seq<Slot>, D: seq<Field>, m: seq<Slot>, n: nat)
    requires |base| == |D'| && |m| == |D| && n <= |D|
    decreases D, n
  {
    forall i :: 0 <= i < n && Find(D', D[i].tag).Some? ==>
      SlotRoom(D'[Find(D', D[i].tag).value], base[Find(D', D[i].tag).value], D[i], m[i])
  }

  // ----- merging is combining -----

  lemma {:induction false} MergedValue(l': LType, base: Value, l: LType, v: Value)
    requires CompatibleType(l', l) && ValueOK(l, v) && TypeTagsOK(l)
    ensures MergeValue(l', base, l, v) == if ValueRoom(l', base, l, v) then Some(CombineValue(l', base, l, v)) else None
    decreases l, 0
  {
    hide MergeMessage, Combine, HasRoom, MessageOK, Reads, TagsOK;
    if l.Submessage? {
      MessageOKLength(l.fields, v.slots);
      MergedMessage(l'.fields, SubMessage(l'.fields, base), l.fields, v.slots);
    }
  }

  lemma MessageOKLength(D: seq<Field>, m: seq<Slot>)
    requires MessageOK(D, m)
    ensures |m| == |D|
  {
  }

  function WithItems(st: State, j: nat, items: seq<Value>): (r: State)
    requires j < |st.msg|
    ensures |r.msg| == |st.msg| && Items(r.msg[j]) == items
  {
    st.(msg := st.msg[j := Rep(items)])
  }

  lemma WithItemsTwice(st: State, j: nat, a: seq<Value>, b: seq<Value>)
    requires j < |st.msg|
    ensures WithItems(WithItems(st, j, a), j, b) == WithItems(st, j, b)
  {
    assert st.msg[j := Rep(a)][j := Rep(b)] == st.msg[j := Rep(b)];
  }

  predicate ItemsRoom(f': Field, f: Field, vs: seq<Value>, n: nat)
    requires n <= |vs|
  {
    forall k :: 0 <= k < n ==> ValueRoom(f'.l, DefaultValue(f'), f.l, vs[k])
  }

  /** Values appended to an array. */
  lemma {:induction false} MergedItems(D': seq<Field>, st: State, j: nat, f: Field, vs: seq<Value>, n: nat)
    requires |st.msg| == |D'| && j < |D'| && IsRepeated(D'[j].h) && CompatibleType(D'[j].l, f.l) && TypeTagsOK(f.l)
    requires 0 < n <= |vs| && forall v :: v in vs ==> ValueOK(f.l, v)
    ensures var items := Items(st.msg[j]);
      MergeItems(D', st, j, f.l, vs, n) ==
        if |items| + n <= Limit(D'[j].h) && ItemsRoom(D'[j], f, vs, n)
        then Some(WithItems(st, j, items + CombineItems(D'[j], f, vs)[..n])) else None
    decreases f, n
  {
    var f', items := D'[j], Items(st.msg[j]);
    var all := CombineItems(f', f, vs);
    var x := CombineValue(f'.l, DefaultValue(f'), f.l, vs[n - 1]);
    assert all[..n] == all[..n - 1] + [x];
    assert ItemsRoom(f', f, vs, n) <==>
      ItemsRoom(f', f, vs, n - 1) && ValueRoom(f'.l, DefaultValue(f'), f.l, vs[n - 1]);
    hide MergeItem, ValueRoom, CombineValue, CombineItems, ValueOK, CompatibleType, TypeTagsOK, ItemsRoom, WithItems,
         Limit;
    if n == 1 {
      NoItemsYet(D', st, j, f, vs);
      MergedItem(D', st, j, f, vs[0]);
      assert items + all[..1] == items + [x];
    } else {
      MergedItems(D', st, j, f, vs, n - 1);
      if |items| + n - 1 <= Limit(f'.h) && ItemsRoom(f', f, vs, n - 1) {
        MergedItem(D', WithItems(st, j, items + all[..n - 1]), j, f, vs[n - 1]);
        WithItemsTwice(st, j, items + all[..n - 1], items + all[..n]);
        assert items + all[..n - 1] + [x] == items + all[..n];
      }
    }
  }

  lemma NoItemsYet(D': seq<Field>, st: State, j: nat, f: Field, vs: seq<Value>)
    requires |st.msg| == |D'| && j < |D'|
    ensures MergeItems(D', st, j, f.l, vs, 0) == Some(st) && ItemsRoom(D'[j], f, vs, 0)
  {
  }

  lemma {:induction false} MergedItem(D': seq<Field>, st: State, j: nat, f: Field, v: Value)
    requires |st.msg| == |D'| && j < |D'| && IsRepeated(D'[j].h) && CompatibleType(D'[j].l, f.l) && TypeTagsOK(f.l)
    requires ValueOK(f.l, v)
    ensures var items, d := Items(st.msg[j]), DefaultValue(D'[j]);
      MergeItem(D', st, j, f.l, v) ==
        if |items| < Limit(D'[j].h) && ValueRoom(D'[j].l, d, f.l, v)
        then Some(WithItems(st, j, items + [CombineValue(D'[j].l, d, f.l, v)])) else None
    decreases f, 0
  {
    hide MergeValue, ValueRoom, CombineValue, ValueOK, CompatibleType, TypeTagsOK;
    if |Items(st.msg[j])| < Limit(D'[j].h) {
      MergedValue(D'[j].l, DefaultValue(D'[j]), f.l, v);
    }
  }

  lemma PayloadTyped(f: Field, s: Slot)
    requires SlotOK(f, s)
    ensures forall v :: v in Payload(f, s) ==> ValueOK(f.l, v)
    ensures Payload(f, s) != [] && !IsRepeated(f.h) ==> |Payload(f, s)| == 1
    ensures f.h.OneOf? ==> (Payload(f, s) != [] <==> Chosen(f, s))
  {
    hide ValueOK, IsDefaultValue;
  }

  /** One field changes its own slot and, in a union, empties the other arms. */
  lemma {:induction false} MergedField(D': seq<Field>, st: State, f: Field, s: Slot, j: nat)
    requires |st.msg| == |D'| && Find(D', f.tag) == Some(j) && CompatibleField(D'[j], f) && TagOK(f) && SlotOK(f, s)
    requires f.h.FixedCount? ==> st.track != Some(j)
    ensures var r := MergeField(D', st, f, s);
      && (r.Some? <==> SlotRoom(D'[j], st.msg[j], f, s))
      && (r.Some? ==> r.value.msg[j] == CombineSlot(D'[j], st.msg[j], f, s))
      && (r.Some? ==> forall k :: 0 <= k < |D'| && k != j ==>
            r.value.msg[k] ==
            if Payload(f, s) != [] && f.h.OneOf? && D'[k].h == f.h then Arm(None) else st.msg[k])
    decreases f, |Payload(f, s)| + 1
  {
    hide MergeValue, ValueRoom, CombineValue, ValueOK, CompatibleType, Payload, SlotOK;
    var vs := Payload(f, s);
    PayloadTyped(f, s);
    if vs != [] {
      var e := Enter(D', st, j);
      if IsRepeated(f.h) {
        MergedItems(D', e, j, f, vs, |vs|);
        var all := CombineItems(D'[j], f, vs);
        assert all[..|vs|] == all;
        assert [] + all == all;
      } else {
        assert MergeItems(D', e, j, f.l, vs, 0) == Some(e);
        assert MergeItems(D', e, j, f.l, vs, 1) == MergeItem(D', e, j, f.l, vs[0]);
        MergedValue(D'[j].l, Base(D'[j], st.msg[j]), f.l, vs[0]);
      }
    }
  }

  /** A slot the next field does not concern. */
  lemma CombinedElsewhere(D': seq<Field>, base: seq<Slot>, D: seq<Field>, m: seq<Slot>, n: nat, k: nat)
    requires |base| == |D'| && MessageOK(D, m) && n < |D| && k < |D'| && D'[k].tag != D[n].tag
    requires D'[k].h.OneOf? && Find(D', D[n].tag).Some? && D'[k].h == D[n].h ==> Payload(D[n], m[n]) == []
    ensures CombinedAt(D', base, D, m, n + 1, k) == CombinedAt(D', base, D, m, n, k)
  {
    hide CombineSlot, ValueOK, Find;
    PayloadTyped(D[n], m[n]);
    hide Payload, SlotOK;
    assert Displaced(D', D, m, n + 1, D'[k]) == Displaced(D', D, m, n, D'[k]);
  }

  /** The other arms of a union the next field chooses an arm of. */
  lemma {:induction false} CombinedDisplaced(D': seq<Field>, base: seq<Slot>, D: seq<Field>, m: seq<Slot>,
                                             n: nat, k: nat)
    requires |base| == |D'| && MessageOK(D, m) && n < |D| && k < |D'| && D'[k].tag != D[n].tag
    requires D'[k].h.OneOf? && Find(D', D[n].tag).Some? && D'[k].h == D[n].h && Payload(D[n], m[n]) != []
    ensures CombinedAt(D', base, D, m, n + 1, k) == Arm(None)
  {
    hide CombineSlot, ValueOK, Find;
    PayloadTyped(D[n], m[n]);
  }

  /** The slot of the next field itself. */
  lemma CombinedHere(D': seq<Field>, base: seq<Slot>, D: seq<Field>, m: seq<Slot>, n: nat, j: nat)
    requires |base| == |D'| && MessageOK(D, m) && Distinct(D) && n < |D|
    requires Find(D', D[n].tag) == Some(j) && D'[j].h == D[n].h
    ensures Payload(D[n], m[n]) != [] ==>
      && CombinedAt(D', base, D, m, n, j) == base[j]
      && CombinedAt(D', base, D, m, n + 1, j) == CombineSlot(D'[j], base[j], D[n], m[n])
    ensures Payload(D[n], m[n]) == [] ==> CombinedAt(D', base, D, m, n + 1, j) == CombinedAt(D', base, D, m, n, j)
  {
    hide ValueOK, CombineValue, CombineItems;
    PayloadTyped(D[n], m[n]);
    assert Find(D, D'[j].tag) == Some(n);
    if Payload(D[n], m[n]) == [] {
      hide Payload, SlotOK;
      assert Displaced(D', D, m, n + 1, D'[j]) == Displaced(D', D, m, n, D'[j]);
    }
  }

  lemma {:induction false} MergedPrefix(D': seq<Field>, base: seq<Slot>, D: seq<Field>, m: seq<Slot>, n: nat)
    requires |base| == |D'| && MessageOK(D, m) && TagsOK(D) && Reads(D', D) && n <= |D|
    ensures var r := MergeTo(D', State(base, None, {}), D, m, n);
      && (r.Some? <==> HasRoomTo(D', base, D, m, n))
      && (r.Some? ==> Settled(D', r.value, D, n))
      && (r.Some? ==> forall j :: 0 <= j < |D'| ==> r.value.msg[j] == CombinedAt(D', base, D, m, n, j))
    decreases D, n
  {
    hide MergeField, SlotRoom, CombinedAt, Settled, SlotOK, TagOK, CompatibleField;
    if n == 0 {
      NothingCombined(D', base, D, m);
    } else {
      MergedPrefix(D', base, D, m, n - 1);
      var s := MergeTo(D', State(base, None, {}), D, m, n - 1);
      if s.Some? {
        MergedStep(D', base, D, m, n - 1, s.value);
      }
    }
  }

  lemma NothingCombined(D': seq<Field>, base: seq<Slot>, D: seq<Field>, m: seq<Slot>)
    requires |base| == |D'| && |m| == |D|
    ensures forall j :: 0 <= j < |D'| ==> CombinedAt(D', base, D, m, 0, j) == base[j]
    ensures Settled(D', State(base, None, {}), D, 0)
  {
  }

  lemma {:induction false} MergedStep(D': seq<Field>, base: seq<Slot>, D: seq<Field>, m: seq<Slot>, n: nat, st: State)
    requires |base| == |D'| && MessageOK(D, m) && TagsOK(D) && Reads(D', D) && n < |D|
    requires |st.msg| == |D'| && Settled(D', st, D, n)
    requires forall j :: 0 <= j < |D'| ==> st.msg[j] == CombinedAt(D', base, D, m, n, j)
    ensures var r := MergeField(D', st, D[n], m[n]);
      && (r.Some? <==> (Find(D', D[n].tag).Some? ==>
            SlotRoom(D'[Find(D', D[n].tag).value], base[Find(D', D[n].tag).value], D[n], m[n])))
      && (r.Some? ==> Settled(D', r.value, D, n + 1))
      && (r.Some? ==> forall j :: 0 <= j < |D'| ==> r.value.msg[j] == CombinedAt(D', base, D, m, n + 1, j))
    decreases D[n]
  {
    var f, s := D[n], m[n];
    assert SlotOK(f, s) && TagOK(f);
    SettledStays(D', st, D, m, n);
    if Find(D', f.tag).None? {
      hide CombinedAt, SlotOK, TagOK, Settled, CompatibleField;
      forall k | 0 <= k < |D'| ensures CombinedAt(D', base, D, m, n + 1, k) == CombinedAt(D', base, D, m, n, k) {
        CombinedElsewhere(D', base, D, m, n, k);
      }
    } else {
      var j := Find(D', f.tag).value;
      NotTracked(D', st, D, n, j);
      hide CombinedAt, SlotOK, TagOK, Settled, MergeField, SlotRoom, CombineSlot, CompatibleType, Payload;
      MergedField(D', st, f, s, j);
      CombinedHere(D', base, D, m, n, j);
      EmptyHasRoom(D'[j], st.msg[j], f, s);
      EmptyHasRoom(D'[j], base[j], f, s);
      forall k | 0 <= k < |D'| && k != j
        ensures CombinedAt(D', base, D, m, n + 1, k) ==
          if Payload(f, s) != [] && f.h.OneOf? && D'[k].h == f.h then Arm(None) else CombinedAt(D', base, D, m, n, k)
      {
        if Payload(f, s) != [] && f.h.OneOf? && D'[k].h == f.h {
          CombinedDisplaced(D', base, D, m, n, k);
        } else {
          CombinedElsewhere(D', base, D, m, n, k);
        }
      }
    }
  }

  lemma EmptyHasRoom(f': Field, b: Slot, f: Field, s: Slot)
    ensures Payload(f, s) == [] ==> SlotRoom(f', b, f, s) && CombineSlot(f', b, f, s) == b
  {
  }

  lemma NotTracked(D': seq<Field>, st: State, D: seq<Field>, n: nat, j: nat)
    requires |st.msg| == |D'| && n < |D| && Settled(D', st, D, n) && Find(D', D[n].tag) == Some(j)
    ensures st.track != Some(j)
  {
  }

  /** Merging succeeds exactly when there is room for everything, and combines slot by slot. */
  lemma {:induction false} MergedMessage(D': seq<Field>, base: seq<Slot>, D: seq<Field>, m: seq<Slot>)
    requires |base| == |D'| && MessageOK(D, m) && TagsOK(D) && Reads(D', D)
    ensures MergeMessage(D', base, D, m) ==
            if HasRoom(D', base, D, m) then Some(Combine(D', base, D, m)) else None
    decreases D
  {
    hide MergeTo, MessageOK, TagsOK, Reads, CombinedAt, HasRoomTo;
    MessageOKLength(D, m);
    MergedPrefix(D', base, D, m, |D|);
    var r := MergeTo(D', State(base, None, {}), D, m, |D|);
    assert r.Some? ==> r.value.msg == Combine(D', base, D, m);
  }
}
