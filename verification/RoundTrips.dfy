/** What comes back from a decode of an encode: the message itself, up to what is not sent; for
    another reader, its projection; and for two messages in a row, one merged into the other. */
module RoundTrips {
  import opened Options
  import opened Bits
  import Varint
  import opened Descriptors
  import opened Encoding
  import opened Decoding
  import opened Scalars
  import opened Merging
  import opened ReadBack
  import opened Combining
  import opened Concatenation

  // ----- normal form: what is not sent has its default -----

  function NormalValue(l: LType, v: Value): Value
    decreases l, 0
  {
    if l.Submessage? && v.VMsg? && |v.slots| == |l.fields| then VMsg(Normal(l.fields, v.slots)) else v
  }

  function NormalItems(l: LType, vs: seq<Value>): (r: seq<Value>)
    ensures |r| == |vs|
    decreases l, 1
  {
    seq(|vs|, k requires 0 <= k < |vs| => NormalValue(l, vs[k]))
  }

  function NormalSlot(f: Field, s: Slot): Slot
    decreases f
  {
    match s
    case Plain(v) => Plain(NormalValue(f.l, v))
    case Opt(has, v) => if has then Opt(true, NormalValue(f.l, v)) else Opt(false, DefaultValue(f))
    case Rep(items) => Rep(NormalItems(f.l, items))
    case Arm(chosen) => if chosen.Some? then Arm(Some(NormalValue(f.l, chosen.value))) else s
  }

  function Normal(D: seq<Field>, m: seq<Slot>): (r: seq<Slot>)
    requires |m| == |D|
    ensures |r| == |D|
    decreases D
  {
    seq(|D|, i requires 0 <= i < |D| => NormalSlot(D[i], m[i]))
  }

  // ----- projection: what another descriptor has of a message -----

  function ProjectValue(l': LType, l: LType, v: Value): Value
    decreases l, 0
  {
    if l.Submessage? && l'.Submessage? && v.VMsg? && |v.slots| == |l.fields|
    then VMsg(Project(l'.fields, l.fields, v.slots)) else v
  }

  function ProjectItems(l': LType, l: LType, vs: seq<Value>): (r: seq<Value>)
    ensures |r| == |vs|
    decreases l, 1
  {
    seq(|vs|, k requires 0 <= k < |vs| => ProjectValue(l', l, vs[k]))
  }

  function ProjectSlot(f': Field, f: Field, s: Slot): Slot
    decreases f
  {
    match s
    case Plain(v) => Plain(ProjectValue(f'.l, f.l, v))
    case Opt(has, v) => Opt(has, ProjectValue(f'.l, f.l, v))
    case Rep(items) => Rep(ProjectItems(f'.l, f.l, items))
    case Arm(chosen) => if chosen.Some? then Arm(Some(ProjectValue(f'.l, f.l, chosen.value))) else s
  }

  function Project(D': seq<Field>, D: seq<Field>, m: seq<Slot>): (r: seq<Slot>)
    requires |m| == |D|
    ensures |r| == |D'|
    decreases D
  {
    seq(|D'|, j requires 0 <= j < |D'| =>
      match Find(D, D'[j].tag)
      case Some(i) => ProjectSlot(D'[j], D[i], m[i])
      case None => DefaultSlot(D'[j]))
  }

  /** Every string that is sent, and that the reader knows, is shorter than its buffer. */
  predicate ValueStringsFit(l': LType, l: LType, v: Value)
    decreases l
  {
    if l.Submessage? then
      l'.Submessage? && v.VMsg? && |v.slots| == |l.fields| && StringsFit(l'.fields, l.fields, v.slots)
    else FitsBuffer(l, v)
  }

  predicate SlotStringsFit(f': Field, f: Field, s: Slot)
    decreases f
  {
    forall v :: v in Payload(f, s) ==> ValueStringsFit(f'.l, f.l, v)
  }

  predicate StringsFit(D': seq<Field>, D: seq<Field>, m: seq<Slot>)
    requires |m| == |D|
    decreases D
  {
    forall i :: 0 <= i < |D| && Find(D', D[i].tag).Some? ==> SlotStringsFit(D'[Find(D', D[i].tag).value], D[i], m[i])
  }

  // ----- a message that is all defaults -----

  /** The normal form of the defaults is the defaults. */
  lemma {:induction false} NormalDefault(f: Field)
    requires FieldOK(f)
    ensures NormalSlot(f, DefaultSlot(f)) == DefaultSlot(f) && NormalValue(f.l, DefaultValue(f)) == DefaultValue(f)
    decreases f
  {
    if f.l.Submessage? {
      forall i | 0 <= i < |f.l.fields|
        ensures NormalSlot(f.l.fields[i], DefaultSlot(f.l.fields[i])) == DefaultSlot(f.l.fields[i])
      {
        NormalDefault(f.l.fields[i]);
      }
      assert Normal(f.l.fields, DefaultMessage(f.l.fields)) == DefaultMessage(f.l.fields);
    }
    assert NormalItems(f.l, []) == [];
  }

  /** A proto3 value that is not sent because it is the default is what the reader starts from. */
  lemma {:induction false} UnsentIsDefault(f': Field, f: Field, v: Value)
    requires FieldOK(f') && CompatibleField(f', f) && ValueOK(f.l, v) && IsDefaultValue(f.l, v)
    requires f'.l.Submessage? || IsDefaultValue(f'.l, f'.initial)
    ensures NormalValue(f'.l, ProjectValue(f'.l, f.l, v)) == DefaultValue(f')
    decreases f, 0
  {
    if f.l.Submessage? {
      var D', D, m := f'.l.fields, f.l.fields, v.slots;
      var p := Project(D', D, m);
      forall j | 0 <= j < |D'| ensures NormalSlot(D'[j], p[j]) == DefaultSlot(D'[j]) {
        assert FieldOK(D'[j]);
        if Find(D, D'[j].tag).Some? {
          var i := Find(D, D'[j].tag).value;
          SharedTag(D', D, j, i);
          assert SlotOK(D[i], m[i]) && IsDefaultField(D[i], m[i]);
          UnsentSlotIsDefault(D'[j], D[i], m[i]);
        } else {
          NormalDefault(D'[j]);
        }
      }
      assert Normal(D', p) == DefaultMessage(D');
    }
  }

  lemma SharedTag(D': seq<Field>, D: seq<Field>, j: nat, i: nat)
    requires Reads(D', D) && j < |D'| && i < |D| && D[i].tag == D'[j].tag
    ensures Find(D', D[i].tag) == Some(j) && CompatibleField(D'[j], D[i])
  {
    hide CompatibleField;
  }

  lemma {:induction false} UnsentSlotIsDefault(f': Field, f: Field, s: Slot)
    requires FieldOK(f') && CompatibleField(f', f) && SlotOK(f, s) && IsDefaultField(f, s)
    ensures NormalSlot(f', ProjectSlot(f', f, s)) == DefaultSlot(f')
    decreases f, 1
  {
    hide ValueOK, IsDefaultValue, CompatibleType, ProjectValue, NormalValue, DefaultValue;
    if f.h.Singular? {
      UnsentIsDefault(f', f, s.v);
    } else if f.h.Repeated? {
      assert ProjectItems(f'.l, f.l, []) == [] && NormalItems(f'.l, []) == [];
    }
  }

  // ----- combining into the defaults -----

  /** A value combined into its default is its projection, in normal form. */
  lemma {:induction false} CombinedValueDefault(f': Field, f: Field, v: Value)
    requires FieldOK(f') && CompatibleField(f', f) && TagOK(f) && ValueOK(f.l, v) && ValueEncodable(f.l, v)
    ensures CombineValue(f'.l, DefaultValue(f'), f.l, v) == NormalValue(f'.l, ProjectValue(f'.l, f.l, v))
    ensures ValueRoom(f'.l, DefaultValue(f'), f.l, v) <==> ValueStringsFit(f'.l, f.l, v)
    decreases f, 0
  {
    if f.l.Submessage? {
      MessageOKLength(f.l.fields, v.slots);
      CombinedDefault(f'.l.fields, f.l.fields, v.slots);
    }
  }

  lemma {:induction false} CombinedItemsDefault(f': Field, f: Field, vs: seq<Value>)
    requires FieldOK(f') && CompatibleField(f', f) && TagOK(f)
    requires forall v :: v in vs ==> ValueOK(f.l, v) && ValueEncodable(f.l, v)
    ensures CombineItems(f', f, vs) == NormalItems(f'.l, ProjectItems(f'.l, f.l, vs))
    ensures forall v :: v in vs ==> (ValueRoom(f'.l, DefaultValue(f'), f.l, v) <==> ValueStringsFit(f'.l, f.l, v))
    decreases f, 1
  {
    hide FieldOK, CompatibleField, TagOK, ValueOK, ValueEncodable, CombineValue, NormalValue, ProjectValue, ValueRoom,
         ValueStringsFit;
    forall v | v in vs
      ensures CombineValue(f'.l, DefaultValue(f'), f.l, v) == NormalValue(f'.l, ProjectValue(f'.l, f.l, v))
      ensures ValueRoom(f'.l, DefaultValue(f'), f.l, v) <==> ValueStringsFit(f'.l, f.l, v)
    {
      CombinedValueDefault(f', f, v);
    }
  }

  lemma {:induction false} CombinedSlotDefault(f': Field, f: Field, s: Slot)
    requires FieldOK(f') && CompatibleField(f', f) && TagOK(f) && SlotOK(f, s) && FieldEncodable(f, s)
    ensures CombineSlot(f', DefaultSlot(f'), f, s) == NormalSlot(f', ProjectSlot(f', f, s))
    ensures SlotRoom(f', DefaultSlot(f'), f, s) <==> SlotStringsFit(f', f, s)
    decreases f, 2
  {
    var vs := Payload(f, s);
    PayloadOK(f, s);
    PayloadTyped(f, s);
    if vs == [] {
      UnsentSlot(f', f, s);
    } else {
      CombinedItemsDefault(f', f, vs);
      assert IsRepeated(f.h) ==> |vs| <= Limit(f.h);
      hide CombineValue, NormalValue, ProjectValue, ValueRoom, ValueStringsFit, ValueOK, ValueEncodable, CompatibleType,
           IsDefaultValue, DefaultValue, TagOK, FieldOK;
      if IsRepeated(f.h) {
        assert [] + CombineItems(f', f, vs) == CombineItems(f', f, vs);
      } else {
        hide FieldEncodable;
        assert CombineItems(f', f, vs)[0] == NormalItems(f'.l, ProjectItems(f'.l, f.l, vs))[0];
      }
    }
  }

  lemma {:induction false} UnsentSlot(f': Field, f: Field, s: Slot)
    requires FieldOK(f') && CompatibleField(f', f) && SlotOK(f, s) && Payload(f, s) == []
    ensures NormalSlot(f', ProjectSlot(f', f, s)) == DefaultSlot(f')
    decreases f, 1
  {
    hide ValueOK, CompatibleType, ProjectValue, NormalValue, DefaultValue, IsDefaultValue;
    if f.h.Singular? {
      UnsentIsDefault(f', f, s.v);
    } else if IsRepeated(f.h) {
      assert ProjectItems(f'.l, f.l, []) == [] && NormalItems(f'.l, []) == [];
    }
  }

  lemma {:induction false} CombinedDefaultAt(D': seq<Field>, D: seq<Field>, m: seq<Slot>, j: nat)
    requires WellFormed(D') && Reads(D', D) && TagsOK(D) && MessageOK(D, m) && Encodable(D, m) && j < |D'|
    ensures CombinedAt(D', DefaultMessage(D'), D, m, |D|, j) == NormalSlot(D'[j], Project(D', D, m)[j])
    decreases D, 0
  {
    assert FieldOK(D'[j]);
    match Find(D, D'[j].tag)
    case None => NormalDefault(D'[j]);
    case Some(i) =>
      SharedTag(D', D, j, i);
      assert SlotOK(D[i], m[i]) && FieldEncodable(D[i], m[i]) && TagOK(D[i]);
      CombinedSlotDefault(D'[j], D[i], m[i]);
      hide SlotOK, FieldEncodable, TagOK, FieldOK, CombineSlot, CompatibleType, Reads, WellFormed;
      if Displaced(D', D, m, |D|, D'[j]) {
        NotChosen(D', D, m, i, D'[j]);
      }
  }

  lemma NotChosen(D': seq<Field>, D: seq<Field>, m: seq<Slot>, i: nat, f': Field)
    requires MessageOK(D, m) && i < |D| && D[i].h == f'.h && D[i].tag == f'.tag && Displaced(D', D, m, |D|, f')
    ensures m[i] == Arm(None)
  {
    assert SlotOK(D[i], m[i]);
  }

  lemma {:induction false} CombinedDefault(D': seq<Field>, D: seq<Field>, m: seq<Slot>)
    requires WellFormed(D') && Reads(D', D) && TagsOK(D) && MessageOK(D, m) && Encodable(D, m)
    ensures Combine(D', DefaultMessage(D'), D, m) == Normal(D', Project(D', D, m))
    ensures HasRoom(D', DefaultMessage(D'), D, m) <==> StringsFit(D', D, m)
    decreases D, 1
  {
    MessageOKLength(D, m);
    forall j | 0 <= j < |D'|
      ensures CombinedAt(D', DefaultMessage(D'), D, m, |D|, j) == NormalSlot(D'[j], Project(D', D, m)[j])
    {
      CombinedDefaultAt(D', D, m, j);
    }
    forall i | 0 <= i < |D| && Find(D', D[i].tag).Some?
      ensures var j := Find(D', D[i].tag).value;
        SlotRoom(D'[j], DefaultMessage(D')[j], D[i], m[i]) <==> SlotStringsFit(D'[j], D[i], m[i])
    {
      var j := Find(D', D[i].tag).value;
      assert FieldOK(D'[j]) && SlotOK(D[i], m[i]) && FieldEncodable(D[i], m[i]) && TagOK(D[i]);
      CombinedSlotDefault(D'[j], D[i], m[i]);
    }
    hide SlotRoom, SlotStringsFit, CombinedAt, NormalSlot;
    assert Combine(D', DefaultMessage(D'), D, m) == Normal(D', Project(D', D, m));
  }

  // ----- the theorems -----

  /** What any compatible reader gets from an encoded message: its projection, in normal form, and
      it gets it unless a string it knows fills its buffer.  Fields it does not know are skipped,
      at every depth. */
  lemma ProjectionTheorem(D': seq<Field>, D: seq<Field>, m: seq<Slot>)
    requires WellFormed(D') && WellFormed(D) && Reads(D', D) && MessageOK(D, m) && Encodable(D, m)
    requires |EncTo(D, m, |D|)| < TWO32
    ensures Decode(D', Enc(D, m)) == if StringsFit(D', D, m) then Some(Normal(D', Project(D', D, m))) else None
  {
    hide WellFormed, Reads, MessageOK, Encodable, MergeMessage, Combine, HasRoom, StringsFit, Normal, Project,
         DecodeNoinit, EncTo, TagsOK;
    WellFormedTags(D);
    MessageOKLength(D, m);
    MessageReadsBack(D', DefaultMessage(D'), D, m);
    MergedMessage(D', DefaultMessage(D'), D, m);
    CombinedDefault(D', D, m);
  }

  lemma {:induction false} ReadsItself(D: seq<Field>)
    requires TagsOK(D)
    ensures Reads(D, D)
    decreases D
  {
    forall i | 0 <= i < |D| ensures Find(D, D[i].tag) == Some(i) && CompatibleField(D[i], D[i]) {
      FieldReadsItself(D[i]);
    }
  }

  lemma {:induction false} FieldReadsItself(f: Field)
    requires TagOK(f)
    ensures CompatibleField(f, f)
    decreases f
  {
    if f.l.Submessage? {
      ReadsItself(f.l.fields);
    }
  }

  lemma {:induction false} ProjectsToItself(D: seq<Field>, m: seq<Slot>)
    requires TagsOK(D) && MessageOK(D, m)
    ensures Project(D, D, m) == m
    decreases D, 1
  {
    forall i | 0 <= i < |D| ensures Find(D, D[i].tag) == Some(i) && ProjectSlot(D[i], D[i], m[i]) == m[i] {
      assert SlotOK(D[i], m[i]) && TagOK(D[i]);
      SlotProjectsToItself(D[i], m[i]);
    }
  }

  lemma {:induction false} ValueProjectsToItself(l: LType, v: Value)
    requires TypeTagsOK(l) && ValueOK(l, v)
    ensures ProjectValue(l, l, v) == v
    decreases l, 2
  {
    if l.Submessage? {
      ProjectsToItself(l.fields, v.slots);
    }
  }

  lemma {:induction false} SlotProjectsToItself(f: Field, s: Slot)
    requires TagOK(f) && SlotOK(f, s)
    ensures ProjectSlot(f, f, s) == s
    decreases f
  {
    hide ValueOK, ProjectValue;
    match s
    case Plain(v) => ValueProjectsToItself(f.l, v);
    case Opt(_, v) => ValueProjectsToItself(f.l, v);
    case Rep(items) =>
      forall v | v in items ensures ProjectValue(f.l, f.l, v) == v { ValueProjectsToItself(f.l, v); }
      assert ProjectItems(f.l, f.l, items) == items;
    case Arm(chosen) => if chosen.Some? { ValueProjectsToItself(f.l, chosen.value); }
  }

  /** Decoding an encoded message under its own descriptor succeeds exactly when every string that
      was sent is shorter than its buffer, and gives the message in normal form. */
  lemma RoundTripTheorem(D: seq<Field>, m: seq<Slot>)
    requires WellFormed(D) && MessageOK(D, m) && Encodable(D, m) && |EncTo(D, m, |D|)| < TWO32
    ensures Decode(D, Enc(D, m)) == if StringsFit(D, D, m) then Some(Normal(D, m)) else None
  {
    hide WellFormed, MessageOK, Encodable, StringsFit, Normal, Project, DecodeNoinit, EncTo, TagsOK, Reads;
    WellFormedTags(D);
    ReadsItself(D);
    ProjectsToItself(D, m);
    ProjectionTheorem(D, D, m);
  }

  /** One required string field with room for a single byte, its terminator. */
  const ONE_STRING: seq<Field> := [Field(1, Required, String(1), VBytes([]))]

  const FULL_STRING: seq<Slot> := [Plain(VBytes([65]))]

  lemma FullStringBytes()
    ensures Enc(ONE_STRING, FULL_STRING) == [10, 1, 65]
  {
    var f, s := ONE_STRING[0], FULL_STRING[0];
    assert Varint.EncodeVarint(10) == [10] && Varint.EncodeVarint(1) == [1];
    assert EncItem(f, VBytes([65])) == [10] + ([1] + [65]);
    assert EncItems(f, [VBytes([65])], 1) == EncItems(f, [VBytes([65])], 0) + EncItem(f, VBytes([65]));
    assert EncField(f, s) == EncItems(f, [VBytes([65])], 1);
    assert EncTo(ONE_STRING, FULL_STRING, 0) == [];
  }

  lemma FullStringIsLegal()
    ensures WellFormed(ONE_STRING) && MessageOK(ONE_STRING, FULL_STRING) && Encodable(ONE_STRING, FULL_STRING)
    ensures !StringsFit(ONE_STRING, ONE_STRING, FULL_STRING)
  {
    var D, v := ONE_STRING, VBytes([65]);
    assert Payload(D[0], FULL_STRING[0]) == [v] && v in Payload(D[0], FULL_STRING[0]);
    assert Find(D, 1) == Some(0);
    assert !SlotStringsFit(D[0], D[0], FULL_STRING[0]);
  }

  /** A string that fills its buffer: the message is one the descriptor allows and the encoder
      accepts, and what it writes does not decode. */
  lemma FullStringIsLost()
    ensures WellFormed(ONE_STRING) && MessageOK(ONE_STRING, FULL_STRING) && Encodable(ONE_STRING, FULL_STRING)
    ensures Enc(ONE_STRING, FULL_STRING) == [10, 1, 65] && Decode(ONE_STRING, [10, 1, 65]) == None
  {
    hide WellFormed, MessageOK, Encodable, StringsFit, Normal, DecodeNoinit;
    FullStringBytes();
    FullStringIsLegal();
    RoundTripTheorem(ONE_STRING, FULL_STRING);
  }

  // ----- decoding on top of what is already there -----

  /** Decoding into a struct that already holds a message combines the two, slot by slot, and fails
      exactly when an array overflows or a string fills its buffer. */
  lemma MergeTheorem(D': seq<Field>, base: seq<Slot>, D: seq<Field>, m: seq<Slot>)
    requires |base| == |D'| && WellFormed(D) && Reads(D', D) && MessageOK(D, m) && Encodable(D, m)
    requires |EncTo(D, m, |D|)| < TWO32
    ensures DecodeNoinit(D', base, Enc(D, m)) ==
            if HasRoom(D', base, D, m) then Some(Combine(D', base, D, m)) else None
  {
    hide WellFormed, Reads, MessageOK, Encodable, MergeMessage, Combine, HasRoom, DecodeNoinit, EncTo, TagsOK;
    WellFormedTags(D);
    MessageOKLength(D, m);
    MessageReadsBack(D', base, D, m);
    MergedMessage(D', base, D, m);
  }

  /** Two messages one after the other decode to the first with the second combined into it. */
  lemma ConcatenationTheorem(D: seq<Field>, a: seq<Slot>, b: seq<Slot>)
    requires WellFormed(D) && NoFixedCount(D)
    requires MessageOK(D, a) && Encodable(D, a) && MessageOK(D, b) && Encodable(D, b)
    requires |EncTo(D, a, |D|)| < TWO32 && |EncTo(D, b, |D|)| < TWO32
    requires StringsFit(D, D, a)
    ensures Decode(D, Enc(D, a) + Enc(D, b)) ==
            if HasRoom(D, Normal(D, a), D, b) then Some(Combine(D, Normal(D, a), D, b)) else None
  {
    hide WellFormed, NoFixedCount, Reads, MessageOK, Encodable, Combine, HasRoom, StringsFit, Normal, DecodeNoinit,
         EncTo, TagsOK, DecodeLoop;
    WellFormedTags(D);
    ReadsItself(D);
    MessageOKLength(D, a);
    MessageOKLength(D, b);
    var st := State(DefaultMessage(D), None, {});
    EndsCleanly(D, DefaultMessage(D), a);
    RoundTripTheorem(D, a);
    MergeTheorem(D, Normal(D, a), D, b);
    EndsCleanly(D, Normal(D, a), b);
    DecodeConcat(D, DefaultMessage(D), Enc(D, a), Enc(D, b));
    LoopMessage(D, DefaultMessage(D), Enc(D, a));
  }

  lemma LoopMessage(D: seq<Field>, m: seq<Slot>, x: seq<byte>)
    requires |m| == |D| && DecodeNoinit(D, m, x).Some?
    ensures var r := DecodeLoop(D, State(m, None, {}), x); !r.Failed? && DecodeNoinit(D, m, x) == Some(r.st.msg)
  {
  }

  /** The loop over an encoded message either fails or uses all of it. */
  lemma EndsCleanly(D: seq<Field>, base: seq<Slot>, m: seq<Slot>)
    requires |base| == |D| && TagsOK(D) && Reads(D, D) && MessageOK(D, m) && Encodable(D, m)
    requires |EncTo(D, m, |D|)| < TWO32
    ensures var r := DecodeLoop(D, State(base, None, {}), Enc(D, m));
      !r.AtZero? && (DecodeNoinit(D, base, Enc(D, m)).Some? <==> r.AtEnd?)
  {
    MessageOKLength(D, m);
    hide MergeTo, EncTo, MessageOK, Encodable, TagsOK, Reads;
    var st := State(base, None, {});
    assert EncTo(D, m, |D|) + [] == EncTo(D, m, |D|);
    PrefixReadsBack(D, st, D, m, |D|, []);
    var r := MergeTo(D, st, D, m, |D|);
    if r.Some? {
      assert DecodeLoop(D, r.value, []) == AtEnd(r.value);
      AllAreSeen(D, st, D, m);
    }
  }

  // ----- encoding is canonical -----

  lemma {:induction false} NormalIsDefaultToo(l: LType, v: Value)
    requires ValueOK(l, v)
    ensures IsDefaultValue(l, NormalValue(l, v)) <==> IsDefaultValue(l, v)
    decreases l, 0
  {
    if l.Submessage? {
      forall i | 0 <= i < |l.fields|
        ensures IsDefaultField(l.fields[i], NormalSlot(l.fields[i], v.slots[i])) <==>
                IsDefaultField(l.fields[i], v.slots[i])
      {
        assert SlotOK(l.fields[i], v.slots[i]);
        NormalSlotIsDefaultToo(l.fields[i], v.slots[i]);
      }
    }
  }

  lemma {:induction false} NormalSlotIsDefaultToo(f: Field, s: Slot)
    requires SlotOK(f, s)
    ensures IsDefaultField(f, NormalSlot(f, s)) <==> IsDefaultField(f, s)
    decreases f
  {
    hide ValueOK, IsDefaultValue, NormalValue;
    if f.h.Singular? {
      NormalIsDefaultToo(f.l, s.v);
    }
  }

  /** Bringing a message into normal form does not change its bytes. */
  lemma {:induction false} NormalSameBytes(D: seq<Field>, m: seq<Slot>, n: nat)
    requires MessageOK(D, m) && n <= |D|
    ensures EncTo(D, Normal(D, m), n) == EncTo(D, m, n)
    decreases D, n
  {
    hide EncField, NormalSlot, SlotOK;
    if n > 0 {
      NormalSameBytes(D, m, n - 1);
      NormalSlotSameBytes(D[n - 1], m[n - 1]);
      hide MessageOK;
      assert Normal(D, m)[n - 1] == NormalSlot(D[n - 1], m[n - 1]);
    }
  }

  lemma {:induction false} NormalValueSameBytes(l: LType, v: Value)
    requires ValueOK(l, v)
    ensures EncValue(l, NormalValue(l, v)) == EncValue(l, v)
    decreases l
  {
    if l.Submessage? {
      MessageOKLength(l.fields, v.slots);
      NormalSameBytes(l.fields, v.slots, |l.fields|);
    }
  }

  lemma NormalPayload(f: Field, s: Slot)
    requires SlotOK(f, s)
    ensures Payload(f, NormalSlot(f, s)) == NormalItems(f.l, Payload(f, s))
  {
    hide ValueOK, IsDefaultValue, NormalValue, DefaultValue;
    if f.h.Singular? {
      NormalIsDefaultToo(f.l, s.v);
    }
  }

  lemma {:induction false} NormalItemsSameBytes(f: Field, vs: seq<Value>, n: nat)
    requires n <= |vs| && forall v :: v in vs ==> ValueOK(f.l, v)
    ensures EncItems(f, NormalItems(f.l, vs), n) == EncItems(f, vs, n)
    ensures EncPacked(f.l, NormalItems(f.l, vs), n) == EncPacked(f.l, vs, n)
    decreases f, n
  {
    hide EncValue, EncTag, NormalValue;
    if n > 0 {
      NormalItemsSameBytes(f, vs, n - 1);
      NormalValueSameBytes(f.l, vs[n - 1]);
    }
  }

  lemma {:induction false} NormalSlotSameBytes(f: Field, s: Slot)
    requires SlotOK(f, s)
    ensures EncField(f, NormalSlot(f, s)) == EncField(f, s)
    decreases f
  {
    hide EncItems, EncPacked, NormalSlot, Payload, NormalItems, SlotOK;
    NormalPayload(f, s);
    PayloadTyped(f, s);
    NormalItemsSameBytes(f, Payload(f, s), |Payload(f, s)|);
    NormalItemsLength(f.l, Payload(f, s));
  }

  lemma NormalItemsLength(l: LType, vs: seq<Value>)
    ensures |NormalItems(l, vs)| == |vs|
  {
  }

  /** Two messages have the same bytes exactly when they are the same up to what is not sent. */
  lemma SameBytesSameMessage(D: seq<Field>, a: seq<Slot>, b: seq<Slot>)
    requires WellFormed(D) && MessageOK(D, a) && Encodable(D, a) && MessageOK(D, b) && Encodable(D, b)
    requires |EncTo(D, a, |D|)| < TWO32 && StringsFit(D, D, a) && StringsFit(D, D, b)
    ensures Enc(D, a) == Enc(D, b) <==> Normal(D, a) == Normal(D, b)
  {
    hide WellFormed, MessageOK, Encodable, StringsFit, Normal, EncTo, DecodeNoinit;
    MessageOKLength(D, a);
    MessageOKLength(D, b);
    NormalSameBytes(D, a, |D|);
    NormalSameBytes(D, b, |D|);
    RoundTripTheorem(D, a);
    if Enc(D, a) == Enc(D, b) {
      RoundTripTheorem(D, b);
    }
  }
}
