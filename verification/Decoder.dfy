/** The decoder of pb_decode.c: substreams, the wrapping field cursor, the fixed-count tracker and
    the words of required-field bits, proved to compute the specified result. */
module Decoder {
  import opened Options
  import opened Bits
  import opened Varint
  import opened Descriptors
  import opened Encoding
  import opened Decoding
  import opened Merging
  import opened ReadBack
  import opened InputStream
  import opened SeenBits
  import Cursor

  // ----- the descriptor as a field table -----

  function KindOf(h: HType): Cursor.Kind {
    match h
    case Required => Cursor.Required
    case Optional => Cursor.Optional
    case Singular => Cursor.Optional
    case Repeated(_) => Cursor.Repeated
    case FixedCount(_) => Cursor.Repeated
    case OneOf(_) => Cursor.OneOf
  }

  /** The rows the cursor walks.  Values are kept in slots, so the offsets play no part here. */
  function TableOf(D: seq<Field>): (T: seq<Cursor.Row>)
    ensures |T| == |D|
  {
    seq(|D|, i requires 0 <= i < |D| => Cursor.Row(D[i].tag, KindOf(D[i].h), false, false, 0, 0, 0, 0))
  }

  lemma {:induction false} SameRequired(D: seq<Field>, i: nat)
    requires i <= |D|
    ensures Cursor.RequiredBefore(TableOf(D), i) == RequiredIndex(D, i)
  {
    if i > 0 {
      SameRequired(D, i - 1);
    }
  }

  /** Wherever the search starts, distinct tags leave it only one place to end. */
  lemma FoundIsFind(D: seq<Field>, tag: nat, pos: nat)
    requires Distinct(D) && pos < |D| && Cursor.Match(TableOf(D)[pos], tag)
    ensures Find(D, tag) == Some(pos)
  {
  }

  lemma NotFoundIsNone(D: seq<Field>, tag: nat)
    requires !exists i :: 0 <= i < |D| && Cursor.Match(TableOf(D)[i], tag)
    ensures Find(D, tag).None?
  {
    forall k | 0 <= k < |D| ensures D[k].tag != tag {
      assert !Cursor.Match(TableOf(D)[k], tag);
    }
  }

  // ----- values -----

  lemma ValueIs(l: LType, base: Value, bytes: seq<byte>)
    ensures DecValue(l, base, bytes) ==
            if !l.Submessage? then DecScalar(l, bytes)
            else
              match TakeString(bytes)
              case Bad => Bad
              case Good(sub, rest) =>
                var r := Decoding.DecodeNoinit(l.fields, SubMessage(l.fields, base), sub);
                if r.Some? then Good(VMsg(r.value), rest) else Bad
  {
    hide DecScalar, TakeString, Decoding.DecodeNoinit, SubMessage;
  }

  method DecodeValue(stream: IStream, l: LType, base: Value) returns (ok: bool, v: Value)
    requires stream.Valid() && TypeTagsOK(l)
    modifies stream`pos, stream`left
    ensures stream.Valid() && stream.End() <= old(stream.End()) && (ok ==> stream.End() == old(stream.End()))
    ensures match DecValue(l, base, old(stream.Rest()))
            case Bad => !ok
            case Good(x, rest) => ok && v == x && stream.Rest() == rest
    decreases l
  {
    ValueIs(l, base, stream.Rest());
    hide DecValue, DecScalar, TakeString, Decoding.DecodeNoinit, TagsOK;
    if !l.Submessage? {
      ok, v := ReadScalar(stream, l);
      return;
    }
    v := VBool(false);
    var sub;
    ok, sub := stream.MakeStringSubstream();
    if !ok {
      return;
    }
    var r;
    ok, r := DecodeFields(sub, l.fields, SubMessage(l.fields, base));
    stream.CloseStringSubstream(sub);
    v := VMsg(r);
  }

  /** A packed array: values until the substream or the array is used up. */
  method DecodePackedField(stream: IStream, D: seq<Field>, ghost st: State, msg: seq<Slot>, j: nat)
    returns (ok: bool, r: seq<Slot>)
    requires stream.Valid() && |msg| == |D| && st.msg == msg && j < |D| && Packs(D[j])
    modifies stream`pos, stream`left
    ensures stream.Valid() && stream.End() <= old(stream.End()) && (ok ==> stream.End() == old(stream.End()))
    ensures match DecPackedField(D, st, j, old(stream.Rest()))
            case Bad => !ok
            case Good(st', rest) => ok && r == st'.msg && stream.Rest() == rest
  {
    hide TakeString, DecScalar;
    r := msg;
    var l, limit, items, sub := D[j].l, Limit(D[j].h), Items(msg[j]), stream;
    ok, sub := stream.MakeStringSubstream();
    if !ok {
      return;
    }
    ghost var all, end, rest := sub.Rest(), sub.End(), stream.left;
    var status := true;
    while status && sub.left > 0 && |items| < limit
      invariant stream.Valid() && sub.Valid() && sub.End() == end && sub.buf == stream.buf && sub != stream
      invariant stream.left == rest && end + rest == old(stream.End()) && stream.pos <= end
      invariant status ==> DecPacked(l, items, limit, sub.Rest()) == DecPacked(l, Items(msg[j]), limit, all)
      invariant !status ==> DecPacked(l, Items(msg[j]), limit, all).Bad?
      decreases status, sub.left
    {
      var v;
      assert |sub.Rest()| == sub.left;
      status, v := ReadScalar(sub, l);
      if status {
        items := items + [v];
      }
    }
    if sub.left != 0 {
      return false, r;
    }
    stream.CloseStringSubstream(sub);
    r := msg[j := Rep(items)];
    ok := status;
  }

  /** decode_static_field for one value. */
  method DecodeItem(stream: IStream, D: seq<Field>, ghost st: State, msg: seq<Slot>, j: nat)
    returns (ok: bool, r: seq<Slot>)
    requires stream.Valid() && |msg| == |D| && st.msg == msg && j < |D| && TagOK(D[j])
    modifies stream`pos, stream`left
    ensures stream.Valid() && stream.End() <= old(stream.End()) && (ok ==> stream.End() == old(stream.End()))
    ensures match DecItem(D, st, j, old(stream.Rest()))
            case Bad => !ok
            case Good(st', rest) => ok && r == st'.msg && stream.Rest() == rest
    decreases D[j], 1
  {
    hide DecValue, Assign, Base, TagsOK;
    r := msg;
    if IsRepeated(D[j].h) && |Items(msg[j])| >= Limit(D[j].h) {
      return false, r;
    }
    var v;
    ok, v := DecodeValue(stream, D[j].l, Base(D[j], msg[j]));
    if ok {
      r := Assign(D, msg, j, v);
    }
  }

  // ----- the required-field words -----

  /** The two words hold exactly the seen indices. */
  ghost predicate Records(words: seq<nat>, seen: set<nat>) {
    && |words| == 2
    && forall k: nat :: k in seen <==> k < MAX_REQUIRED && Bit(words[k / 32], k % 32)
  }

  ghost predicate Narrow(words: seq<nat>) {
    forall i :: 0 <= i < |words| ==> NoneFrom(words[i], 32)
  }

  method MarkSeen(words: seq<nat>, k: nat, ghost seen: set<nat>) returns (r: seq<nat>)
    requires Records(words, seen) && Narrow(words) && k < MAX_REQUIRED
    ensures |r| == 2 && Records(r, seen + {k}) && Narrow(r)
  {
    var tmp := Pow2(k % 32);
    r := words[k / 32 := Or(words[k / 32], tmp)];
    hide Bit, Or, Pow2;
    forall i: nat, b: nat | i < 2
      ensures Bit(r[i], b) <==> Bit(words[i], b) || (i == k / 32 && b == k % 32)
    {
      SetBit(words[i], k % 32, b);
    }
    forall n: nat ensures n in seen + {k} <==> n < MAX_REQUIRED && Bit(r[n / 32], n % 32) {
      assert n == n / 32 * 32 + n % 32;
    }
  }

  /** The comparison of whole words, and of the remaining bits of the last one. */
  method CheckRequired(words: seq<nat>, count: nat, ghost seen: set<nat>) returns (ok: bool)
    requires Records(words, seen) && Narrow(words) && forall k :: k in seen ==> k < count
    ensures ok <==> forall k :: 0 <= k < count && k < MAX_REQUIRED ==> k in seen
  {
    var n := if count > MAX_REQUIRED then MAX_REQUIRED else count;
    for i := 0 to n / 32
      invariant forall k :: 0 <= k < 32 * i ==> k in seen
    {
      WholeWord(words, seen, i, 32);
      if words[i] != Pow2(32) - 1 {
        return false;
      }
    }
    if n % 32 != 0 {
      WholeWord(words, seen, n / 32, n % 32);
      if words[n / 32] != Pow2(n % 32) - 1 {
        return false;
      }
    }
    ok := true;
  }

  /** The first `bits` bits of word `i` are all set exactly when their indices were all seen. */
  lemma WholeWord(words: seq<nat>, seen: set<nat>, i: nat, bits: nat)
    requires Records(words, seen) && Narrow(words) && i < 2 && bits <= 32
    requires bits < 32 ==> forall k :: k in seen ==> k < 32 * i + bits
    ensures words[i] == Pow2(bits) - 1 <==> forall k :: 32 * i <= k < 32 * i + bits ==> k in seen
  {
    hide Bit, Pow2;
    forall b: nat ensures b < 32 ==> (Bit(words[i], b) <==> 32 * i + b in seen) {
      if b < 32 {
        assert (32 * i + b) / 32 == i && (32 * i + b) % 32 == b;
      }
    }
    assert NoneFrom(words[i], bits) by {
      forall b: nat | b >= bits ensures !Bit(words[i], b) {
        assert b < 32 ==> (Bit(words[i], b) <==> 32 * i + b in seen);
      }
    }
    AllOnes(words[i], bits);
    if AllBelow(words[i], bits) {
      forall k | 32 * i <= k < 32 * i + bits ensures k in seen {
        assert Bit(words[i], k - 32 * i);
      }
    }
  }

  // ----- the loop -----

  /** The variables of pb_decode_noinit, apart from the stream and the cursor. */
  datatype Progress = Progress(msg: seq<Slot>, fixedField: Option<nat>, fixedSize: nat, words: seq<nat>)

  ghost predicate Tracks(D: seq<Field>, p: Progress, st: State) {
    && |st.msg| == |D| && p.msg == st.msg && p.fixedField == st.track
    && (p.fixedField.Some? ==> p.fixedField.value < |D| && D[p.fixedField.value].h.FixedCount?
                               && p.fixedSize == |Items(p.msg[p.fixedField.value])|)
    && |p.words| == 2 && (D != [] ==> Records(p.words, st.seen) && Narrow(p.words))
    && (forall k :: k in st.seen ==> k < RequiredIndex(D, |D|))
  }

  /** The bookkeeping between finding a field and decoding its value. */
  method EnterField(D: seq<Field>, j: nat, required: nat, p: Progress, ghost st: State) returns (ok: bool, r: Progress)
    requires Tracks(D, p, st) && j < |D| && required == RequiredIndex(D, j)
    ensures ok == CanEnter(D, st, j) && (ok ==> Tracks(D, r, Enter(D, st, j)))
  {
    hide Records, Narrow, RequiredIndex;
    r := p;
    if D[j].h.FixedCount? && p.fixedField != Some(j) {
      if p.fixedField.Some? && p.fixedSize != D[p.fixedField.value].h.count {
        return false, p;
      }
      r := r.(fixedField := Some(j), fixedSize := 0, msg := r.msg[j := Rep([])]);
    }
    if D[j].h.Required? && required < MAX_REQUIRED {
      IndexGrows(D, j, |D|);
      var words := MarkSeen(p.words, required, st.seen);
      r := r.(words := words);
    }
    ok := true;
  }

  /** A found field: everything up to the next tag. */
  method DecodeField(stream: IStream, D: seq<Field>, j: nat, required: nat, wt: nat, p: Progress, ghost st: State,
                     ghost tag: nat) returns (ok: bool, r: Progress)
    requires stream.Valid() && Tracks(D, p, st) && TagsOK(D)
    requires Find(D, tag) == Some(j) && required == RequiredIndex(D, j)
    modifies stream`pos, stream`left
    ensures stream.Valid() && stream.End() <= old(stream.End()) && (ok ==> stream.End() == old(stream.End()))
    ensures match Step(D, st, tag, wt, old(stream.Rest()))
            case Bad => !ok
            case Good(st', rest) => ok && Tracks(D, r, st') && stream.Rest() == rest
    decreases D, 2
  {
    hide Records, Narrow, RequiredIndex, TagsOK;
    assert TagOK(D[j]) by { FieldTagOK(D, j); }
    hide TagOK, DecItem, DecPackedField, Enter, CanEnter;
    ghost var entered := Enter(D, st, j);
    ok, r := EnterField(D, j, required, p, st);
    if !ok {
      return;
    }
    var msg;
    if wt == WT_STRING && Packs(D[j]) {
      ok, msg := DecodePackedField(stream, D, entered, r.msg, j);
      PackedKeeps(D, entered, j, old(stream.Rest()));
    } else {
      ok, msg := DecodeItem(stream, D, entered, r.msg, j);
      ItemKeeps(D, entered, j, old(stream.Rest()));
    }
    if ok {
      if D[j].h.FixedCount? {
        EnteredTrack(D, st, j);
      }
      r := r.(msg := msg, fixedSize := if D[j].h.FixedCount? then |Items(msg[j])| else r.fixedSize);
    }
  }

  lemma FieldTagOK(D: seq<Field>, j: nat)
    requires TagsOK(D) && j < |D|
    ensures TagOK(D[j])
  {
  }

  lemma EnteredTrack(D: seq<Field>, st: State, j: nat)
    requires |st.msg| == |D| && j < |D| && D[j].h.FixedCount?
    ensures Enter(D, st, j).track == Some(j)
  {
  }

  /** Decoding a value of field `j` leaves everything else alone, but for other arms of a union. */
  ghost predicate Keeps(D: seq<Field>, a: State, j: nat, b: State)
    requires |a.msg| == |D| && |b.msg| == |D|
  {
    && b.track == a.track && b.seen == a.seen
    && forall i :: 0 <= i < |D| && i != j && !D[i].h.OneOf? ==> b.msg[i] == a.msg[i]
  }

  lemma PackedKeeps(D: seq<Field>, st: State, j: nat, bytes: seq<byte>)
    requires |st.msg| == |D| && j < |D| && Packs(D[j])
    ensures var r := DecPackedField(D, st, j, bytes); r.Good? ==> Keeps(D, st, j, r.value)
  {
    hide TakeString, DecPacked;
  }

  lemma ItemKeeps(D: seq<Field>, st: State, j: nat, bytes: seq<byte>)
    requires |st.msg| == |D| && j < |D|
    ensures var r := DecItem(D, st, j, bytes); r.Good? ==> Keeps(D, st, j, r.value)
  {
    hide DecValue;
  }

  method StartIter(D: seq<Field>) returns (iter: Cursor.FieldIter)
    requires TagsOK(D)
    ensures fresh(iter) && iter.Valid() && iter.table == TableOf(D)
  {
    forall i | 0 <= i < |D| ensures TableOf(D)[i].tag != 0 {
      assert TagOK(D[i]);
    }
    iter := new Cursor.FieldIter(TableOf(D));
  }

  lemma StartTracks(D: seq<Field>, m: seq<Slot>)
    requires |m| == |D|
    ensures Tracks(D, Progress(m, None, 0, [0, 0]), State(m, None, {}))
  {
    forall b: nat ensures !Bit(0, b) {
      NoBits(b);
    }
  }

  /** One field: found by the cursor and decoded, or skipped. */
  method DecodeOne(stream: IStream, D: seq<Field>, iter: Cursor.FieldIter, tag: nat, wt: nat, p: Progress,
                   ghost st: State) returns (ok: bool, r: Progress, ghost st': State)
    requires stream.Valid() && Tracks(D, p, st) && TagsOK(D) && iter.Valid() && iter.table == TableOf(D)
    modifies stream`pos, stream`left, iter
    ensures stream.Valid() && stream.End() <= old(stream.End()) && (ok ==> stream.End() == old(stream.End()))
    ensures iter.Valid()
    ensures match Step(D, st, tag, wt, old(stream.Rest()))
            case Bad => !ok
            case Good(s, rest) => ok && st' == s && Tracks(D, r, st') && stream.Rest() == rest
    decreases D, 3
  {
    assert |st.msg| == |D|;
    hide SkipField, DecodeVarint32, Tracks, TagOK, Find;
    r, st' := p, st;
    var found := iter.Find(tag);
    if !found {
      NotFoundIsNone(D, tag);
      ok := stream.Skip(wt);
    } else if D == [] {
      // the terminator of an empty table has matched; it decodes like a required bool
      TerminatorMatched(D, tag);
      assert |p.words| == 2 by { TwoWords(D, p, st); }
      var value, eof;
      ok, value, eof := stream.ReadVarint32();
      r := p.(words := p.words[0 := Or(p.words[0], 1)]);
      WordsOfEmpty(D, p, st, r.words);
    } else {
      FoundIsFind(D, tag, iter.pos);
      SameRequired(D, iter.pos);
      ok, r := DecodeField(stream, D, iter.pos, iter.required, wt, p, st, tag);
      st' := if ok then Step(D, st, tag, wt, old(stream.Rest())).value else st;
    }
  }

  /** The checks after the loop. */
  method FinishLoop(D: seq<Field>, iter: Cursor.FieldIter, p: Progress, ghost st: State) returns (ok: bool)
    requires Tracks(D, p, st) && iter.Valid() && iter.table == TableOf(D)
    modifies iter
    ensures ok == (Complete(D, st) && AllSeen(D, st.seen)) && p.msg == st.msg
  {
    hide Records, Narrow, RequiredIndex;
    if p.fixedField.Some? && p.fixedSize != D[p.fixedField.value].h.count {
      return false;
    }
    var count := iter.CountRequired();
    SameRequired(D, |D|);
    if D == [] {
      NothingRequired(D);
      return true;
    }
    ok := CheckRequired(p.words, count, st.seen);
  }

  lemma TwoWords(D: seq<Field>, p: Progress, st: State)
    requires Tracks(D, p, st)
    ensures |p.words| == 2
  {
  }

  lemma WordsOfEmpty(D: seq<Field>, p: Progress, st: State, words: seq<nat>)
    requires D == [] && Tracks(D, p, st) && |words| == 2
    ensures Tracks(D, p.(words := words), st)
  {
  }

  lemma NothingRequired(D: seq<Field>)
    requires D == []
    ensures RequiredIndex(D, |D|) == 0
  {
  }

  lemma TerminatorMatched(D: seq<Field>, tag: nat)
    requires D == []
    ensures Find(D, tag).None?
  {
  }

  /** pb_decode_noinit. */
  method DecodeFields(stream: IStream, D: seq<Field>, m: seq<Slot>) returns (ok: bool, msg: seq<Slot>)
    requires stream.Valid() && |m| == |D| && TagsOK(D)
    modifies stream`pos, stream`left
    ensures stream.Valid() && stream.End() <= old(stream.End()) && (ok ==> stream.End() == old(stream.End()))
    ensures match DecodeNoinit(D, m, old(stream.Rest())) case None => !ok case Some(r) => ok && msg == r
    decreases D, 4
  {
    hide DecodeTag, Step, Tracks, TagOK, AllSeen, Complete;
    var iter := StartIter(D);
    var p := Progress(m, None, 0, [0, 0]);
    ghost var st, end, start := State(m, None, {}), stream.End(), DecodeLoop(D, State(m, None, {}), stream.Rest());
    StartTracks(D, m);
    msg := m;
    var ended := false;
    while !ended && stream.left > 0
      invariant stream.Valid() && stream.End() == end && iter.Valid() && iter.table == TableOf(D) && fresh(iter)
      invariant |st.msg| == |D| && Tracks(D, p, st)
      invariant !ended ==> DecodeLoop(D, st, stream.Rest()) == start
      invariant ended ==> AtZero(st) == start
      decreases !ended, stream.left
    {
      ghost var before := stream.Rest();
      assert |before| == stream.left;
      var tag, wt, eof;
      ok, tag, wt, eof := stream.ReadTag();
      if !ok {
        if !eof {
          return;
        }
        ended := true;
      } else {
        ok, p, st := DecodeOne(stream, D, iter, tag, wt, p, st);
        if !ok {
          return;
        }
        assert |stream.Rest()| == stream.left;
      }
    }
    assert |stream.Rest()| == stream.left;
    msg := p.msg;
    ok := FinishLoop(D, iter, p, st);
  }
}
