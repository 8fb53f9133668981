/** Decoding a concatenation is decoding its parts one after the other into the same struct. */
module Concatenation {
  import opened Options
  import opened Bits
  import opened Varint
  import opened Descriptors
  import opened Encoding
  import opened Decoding

  /** `p` with more bytes behind the ones it left. */
  function Longer<T>(p: Parsed<T>, y: seq<byte>): Parsed<T> {
    match p
    case Bad => Bad
    case Good(v, rest) => Good(v, rest + y)
  }

  // ----- no reader looks past what it consumes -----

  lemma Tail(x: seq<byte>, y: seq<byte>)
    requires x != []
    ensures x + y != [] && (x + y)[0] == x[0] && (x + y)[1..] == x[1..] + y
  {
  }

  lemma {:induction false} VarintLoopStable(x: seq<byte>, bitpos: nat, result: nat, y: seq<byte>)
    requires VarintLoop(x, bitpos, result).Good?
    ensures VarintLoop(x + y, bitpos, result) == Longer(VarintLoop(x, bitpos, result), y)
    decreases |x|
  {
    Tail(x, y);
    if x[0] >= 128 {
      VarintLoopStable(x[1..], bitpos + 7, Or(result, (x[0] % 128 * Pow2(bitpos)) % TWO64), y);
    }
  }

  lemma {:induction false} Varint32LoopStable(x: seq<byte>, bitpos: nat, result: nat, y: seq<byte>)
    requires Varint32Loop(x, bitpos, result).Good?
    ensures Varint32Loop(x + y, bitpos, result) == Longer(Varint32Loop(x, bitpos, result), y)
    decreases |x|
  {
    Tail(x, y);
    if x[0] >= 128 {
      var r := if bitpos >= 32 then result else Or(result, (x[0] % 128 * Pow2(bitpos)) % TWO32);
      Varint32LoopStable(x[1..], (bitpos + 7) % 256, r, y);
    }
  }

  lemma Varint32Stable(x: seq<byte>, y: seq<byte>)
    requires DecodeVarint32(x).Good?
    ensures DecodeVarint32(x + y) == Longer(DecodeVarint32(x), y)
  {
    hide Varint32Loop;
    Tail(x, y);
    if x[0] >= 128 {
      Varint32LoopStable(x[1..], 7, x[0] % 128, y);
    }
  }

  lemma {:induction false} SkipVarintStable(x: seq<byte>, y: seq<byte>)
    requires SkipVarint(x).Good?
    ensures SkipVarint(x + y) == Longer(SkipVarint(x), y)
  {
    Tail(x, y);
    if x[0] >= 128 {
      SkipVarintStable(x[1..], y);
    }
  }

  lemma TakeStable(n: nat, x: seq<byte>, y: seq<byte>)
    requires Take(n, x).Good?
    ensures Take(n, x + y) == Longer(Take(n, x), y)
  {
    assert (x + y)[..n] == x[..n] && (x + y)[n..] == x[n..] + y;
  }

  lemma TakeStringStable(x: seq<byte>, y: seq<byte>)
    requires TakeString(x).Good?
    ensures TakeString(x + y) == Longer(TakeString(x), y)
  {
    hide DecodeVarint32, Take;
    Varint32Stable(x, y);
    TakeStable(DecodeVarint32(x).value, DecodeVarint32(x).rest, y);
  }

  lemma ScalarStable(l: LType, x: seq<byte>, y: seq<byte>)
    requires DecScalar(l, x).Good?
    ensures DecScalar(l, x + y) == Longer(DecScalar(l, x), y)
  {
    hide DecodeVarint32, Take, TakeString, VarintLoop, IntOf, StringOf;
    if l.Bool? {
      Varint32Stable(x, y);
    } else if l.Fixed32? || l.Fixed64? {
      TakeStable(if l.Fixed32? then 4 else 8, x, y);
    } else if l.Int? || l.UInt? || l.SInt? {
      VarintLoopStable(x, 0, 0, y);
    } else {
      TakeStringStable(x, y);
    }
  }

  lemma SkipStable(D: seq<Field>, tag: nat, wt: nat, x: seq<byte>, y: seq<byte>)
    requires SkipUnknown(D, tag, wt, x).Good?
    ensures SkipUnknown(D, tag, wt, x + y) == Longer(SkipUnknown(D, tag, wt, x), y)
  {
    hide DecodeVarint32, SkipVarint, Take, TakeString;
    if D == [] && tag == 0 {
      Varint32Stable(x, y);
    } else if wt == WT_VARINT {
      SkipVarintStable(x, y);
    } else if wt == WT_STRING {
      TakeStringStable(x, y);
    } else {
      TakeStable(if wt == WT_64BIT then 8 else 4, x, y);
    }
  }

  lemma ValueStable(l: LType, base: Value, x: seq<byte>, y: seq<byte>)
    requires DecValue(l, base, x).Good?
    ensures DecValue(l, base, x + y) == Longer(DecValue(l, base, x), y)
  {
    hide DecodeNoinit, TakeString, DecScalar;
    if l.Submessage? {
      TakeStringStable(x, y);
    } else {
      ScalarStable(l, x, y);
    }
  }

  lemma StepStable(D: seq<Field>, st: State, tag: nat, wt: nat, x: seq<byte>, y: seq<byte>)
    requires |st.msg| == |D| && Step(D, st, tag, wt, x).Good?
    ensures Step(D, st, tag, wt, x + y) == Longer(Step(D, st, tag, wt, x), y)
  {
    hide SkipUnknown, TakeString, DecPacked, DecValue, Enter, Assign, Complete;
    match Find(D, tag)
    case None => SkipStable(D, tag, wt, x, y);
    case Some(j) =>
      if wt == WT_STRING && Packs(D[j]) {
        TakeStringStable(x, y);
      } else {
        ValueStable(D[j].l, Base(D[j], Enter(D, st, j).msg[j]), x, y);
      }
  }

  /** After `x` has been decoded to its end, the loop goes on with whatever follows. */
  lemma {:induction false} LoopConcat(D: seq<Field>, st: State, x: seq<byte>, y: seq<byte>)
    requires |st.msg| == |D| && DecodeLoop(D, st, x).AtEnd?
    ensures DecodeLoop(D, st, x + y) == DecodeLoop(D, DecodeLoop(D, st, x).st, y)
    decreases |x|
  {
    hide DecodeVarint32, Step;
    if x == [] {
      assert x + y == y;
    } else {
      Varint32Stable(x, y);
      var t := DecodeTag(x);
      StepStable(D, st, t.tag, t.wt, t.rest, y);
      var p := Step(D, st, t.tag, t.wt, t.rest);
      LoopConcat(D, p.value, p.rest, y);
    }
  }

  // ----- what was seen before does not matter to what is decoded next -----

  function SeenToo(st: State, more: set<nat>): State {
    st.(seen := st.seen + more)
  }

  function EndingSeenToo(r: Ending, more: set<nat>): Ending {
    match r
    case Failed => Failed
    case AtEnd(st) => AtEnd(SeenToo(st, more))
    case AtZero(st) => AtZero(SeenToo(st, more))
  }

  lemma StepSeen(D: seq<Field>, st: State, more: set<nat>, tag: nat, wt: nat, x: seq<byte>)
    requires |st.msg| == |D|
    ensures var p, q := Step(D, st, tag, wt, x), Step(D, SeenToo(st, more), tag, wt, x);
      q == match p case Bad => Bad case Good(st', rest) => Good(SeenToo(st', more), rest)
  {
    hide SkipUnknown, TakeString, DecPacked, DecValue, Assign;
    match Find(D, tag)
    case None =>
    case Some(j) =>
      assert Enter(D, SeenToo(st, more), j) == SeenToo(Enter(D, st, j), more) by {
        var k := {RequiredIndex(D, j)};
        assert (st.seen + k) + more == (st.seen + more) + k;
      }
  }

  lemma {:induction false} LoopSeen(D: seq<Field>, st: State, more: set<nat>, x: seq<byte>)
    requires |st.msg| == |D|
    ensures DecodeLoop(D, SeenToo(st, more), x) == EndingSeenToo(DecodeLoop(D, st, x), more)
    decreases |x|
  {
    hide Step;
    if x != [] {
      var t := DecodeTag(x);
      if t.FieldTag? {
        StepSeen(D, st, more, t.tag, t.wt, t.rest);
        var p := Step(D, st, t.tag, t.wt, t.rest);
        if p.Good? {
          LoopSeen(D, p.value, more, p.rest);
        }
      }
    }
  }

  ghost predicate NoFixedCount(D: seq<Field>) {
    forall i :: 0 <= i < |D| ==> !D[i].h.FixedCount?
  }

  ghost predicate NoRequired(D: seq<Field>) {
    forall i :: 0 <= i < |D| ==> !D[i].h.Required?
  }

  lemma StepKeepsTrack(D: seq<Field>, st: State, tag: nat, wt: nat, x: seq<byte>)
    requires |st.msg| == |D| && NoFixedCount(D)
    ensures var p := Step(D, st, tag, wt, x); p.Good? ==> p.value.track == st.track
  {
    hide SkipUnknown, TakeString, DecPacked, DecValue, Assign;
  }

  lemma {:induction false} LoopKeepsTrack(D: seq<Field>, st: State, x: seq<byte>)
    requires |st.msg| == |D| && NoFixedCount(D)
    ensures var r := DecodeLoop(D, st, x); !r.Failed? ==> r.st.track == st.track
    decreases |x|
  {
    hide Step, NoFixedCount;
    if x != [] {
      var t := DecodeTag(x);
      if t.FieldTag? {
        StepKeepsTrack(D, st, t.tag, t.wt, t.rest);
        var p := Step(D, st, t.tag, t.wt, t.rest);
        if p.Good? {
          LoopKeepsTrack(D, p.value, p.rest);
        }
      }
    }
  }

  lemma {:induction false} NoneRequired(D: seq<Field>, j: nat)
    requires j <= |D| && NoRequired(D)
    ensures RequiredIndex(D, j) == 0
  {
    if j > 0 {
      NoneRequired(D, j - 1);
    }
  }

  /** Decoding `x + y` is decoding `x` and then `y` into the struct that `x` left, provided `x` is
      made of whole fields with non-zero tags.  Where nothing is required the two agree in
      failure too; a required field may come from either part. */
  lemma DecodeConcat(D: seq<Field>, m: seq<Slot>, x: seq<byte>, y: seq<byte>)
    requires |m| == |D| && NoFixedCount(D) && DecodeLoop(D, State(m, None, {}), x).AtEnd?
    ensures var m' := DecodeLoop(D, State(m, None, {}), x).st.msg;
      && (DecodeNoinit(D, m', y).Some? ==> DecodeNoinit(D, m, x + y) == DecodeNoinit(D, m', y))
      && (DecodeLoop(D, State(m', None, {}), y).Failed? ==> DecodeNoinit(D, m, x + y) == None)
      && (NoRequired(D) ==>
            DecodeNoinit(D, m, x) == Some(m') && DecodeNoinit(D, m, x + y) == DecodeNoinit(D, m', y))
  {
    hide DecodeLoop;
    var st := State(m, None, {});
    var mid := DecodeLoop(D, st, x).st;
    LoopConcat(D, st, x, y);
    LoopKeepsTrack(D, st, x);
    var start := State(mid.msg, None, {});
    assert mid == SeenToo(start, mid.seen);
    LoopSeen(D, start, mid.seen, y);
    LoopKeepsTrack(D, start, y);
    hide NoFixedCount;
    if NoRequired(D) {
      NoneRequired(D, |D|);
    }
  }
}
