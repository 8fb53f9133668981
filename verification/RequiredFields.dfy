/** A decode succeeds only if each of the first 64 required fields occurred. */
module RequiredFields {
  import opened Options
  import opened Bits
  import opened Varint
  import opened Descriptors
  import opened Encoding
  import opened Decoding
  import opened ReadBack

  /** The tags the loop comes across, in order. */
  function TagsRead(D: seq<Field>, st: State, bytes: seq<byte>): seq<nat>
    requires |st.msg| == |D|
    decreases |bytes|
  {
    if bytes == [] then []
    else
      match DecodeTag(bytes)
      case BadTag => []
      case EndTag => []
      case FieldTag(tag, wt, rest) =>
        match Step(D, st, tag, wt, rest)
        case Bad => [tag]
        case Good(st', rest') => [tag] + TagsRead(D, st', rest')
  }

  function NewlySeen(D: seq<Field>, tag: nat): set<nat> {
    match Find(D, tag)
    case None => {}
    case Some(j) =>
      if D[j].h.Required? && RequiredIndex(D, j) < MAX_REQUIRED then {RequiredIndex(D, j)} else {}
  }

  lemma StepSees(D: seq<Field>, st: State, tag: nat, wt: nat, bytes: seq<byte>)
    requires |st.msg| == |D|
    ensures var p := Step(D, st, tag, wt, bytes);
      p.Good? ==> p.value.seen == st.seen + NewlySeen(D, tag)
  {
    hide SkipUnknown, TakeString, DecPacked, DecValue, Assign;
  }

  /** The record of seen indices holds exactly those whose field's tag was read. */
  lemma {:induction false} SeenIsRead(D: seq<Field>, st: State, bytes: seq<byte>, j: nat)
    requires |st.msg| == |D| && Distinct(D) && j < |D| && D[j].h.Required? && RequiredIndex(D, j) < MAX_REQUIRED
    ensures var r := DecodeLoop(D, st, bytes);
      !r.Failed? ==> (RequiredIndex(D, j) in r.st.seen <==>
                      RequiredIndex(D, j) in st.seen || D[j].tag in TagsRead(D, st, bytes))
    decreases |bytes|
  {
    hide Step, RequiredIndex;
    if bytes != [] {
      var t := DecodeTag(bytes);
      if t.FieldTag? {
        StepSees(D, st, t.tag, t.wt, t.rest);
        var p := Step(D, st, t.tag, t.wt, t.rest);
        if p.Good? {
          SeenIsRead(D, p.value, p.rest, j);
          assert TagsRead(D, st, bytes) == [t.tag] + TagsRead(D, p.value, p.rest);
          if Find(D, t.tag).Some? && D[Find(D, t.tag).value].h.Required? {
            SameIndex(D, Find(D, t.tag).value, j);
          }
          assert t.tag == D[j].tag ==> Find(D, t.tag) == Some(j);
        }
      }
    }
  }

  lemma SameIndex(D: seq<Field>, i: nat, j: nat)
    requires i < |D| && j < |D| && D[i].h.Required? && D[j].h.Required?
    ensures RequiredIndex(D, i) == RequiredIndex(D, j) <==> i == j
  {
    if i < j {
      IndexGrows(D, i, j);
    } else if j < i {
      IndexGrows(D, j, i);
    }
  }

  /** Exactly when a decode succeeds: the loop did not fail, the last fixed-count array was complete,
      and every required field, up to the 64th, was read. */
  lemma SuccessNeedsRequired(D: seq<Field>, m: seq<Slot>, bytes: seq<byte>)
    requires |m| == |D| && Distinct(D)
    ensures var st := State(m, None, {});
      var r := DecodeLoop(D, st, bytes);
      DecodeNoinit(D, m, bytes).Some? <==>
        !r.Failed? && Complete(D, r.st)
        && forall j :: 0 <= j < |D| && D[j].h.Required? && RequiredIndex(D, j) < MAX_REQUIRED ==>
             D[j].tag in TagsRead(D, st, bytes)
  {
    hide DecodeLoop, TagsRead, RequiredIndex, Distinct, AllSeen, Complete;
    var st := State(m, None, {});
    var r := DecodeLoop(D, st, bytes);
    if !r.Failed? {
      forall j | 0 <= j < |D| && D[j].h.Required? && RequiredIndex(D, j) < MAX_REQUIRED
        ensures RequiredIndex(D, j) in r.st.seen <==> D[j].tag in TagsRead(D, st, bytes)
      {
        SeenIsRead(D, st, bytes, j);
      }
      AllSeenByField(D, r.st.seen);
    }
  }

  ghost predicate EachSeen(D: seq<Field>, seen: set<nat>) {
    forall j :: 0 <= j < |D| && D[j].h.Required? && RequiredIndex(D, j) < MAX_REQUIRED ==> RequiredIndex(D, j) in seen
  }

  lemma AllSeenByField(D: seq<Field>, seen: set<nat>)
    ensures AllSeen(D, seen) <==> EachSeen(D, seen)
  {
    hide RequiredIndex;
    if AllSeen(D, seen) {
      forall j | 0 <= j < |D| && D[j].h.Required? && RequiredIndex(D, j) < MAX_REQUIRED
        ensures RequiredIndex(D, j) in seen
      {
        IndexGrows(D, j, |D|);
      }
    }
    if EachSeen(D, seen) {
      forall k: nat | k < RequiredIndex(D, |D|) && k < MAX_REQUIRED ensures k in seen {
        var j := RequiredAt(D, |D|, k);
      }
    }
  }
}
