/** What it means for a reader with one descriptor to take in a message written under another:
    fields the reader knows are merged into its struct, the others are passed over. */
module Merging {
  import opened Options
  import opened Bits
  import opened Descriptors
  import opened Encoding
  import opened Decoding
  import opened Scalars

  // ----- which descriptors can read which -----

  /** Types that share a wire form: the same scalar, or submessages that can be read in turn. */
  ghost predicate CompatibleType(l': LType, l: LType)
    decreases l
  {
    if l.Submessage? then l'.Submessage? && Reads(l'.fields, l.fields) else l' == l
  }

  ghost predicate CompatibleField(f': Field, f: Field)
    decreases f
  {
    f'.h == f.h && CompatibleType(f'.l, f.l)
  }

  /** Every tag the two descriptors share has a compatible field, and whatever the reader requires
      is something the writer sends.  The reader may lack fields of the writer, and have others. */
  ghost predicate Reads(D': seq<Field>, D: seq<Field>)
    decreases D
  {
    && Distinct(D')
    && (forall i :: 0 <= i < |D| && Find(D', D[i].tag).Some? ==>
          CompatibleField(D'[Find(D', D[i].tag).value], D[i]))
    && forall j :: 0 <= j < |D'| && D'[j].h.Required? ==> Find(D, D'[j].tag).Some?
  }

  // ----- merging -----

  function MergeValue(l': LType, base: Value, l: LType, v: Value): Option<Value>
    decreases l, 0
  {
    if l.Submessage? then
      if l'.Submessage? && v.VMsg? && |v.slots| == |l.fields| then
        var m := MergeMessage(l'.fields, SubMessage(l'.fields, base), l.fields, v.slots);
        if m.Some? then Some(VMsg(m.value)) else None
      else None
    else if FitsBuffer(l, v) then Some(v) else None
  }

  function MergeItem(D': seq<Field>, st: State, j: nat, l: LType, v: Value): (r: Option<State>)
    requires |st.msg| == |D'| && j < |D'|
    ensures r.Some? ==> |r.value.msg| == |D'|
    decreases l, 1
  {
    if !Room(D'[j], st.msg[j]) then None
    else
      var x := MergeValue(D'[j].l, Base(D'[j], st.msg[j]), l, v);
      if x.None? then None else Some(st.(msg := Assign(D', st.msg, j, x.value)))
  }

  function MergeItems(D': seq<Field>, st: State, j: nat, l: LType, vs: seq<Value>, n: nat): (r: Option<State>)
    requires |st.msg| == |D'| && j < |D'| && n <= |vs|
    ensures r.Some? ==> |r.value.msg| == |D'|
    decreases l, 2, n
  {
    if n == 0 then Some(st)
    else
      var s := MergeItems(D', st, j, l, vs, n - 1);
      if s.None? then None else MergeItem(D', s.value, j, l, vs[n - 1])
  }

  function MergeField(D': seq<Field>, st: State, f: Field, s: Slot): (r: Option<State>)
    requires |st.msg| == |D'|
    ensures r.Some? ==> |r.value.msg| == |D'|
    decreases f
  {
    var vs := Payload(f, s);
    match Find(D', f.tag)
    case None => Some(st)
    case Some(j) => if vs == [] then Some(st) else MergeItems(D', Enter(D', st, j), j, f.l, vs, |vs|)
  }

  /** The first `n` fields of `m`, taken in one after the other. */
  function MergeTo(D': seq<Field>, st: State, D: seq<Field>, m: seq<Slot>, n: nat): (r: Option<State>)
    requires |st.msg| == |D'| && |m| == |D| && n <= |D|
    ensures r.Some? ==> |r.value.msg| == |D'|
    decreases D, n
  {
    if n == 0 then Some(st)
    else
      var s := MergeTo(D', st, D, m, n - 1);
      if s.None? then None else MergeField(D', s.value, D[n - 1], m[n - 1])
  }

  function MergeMessage(D': seq<Field>, base: seq<Slot>, D: seq<Field>, m: seq<Slot>): (r: Option<seq<Slot>>)
    requires |base| == |D'| && |m| == |D|
    ensures r.Some? ==> |r.value| == |D'|
    decreases D
  {
    var s := MergeTo(D', State(base, None, {}), D, m, |D|);
    if s.None? then None else Some(s.value.msg)
  }
}
