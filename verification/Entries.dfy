/** Entries of the store, and what it means to read a set of them at a sequence number.

    A memtable, a table file and a level are all finite sets of entries here.  A user key
    is its rank under the user comparator, so the order of `int` is the comparator's order.
 */
module Entries {
  import opened Options

  type Key = int

  datatype Kind = Deletion | Value

  datatype Entry = Entry(key: Key, seqno: nat, kind: Kind, value: string)

  datatype Answer = NotFound | Found(value: string)

  predicate Matches(e: Entry, k: Key, s: nat) {
    e.key == k && e.seqno <= s
  }

  ghost predicate HasMatch(E: set<Entry>, k: Key, s: nat) {
    exists e :: e in E && Matches(e, k, s)
  }

  ghost predicate IsNewest(E: set<Entry>, k: Key, s: nat, e: Entry) {
    && e in E && Matches(e, k, s)
    && forall x :: x in E && Matches(x, k, s) ==> x.seqno <= e.seqno
  }

  /** No two entries carry the same sequence number. */
  ghost predicate UniqueSeq(E: set<Entry>) {
    forall a, b :: a in E && b in E && a.seqno == b.seqno ==> a == b
  }

  lemma {:induction false} NewestExists(E: set<Entry>, k: Key, s: nat)
    requires HasMatch(E, k, s)
    ensures exists e :: IsNewest(E, k, s, e)
    decreases E
  {
    var a :| a in E && Matches(a, k, s);
    if exists b :: b in E && Matches(b, k, s) && b.seqno > a.seqno {
      var b :| b in E && Matches(b, k, s) && b.seqno > a.seqno;
      assert b in E - {a};
      NewestExists(E - {a}, k, s);
      var e :| IsNewest(E - {a}, k, s, e);
      assert IsNewest(E, k, s, e);
    } else {
      assert IsNewest(E, k, s, a);
    }
  }

  ghost function Newest(E: set<Entry>, k: Key, s: nat): (e: Entry)
    requires HasMatch(E, k, s)
    ensures IsNewest(E, k, s, e)
  {
    NewestExists(E, k, s);
    var e :| IsNewest(E, k, s, e);
    e
  }

  function AnswerOf(e: Entry): Answer {
    if e.kind == Deletion then NotFound else Found(e.value)
  }

  /** What a reader at sequence number `s` learns about `k` from the entries `E`. */
  ghost function Read(E: set<Entry>, k: Key, s: nat): Answer {
    if HasMatch(E, k, s) then AnswerOf(Newest(E, k, s)) else NotFound
  }

  lemma ReadIs(E: set<Entry>, k: Key, s: nat, e: Entry)
    requires UniqueSeq(E) && IsNewest(E, k, s, e)
    ensures Read(E, k, s) == AnswerOf(e)
  {
    var n := Newest(E, k, s);
    assert n.seqno == e.seqno;
  }

  /** Entries newer than `s` do not matter to a reader at `s`. */
  lemma ReadIgnoresNewer(E: set<Entry>, F: set<Entry>, k: Key, s: nat)
    requires UniqueSeq(F) && E <= F
    requires forall e :: e in F - E ==> e.seqno > s
    ensures Read(F, k, s) == Read(E, k, s)
  {
    assert forall e :: e in F && Matches(e, k, s) ==> e in E;
    if HasMatch(E, k, s) {
      var n := Newest(E, k, s);
      assert IsNewest(F, k, s, n);
      ReadIs(F, k, s, n);
    }
  }

  // ----- what may be missing from a set of entries without a reader noticing -----

  /** A newer entry for the same key, itself at or below `lo`, hides `h`. */
  ghost predicate Shadowed(H: set<Entry>, h: Entry, lo: nat) {
    exists n :: n in H && n.key == h.key && h.seqno < n.seqno <= lo
  }

  /** `h` is a tombstone at or below `lo` with nothing older left behind it in `E`. */
  ghost predicate BareTombstone(E: set<Entry>, h: Entry, lo: nat) {
    && h.kind == Deletion && h.seqno <= lo
    && forall e :: e in E && e.key == h.key ==> e.seqno > h.seqno
  }

  /** `E` stands for the history `H` to every reader at a sequence number in [lo, hi]. */
  ghost predicate Cover(E: set<Entry>, H: set<Entry>, lo: nat, hi: nat) {
    && (forall e :: e in E && e.seqno <= hi ==> e in H)
    && (forall h :: h in H && h !in E && h.seqno <= hi ==> Shadowed(H, h, lo) || BareTombstone(E, h, lo))
  }

  lemma CoverRead(E: set<Entry>, H: set<Entry>, lo: nat, hi: nat, k: Key, s: nat)
    requires UniqueSeq(E) && UniqueSeq(H) && Cover(E, H, lo, hi) && lo <= s <= hi
    ensures Read(E, k, s) == Read(H, k, s)
  {
    assert forall e :: e in E && Matches(e, k, s) ==> e in H;
    if HasMatch(H, k, s) {
      var h := Newest(H, k, s);
      assert !Shadowed(H, h, lo);
      if h in E {
        assert IsNewest(E, k, s, h);
        ReadIs(E, k, s, h);
      }
    }
  }
}
