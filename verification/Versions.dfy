/** Table files arranged in levels, and the layered lookup over them.

    A version maps a file number to a level and to the file's entries.  Reading stops at the
    first layer that knows the key: memtable, immutable memtable, level-0 files newest first,
    then one level after another.
 */
module Versions {
  import opened Options
  import opened Entries

  const NUM_LEVELS := 7
  const L0_COMPACTION_TRIGGER := 4
  const L0_SLOWDOWN := 8
  const L0_STOP := 12

  datatype Table = Table(level: nat, entries: set<Entry>)

  type Version = map<nat, Table>

  /** What one reader pins: two memtables and a version. */
  datatype View = View(mem: set<Entry>, imm: set<Entry>, version: Version)

  ghost function Contents(v: Version): set<Entry> {
    set n, e | n in v && e in v[n].entries :: e
  }

  ghost function LevelEntries(v: Version, level: nat): set<Entry> {
    set n, e | n in v && v[n].level == level && e in v[n].entries :: e
  }

  ghost function All(w: View): set<Entry> {
    w.mem + w.imm + Contents(w.version)
  }

  // ----- the ordering between layers: per key, shallower is newer -----

  ghost predicate Above(A: set<Entry>, B: set<Entry>) {
    forall a, b :: a in A && b in B && a.key == b.key ==> a.seqno > b.seqno
  }

  predicate Shallower(v: Version, m: nat, n: nat)
    requires m in v && n in v
  {
    v[m].level < v[n].level || (v[m].level == 0 && v[n].level == 0 && m > n)
  }

  ghost predicate VersionOrdered(v: Version) {
    && (forall n :: n in v ==> v[n].level < NUM_LEVELS)
    && (forall m, n :: m in v && n in v && Shallower(v, m, n) ==> Above(v[m].entries, v[n].entries))
  }

  ghost predicate Ordered(w: View) {
    && Above(w.mem, w.imm)
    && Above(w.mem + w.imm, Contents(w.version))
    && VersionOrdered(w.version)
  }

  ghost predicate NumbersBelow(v: Version, bound: nat) {
    forall n :: n in v ==> n < bound
  }

  // ----- the lookup itself -----

  /** Level-0 files may overlap, so they are tried from the newest number down. */
  ghost function Level0Get(v: Version, k: Key, s: nat, below: nat): Option<Entry> {
    if below == 0 then None
    else if below - 1 in v && v[below - 1].level == 0 && HasMatch(v[below - 1].entries, k, s) then
      Some(Newest(v[below - 1].entries, k, s))
    else Level0Get(v, k, s, below - 1)
  }

  ghost function DeeperGet(v: Version, k: Key, s: nat, level: nat): Option<Entry>
    decreases NUM_LEVELS - level
  {
    if level >= NUM_LEVELS then None
    else if HasMatch(LevelEntries(v, level), k, s) then Some(Newest(LevelEntries(v, level), k, s))
    else DeeperGet(v, k, s, level + 1)
  }

  ghost function VersionGet(v: Version, k: Key, s: nat, bound: nat): Option<Entry> {
    var e := Level0Get(v, k, s, bound);
    if e.Some? then e else DeeperGet(v, k, s, 1)
  }

  ghost function Get(w: View, k: Key, s: nat, bound: nat): Answer {
    if HasMatch(w.mem, k, s) then AnswerOf(Newest(w.mem, k, s))
    else if HasMatch(w.imm, k, s) then AnswerOf(Newest(w.imm, k, s))
    else
      var e := VersionGet(w.version, k, s, bound);
      if e.Some? then AnswerOf(e.value) else NotFound
  }

  // ----- the lookup finds the newest visible entry of all layers together -----

  /** Table `n` of level 0 holds `e`, the newest visible operation on the key, and no level-0 table
      between `n` and `below` knows the key. */
  ghost predicate FirstInLevel0(v: Version, k: Key, s: nat, below: nat, n: nat, e: Entry) {
    && n in v && v[n].level == 0 && IsNewest(v[n].entries, k, s, e)
    && forall m :: m in v && v[m].level == 0 && n < m < below ==> !HasMatch(v[m].entries, k, s)
  }

  lemma {:induction false} Level0GetIsNewest(v: Version, k: Key, s: nat, below: nat)
    requires VersionOrdered(v)
    ensures var r := Level0Get(v, k, s, below);
      && (r.None? ==> forall n :: n in v && v[n].level == 0 && n < below ==> !HasMatch(v[n].entries, k, s))
      && (r.Some? ==> exists n :: FirstInLevel0(v, k, s, below, n, r.value))
  {
    hide IsNewest, HasMatch, VersionOrdered;
    if below > 0 {
      var n := below - 1;
      if n in v && v[n].level == 0 && HasMatch(v[n].entries, k, s) {
        assert FirstInLevel0(v, k, s, below, n, Newest(v[n].entries, k, s));
      } else {
        Level0GetIsNewest(v, k, s, below - 1);
        var r := Level0Get(v, k, s, below - 1);
        if r.Some? {
          var m :| FirstInLevel0(v, k, s, below - 1, m, r.value);
          assert FirstInLevel0(v, k, s, below, m, r.value);
        }
      }
    }
  }

  lemma {:induction false} DeeperGetIsNewest(v: Version, k: Key, s: nat, level: nat)
    requires VersionOrdered(v)
    ensures var r := DeeperGet(v, k, s, level);
      && (r.None? ==> forall n :: n in v && v[n].level >= level ==> !HasMatch(v[n].entries, k, s))
      && (r.Some? ==>
            && (exists n :: n in v && v[n].level >= level && r.value in v[n].entries)
            && Matches(r.value, k, s)
            && forall n, x :: n in v && v[n].level >= level && x in v[n].entries && Matches(x, k, s)
                 ==> x.seqno <= r.value.seqno)
    decreases NUM_LEVELS - level
  {
    if level < NUM_LEVELS {
      DeeperGetIsNewest(v, k, s, level + 1);
      var L := LevelEntries(v, level);
      if HasMatch(L, k, s) {
        var r := Newest(L, k, s);
        var n :| n in v && v[n].level == level && r in v[n].entries;
        forall m, x | m in v && v[m].level >= level && x in v[m].entries && Matches(x, k, s)
          ensures x.seqno <= r.seqno
        {
          if v[m].level == level {
            assert x in L;
          } else {
            assert Shallower(v, n, m);
          }
        }
      } else {
        forall n | n in v && v[n].level >= level && HasMatch(v[n].entries, k, s)
          ensures v[n].level > level
        {
          var x :| x in v[n].entries && Matches(x, k, s);
          assert v[n].level == level ==> x in L;
        }
      }
    }
  }

  lemma VersionGetIsNewest(v: Version, k: Key, s: nat, bound: nat)
    requires VersionOrdered(v) && NumbersBelow(v, bound)
    ensures var r := VersionGet(v, k, s, bound);
      && (r.None? ==> !HasMatch(Contents(v), k, s))
      && (r.Some? ==> IsNewest(Contents(v), k, s, r.value))
  {
    Level0GetIsNewest(v, k, s, bound);
    DeeperGetIsNewest(v, k, s, 1);
    var r := Level0Get(v, k, s, bound);
    if r.Some? {
      var n :| FirstInLevel0(v, k, s, bound, n, r.value);
      forall x | x in Contents(v) && Matches(x, k, s)
        ensures x.seqno <= r.value.seqno
      {
        var m :| m in v && x in v[m].entries;
        assert HasMatch(v[m].entries, k, s);
        assert m != n ==> Shallower(v, n, m);
      }
    } else {
      forall x | x in Contents(v) && Matches(x, k, s)
        ensures exists m :: m in v && v[m].level >= 1 && x in v[m].entries
      {
        var m :| m in v && x in v[m].entries;
        assert HasMatch(v[m].entries, k, s);
      }
    }
  }

  /** The layered read answers exactly what a flat read of all entries would answer. */
  lemma GetRefinesFlatRead(w: View, k: Key, s: nat, bound: nat)
    requires Ordered(w) && NumbersBelow(w.version, bound) && UniqueSeq(All(w))
    ensures Get(w, k, s, bound) == Read(All(w), k, s)
  {
    VersionGetIsNewest(w.version, k, s, bound);
    var A := All(w);
    if HasMatch(w.mem, k, s) {
      var e := Newest(w.mem, k, s);
      assert IsNewest(A, k, s, e);
      ReadIs(A, k, s, e);
    } else if HasMatch(w.imm, k, s) {
      var e := Newest(w.imm, k, s);
      assert forall x :: x in w.mem ==> !Matches(x, k, s);
      assert IsNewest(A, k, s, e);
      ReadIs(A, k, s, e);
    } else {
      assert forall x :: x in w.mem || x in w.imm ==> !Matches(x, k, s);
      var r := VersionGet(w.version, k, s, bound);
      if r.Some? {
        assert IsNewest(A, k, s, r.value);
        ReadIs(A, k, s, r.value);
      } else {
        assert forall x :: x in Contents(w.version) ==> !Matches(x, k, s);
      }
    }
  }
}
