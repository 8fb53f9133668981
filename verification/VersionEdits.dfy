/** The three ways a background job changes the version: a memtable flush adds one table, a
    compaction replaces tables of two adjacent levels, a trivial move pushes one table down.

    Each lemma says that the change keeps the per-key order of the layers and that no reader
    at or above the compaction's smallest snapshot can tell the difference.
 */
module VersionEdits {
  import opened Options
  import opened Entries
  import opened Versions

  // ----- memtable flush -----

  /** Where PickLevelForMemTableOutput may put a flushed table: level 0, or a deeper level such
      that no level down to and including it knows any of the flushed keys. */
  ghost predicate FlushLevelOK(v: Version, level: nat, flushed: set<Entry>) {
    && level < NUM_LEVELS
    && (level > 0 ==> forall n, e, f :: n in v && v[n].level <= level && e in v[n].entries && f in flushed
                                        ==> e.key != f.key)
  }

  function AddTable(v: Version, number: nat, level: nat, flushed: set<Entry>): Version {
    v[number := Table(level, flushed)]
  }

  lemma FlushKeepsOrder(v: Version, number: nat, level: nat, flushed: set<Entry>)
    requires VersionOrdered(v) && FlushLevelOK(v, level, flushed)
    requires NumbersBelow(v, number)
    requires Above(flushed, Contents(v))
    ensures VersionOrdered(AddTable(v, number, level, flushed))
  {
    var v' := AddTable(v, number, level, flushed);
    forall m, n | m in v' && n in v' && Shallower(v', m, n)
      ensures Above(v'[m].entries, v'[n].entries)
    {
      if m == number {
        assert forall e :: e in v[n].entries ==> e in Contents(v);
      } else if n == number {
        assert v[m].level <= level;
      } else {
        assert Shallower(v, m, n);
      }
    }
  }

  lemma FlushContents(v: Version, number: nat, level: nat, flushed: set<Entry>)
    requires number !in v
    ensures Contents(AddTable(v, number, level, flushed)) == Contents(v) + flushed
  {
    var v' := AddTable(v, number, level, flushed);
    forall e | e in Contents(v) + flushed ensures e in Contents(v') {
      if e in flushed {
        assert e in v'[number].entries;
      } else {
        var n :| n in v && e in v[n].entries;
        assert n in v' && e in v'[n].entries;
      }
    }
  }

  // ----- compaction -----

  /** A picked compaction: inputs live at `level` and `level + 1`, `smallest` is the oldest
      sequence number some reader may still ask for, and `base` are the user keys for which
      IsBaseLevelForKey answers true. */
  datatype Plan = Plan(level: nat, inputs: set<nat>, smallest: nat, base: set<Key>)

  ghost function InputEntries(v: Version, p: Plan): set<Entry> {
    set n, e | n in v && n in p.inputs && e in v[n].entries :: e
  }

  /** What VersionSet promises about a picked compaction. */
  ghost predicate PlanOK(v: Version, p: Plan) {
    && p.level + 1 < NUM_LEVELS
    && p.inputs <= v.Keys
    && (forall n :: n in p.inputs ==> v[n].level == p.level || v[n].level == p.level + 1)
    // every older entry of an input key at the two levels is an input itself
    && (forall n, e, i :: n in v && n !in p.inputs && (v[n].level == p.level || v[n].level == p.level + 1)
                          && e in v[n].entries && i in InputEntries(v, p) && e.key == i.key
                          ==> e.seqno > i.seqno)
    // base keys occur among the inputs and nowhere below level + 1
    && (forall k :: k in p.base ==> exists i :: i in InputEntries(v, p) && i.key == k)
    && (forall n, e :: n in v && v[n].level >= p.level + 2 && e in v[n].entries ==> e.key !in p.base)
  }

  /** Dropped by rule (A): hidden by a newer entry no reader looks past. */
  ghost predicate Hidden(input: set<Entry>, e: Entry, smallest: nat) {
    exists n :: n in input && n.key == e.key && e.seqno < n.seqno <= smallest
  }

  predicate Obsolete(e: Entry, smallest: nat, base: set<Key>) {
    e.kind == Deletion && e.seqno <= smallest && e.key in base
  }

  ghost function Retained(input: set<Entry>, smallest: nat, base: set<Key>): set<Entry> {
    set e | e in input && !Hidden(input, e, smallest) && !Obsolete(e, smallest, base)
  }

  ghost function Outputs(outs: map<nat, set<Entry>>): set<Entry> {
    set n, e | n in outs && e in outs[n] :: e
  }

  function Replace(v: Version, p: Plan, outs: map<nat, set<Entry>>): Version {
    (v - p.inputs) + map n | n in outs :: Table(p.level + 1, outs[n])
  }

  ghost predicate CompactionResult(v: Version, p: Plan, outs: map<nat, set<Entry>>) {
    && outs.Keys !! v.Keys
    && Outputs(outs) == Retained(InputEntries(v, p), p.smallest, p.base)
  }

  lemma CompactionKeepsOrder(v: Version, p: Plan, outs: map<nat, set<Entry>>)
    requires VersionOrdered(v) && PlanOK(v, p) && CompactionResult(v, p, outs)
    ensures VersionOrdered(Replace(v, p, outs))
  {
    var v' := Replace(v, p, outs);
    forall m, n | m in v' && n in v' && Shallower(v', m, n)
      ensures Above(v'[m].entries, v'[n].entries)
    {
      if m in outs {
        OutputAboveDeeper(v, p, outs, m, n);
      } else if n in outs {
        ShallowerAboveOutput(v, p, outs, m, n);
      } else {
        assert Shallower(v, m, n);
      }
    }
  }

  lemma OutputAboveDeeper(v: Version, p: Plan, outs: map<nat, set<Entry>>, m: nat, n: nat)
    requires VersionOrdered(v) && PlanOK(v, p) && CompactionResult(v, p, outs)
    requires m in outs && n in v && v[n].level >= p.level + 2
    ensures Above(outs[m], v[n].entries)
  {
    forall a, b | a in outs[m] && b in v[n].entries && a.key == b.key ensures a.seqno > b.seqno {
      assert a in Outputs(outs);
      var i :| i in v && i in p.inputs && a in v[i].entries;
      assert Shallower(v, i, n);
    }
  }

  lemma ShallowerAboveOutput(v: Version, p: Plan, outs: map<nat, set<Entry>>, m: nat, n: nat)
    requires VersionOrdered(v) && PlanOK(v, p) && CompactionResult(v, p, outs)
    requires n in outs && m in v && m !in p.inputs && v[m].level <= p.level
    ensures Above(v[m].entries, outs[n])
  {
    forall a, b | a in v[m].entries && b in outs[n] && a.key == b.key ensures a.seqno > b.seqno {
      assert b in Outputs(outs);
      var i :| i in v && i in p.inputs && b in v[i].entries;
      assert b in InputEntries(v, p);
      assert v[m].level < p.level ==> Shallower(v, m, i);
    }
  }

  lemma CompactionContents(v: Version, p: Plan, outs: map<nat, set<Entry>>, e: Entry)
    requires PlanOK(v, p) && CompactionResult(v, p, outs)
    ensures e in Contents(Replace(v, p, outs)) <==>
              e in Outputs(outs) || exists n :: n in v && n !in p.inputs && e in v[n].entries
  {
    var v' := Replace(v, p, outs);
    if e in Contents(v') {
      var n :| n in v' && e in v'[n].entries;
      assert n in outs || (n in v && n !in p.inputs && e in v[n].entries);
    }
    if e in Outputs(outs) {
      var n :| n in outs && e in outs[n];
      assert n in v' && e in v'[n].entries;
    } else if exists n :: n in v && n !in p.inputs && e in v[n].entries {
      var n :| n in v && n !in p.inputs && e in v[n].entries;
      assert n in v' && e in v'[n].entries;
    }
  }

  /** Nothing new appears, and what disappears was an input that the rules drop. */
  lemma CompactionOnlyDrops(v: Version, p: Plan, outs: map<nat, set<Entry>>)
    requires PlanOK(v, p) && CompactionResult(v, p, outs)
    ensures Contents(Replace(v, p, outs)) <= Contents(v)
    ensures forall e :: e in Contents(v) && e !in Contents(Replace(v, p, outs)) ==>
                          && e in InputEntries(v, p)
                          && (Hidden(InputEntries(v, p), e, p.smallest) || Obsolete(e, p.smallest, p.base))
  {
    forall e | e in Contents(Replace(v, p, outs)) ensures e in Contents(v) {
      CompactionContents(v, p, outs, e);
    }
    forall e | e in Contents(v) && e !in Contents(Replace(v, p, outs))
      ensures && e in InputEntries(v, p)
              && (Hidden(InputEntries(v, p), e, p.smallest) || Obsolete(e, p.smallest, p.base))
    {
      CompactionContents(v, p, outs, e);
      var n :| n in v && e in v[n].entries;
      assert n in p.inputs;
    }
  }

  lemma SurvivorIsNewer(v: Version, p: Plan, outs: map<nat, set<Entry>>, h: Entry, e: Entry)
    requires PlanOK(v, p) && CompactionResult(v, p, outs) && h in InputEntries(v, p) && Obsolete(h, p.smallest, p.base)
    requires e in Outputs(outs) && e.key == h.key && e != h && UniqueSeq(Contents(v))
    ensures e.seqno > h.seqno
  {
    hide PlanOK;
    assert e in InputEntries(v, p) && e in Contents(v) && h in Contents(v);
    assert !Hidden(InputEntries(v, p), e, p.smallest);
  }

  lemma OutsiderIsNewer(v: Version, p: Plan, h: Entry, e: Entry)
    requires VersionOrdered(v) && PlanOK(v, p) && h in InputEntries(v, p) && Obsolete(h, p.smallest, p.base)
    requires (exists n :: n in v && n !in p.inputs && e in v[n].entries) && e.key == h.key
    ensures e.seqno > h.seqno
  {
    var n :| n in v && n !in p.inputs && e in v[n].entries;
    var i :| i in v && i in p.inputs && h in v[i].entries;
    assert v[n].level < p.level ==> Shallower(v, n, i);
  }

  /** Behind a dropped base tombstone nothing older survives: not in the inputs, whose older
      entries fall to rule (A), and not elsewhere, since a base key lives nowhere deeper. */
  lemma DroppedTombstoneIsBare(v: Version, p: Plan, outs: map<nat, set<Entry>>, h: Entry)
    requires VersionOrdered(v) && PlanOK(v, p) && CompactionResult(v, p, outs)
    requires h in InputEntries(v, p) && Obsolete(h, p.smallest, p.base)
    requires h !in Outputs(outs) && UniqueSeq(Contents(v))
    ensures forall e :: e in Contents(Replace(v, p, outs)) && e.key == h.key && e != h ==> e.seqno > h.seqno
  {
    forall e | e in Contents(Replace(v, p, outs)) && e.key == h.key && e != h ensures e.seqno > h.seqno {
      CompactionContents(v, p, outs, e);
      if e in Outputs(outs) {
        SurvivorIsNewer(v, p, outs, h, e);
      } else {
        OutsiderIsNewer(v, p, h, e);
      }
    }
  }

  /** What was missing before is missing for the same reason afterwards. */
  lemma StillMissing(E: set<Entry>, E': set<Entry>, H: set<Entry>, h: Entry, lo: nat, lo': nat)
    requires E' <= E && lo <= lo' && (Shadowed(H, h, lo) || BareTombstone(E, h, lo))
    ensures Shadowed(H, h, lo') || BareTombstone(E', h, lo')
  {
    if Shadowed(H, h, lo) {
      var n :| n in H && n.key == h.key && h.seqno < n.seqno <= lo;
      assert n.seqno <= lo';
    }
  }

  /** What a compaction drops is hidden from every reader at or above `lo`. */
  lemma DroppedIsMissing(upper: set<Entry>, v: Version, p: Plan, outs: map<nat, set<Entry>>, H: set<Entry>, h: Entry,
                         lo: nat)
    requires VersionOrdered(v) && PlanOK(v, p) && CompactionResult(v, p, outs)
    requires Above(upper, Contents(v)) && UniqueSeq(Contents(v)) && p.smallest <= lo
    requires h in InputEntries(v, p) && h !in Contents(Replace(v, p, outs)) && InputEntries(v, p) <= Contents(v)
    requires forall e :: e in Contents(v) && e.seqno <= p.smallest ==> e in H
    requires Hidden(InputEntries(v, p), h, p.smallest) || Obsolete(h, p.smallest, p.base)
    ensures Shadowed(H, h, lo) || BareTombstone(upper + Contents(Replace(v, p, outs)), h, lo)
  {
    if Hidden(InputEntries(v, p), h, p.smallest) {
      var n :| n in InputEntries(v, p) && n.key == h.key && h.seqno < n.seqno <= p.smallest;
      assert n in H && n.seqno <= lo;
    } else {
      CompactionContents(v, p, outs, h);
      DroppedTombstoneIsBare(v, p, outs, h);
    }
  }

  lemma InputsAreContents(v: Version, p: Plan)
    ensures InputEntries(v, p) <= Contents(v)
  {
  }

  /** The heart of compaction: replacing the inputs by what the rules retain leaves every
      reader at or above `smallest` with the same history. */
  lemma CompactionKeepsCover(upper: set<Entry>, v: Version, p: Plan, outs: map<nat, set<Entry>>,
                             H: set<Entry>, lo: nat, hi: nat)
    requires VersionOrdered(v) && PlanOK(v, p) && CompactionResult(v, p, outs)
    requires Above(upper, Contents(v)) && UniqueSeq(upper + Contents(v))
    requires Cover(upper + Contents(v), H, lo, hi) && p.smallest <= hi
    ensures Cover(upper + Contents(Replace(v, p, outs)), H, if lo < p.smallest then p.smallest else lo, hi)
  {
    var E, E' := upper + Contents(v), upper + Contents(Replace(v, p, outs));
    var lo' := if lo < p.smallest then p.smallest else lo;
    CompactionOnlyDrops(v, p, outs);
    InputsAreContents(v, p);
    hide VersionOrdered, PlanOK, CompactionResult, Contents, InputEntries, Hidden, Obsolete, Shadowed, BareTombstone,
         Replace;
    forall h | h in H && h !in E' && h.seqno <= hi
      ensures Shadowed(H, h, lo') || BareTombstone(E', h, lo')
    {
      if h !in E {
        StillMissing(E, E', H, h, lo, lo');
      } else {
        DroppedIsMissing(upper, v, p, outs, H, h, lo');
      }
    }
  }

  // ----- trivial move -----

  function MoveDown(v: Version, p: Plan): Version {
    map n | n in v :: if n in p.inputs then Table(p.level + 1, v[n].entries) else v[n]
  }

  /** A trivial move has one input file, at `level`, and none at `level + 1`. */
  ghost predicate TrivialMoveOK(v: Version, p: Plan) {
    PlanOK(v, p) && exists n :: p.inputs == {n} && v[n].level == p.level
  }

  lemma MoveKeepsOrder(v: Version, p: Plan)
    requires VersionOrdered(v) && TrivialMoveOK(v, p)
    ensures VersionOrdered(MoveDown(v, p)) && Contents(MoveDown(v, p)) == Contents(v)
  {
    var v' := MoveDown(v, p);
    var f :| p.inputs == {f} && v[f].level == p.level;
    assert v'.Keys == v.Keys && forall n :: n in v ==> v'[n].entries == v[n].entries;
    forall e ensures e in Contents(v') <==> e in Contents(v) {
      if e in Contents(v) {
        var n :| n in v && e in v[n].entries;
        assert n in v' && e in v'[n].entries;
      }
    }
    forall m, n | m in v' && n in v' && Shallower(v', m, n)
      ensures Above(v'[m].entries, v'[n].entries)
    {
      if n == f {
        assert forall e :: e in v[f].entries ==> e in InputEntries(v, p);
        assert v[m].level < p.level ==> Shallower(v, m, f);
      } else {
        assert Shallower(v, m, n);
      }
    }
  }
}
