/** What the disk holds is enough, at any moment, to rebuild everything that was published.

    `Sound` is all that recovery relies on.  It holds of the disk of every good engine state,
    with the records that were logged and not applied counted in, and it survives whatever a
    crash of the process or an abandoned recovery may leave behind.
 */
module Durability {
  import opened Options
  import opened Entries
  import opened Versions
  import opened VersionEdits
  import opened Writers
  import opened Engine
  import opened Invariant
  import opened Frames
  import opened WriterSteps
  import opened InstallSteps

  // ----- what is stored -----

  /** The records of logs `lo` to `hi - 1`, in the order of the log numbers. */
  ghost function RecordsFrom(logs: map<nat, seq<Record>>, lo: nat, hi: nat): seq<Record>
    decreases hi - lo
  {
    if lo >= hi then [] else (if lo in logs then logs[lo] else []) + RecordsFrom(logs, lo + 1, hi)
  }

  ghost function Logged(logs: map<nat, seq<Record>>, lo: nat): set<Entry> {
    set n, e | n in logs && n >= lo && e in RecordEntries(logs[n]) :: e
  }

  ghost function Tabled(disk: Disk): set<Entry> {
    set n, e | n in disk.manifest.version && n in disk.tables && e in disk.tables[n] :: e
  }

  /** The entries of the MANIFEST's tables and of the logs it still needs. */
  ghost function Stored(disk: Disk): set<Entry> {
    Tabled(disk) + Logged(disk.logs, disk.manifest.log)
  }

  ghost predicate PastLogs(logs: map<nat, seq<Record>>, lo: nat, hi: nat) {
    forall n :: n in logs && n >= lo ==> n < hi
  }

  /** Reading the logs in the order of their numbers reads sequence numbers in ascending order. */
  ghost predicate LogsAscend(logs: map<nat, seq<Record>>, from: nat, lo: nat, top: nat) {
    forall hi: nat :: PastLogs(logs, from, hi) ==> Ascends(RecordsFrom(logs, from, hi), lo, top)
  }

  ghost predicate BelowAll(v: Version, hi: nat) {
    forall e :: e in Contents(v) ==> e.seqno <= hi
  }

  /** `E` stands for `hist` to every reader from `floor` on, and what it lacks is not above `lo`. */
  ghost predicate StandsFor(E: set<Entry>, hist: set<Entry>, floor: nat, lo: nat) {
    && E <= hist && UniqueSeq(hist)
    && forall h :: h in hist && h !in E ==>
         h.seqno <= lo && (Shadowed(hist, h, floor) || BareTombstone(E, h, floor))
  }

  /** Tables end at `lo`, logs go on from there to `top`. */
  ghost predicate SoundAt(disk: Disk, hist: set<Entry>, floor: nat, lo: nat, top: nat) {
    var m := disk.manifest;
    && VersionOrdered(m.version) && NumbersBelow(m.version, m.nextFile) && m.log < m.nextFile
    && OnDisk(disk.tables, m.version) && BelowAll(m.version, lo)
    && lo <= top && lo <= m.lastSeq && floor <= m.lastSeq
    && LogsAscend(disk.logs, m.log, lo, top)
    && StandsFor(Stored(disk), hist, floor, lo)
  }

  ghost predicate Sound(disk: Disk, hist: set<Entry>, floor: nat) {
    exists lo: nat, top: nat :: SoundAt(disk, hist, floor, lo, top)
  }

  // ----- what a crash may leave -----

  /** A crash leaves the MANIFEST, its tables and the logs it needs alone.  Any other table may be
      missing, half written or new; logs not needed may be gone; a new log may have been made. */
  ghost predicate Spares(disk: Disk, left: Disk) {
    var m := disk.manifest;
    && left.manifest == m
    && (forall n :: n in m.version && n in disk.tables ==> n in left.tables && left.tables[n] == disk.tables[n])
    && (forall n :: n in disk.logs && n >= m.log ==> n in left.logs && left.logs[n] == disk.logs[n])
    && (forall n :: n in left.logs && n >= m.log && n !in disk.logs ==> left.logs[n] == [])
  }

  // ----- records in order -----

  lemma RecordEntriesConcat(a: seq<Record>, b: seq<Record>)
    ensures RecordEntries(a + b) == RecordEntries(a) + RecordEntries(b)
  {
    forall e ensures e in RecordEntries(a + b) <==> e in RecordEntries(a) + RecordEntries(b) {
      if e in RecordEntries(a) {
        var r :| r in a && e in EntriesAt(r.base, r.ops);
        assert r in a + b;
      } else if e in RecordEntries(b) {
        var r :| r in b && e in EntriesAt(r.base, r.ops);
        assert r in a + b;
      }
    }
  }

  lemma AscendsJoin(a: seq<Record>, b: seq<Record>, lo: nat, mid: nat, top: nat)
    requires Ascends(a, lo, mid) && Ascends(b, mid, top) && lo <= mid <= top
    ensures Ascends(a + b, lo, top)
  {
  }

  lemma RecordsAreUnique(records: seq<Record>, lo: nat, top: nat)
    requires Ascends(records, lo, top)
    ensures UniqueSeq(RecordEntries(records))
    ensures forall e :: e in RecordEntries(records) ==> lo < e.seqno <= top
  {
    forall e | e in RecordEntries(records)
      ensures exists i :: 0 <= i < |records| && e in EntriesAt(records[i].base, records[i].ops)
                          && records[i].base <= e.seqno < records[i].base + |records[i].ops|
    {
      var r :| r in records && e in EntriesAt(r.base, r.ops);
      var i :| 0 <= i < |records| && records[i] == r;
      EntriesAtRange(r.base, r.ops);
    }
    forall a, b | a in RecordEntries(records) && b in RecordEntries(records) && a.seqno == b.seqno ensures a == b {
      var i :| 0 <= i < |records| && a in EntriesAt(records[i].base, records[i].ops)
               && records[i].base <= a.seqno < records[i].base + |records[i].ops|;
      var j :| 0 <= j < |records| && b in EntriesAt(records[j].base, records[j].ops)
               && records[j].base <= b.seqno < records[j].base + |records[j].ops|;
      assert i == j;
      EntriesAtRange(records[i].base, records[i].ops);
    }
  }

  lemma {:induction false} NoRecords(logs: map<nat, seq<Record>>, lo: nat, hi: nat)
    requires forall n :: lo <= n < hi ==> n !in logs
    ensures RecordsFrom(logs, lo, hi) == []
    decreases hi - lo
  {
    if lo < hi {
      NoRecords(logs, lo + 1, hi);
    }
  }

  lemma {:induction false} OneLog(logs: map<nat, seq<Record>>, lo: nat, n: nat, hi: nat)
    requires lo <= n < hi && n in logs && forall m :: m in logs && lo <= m < hi ==> m == n
    ensures RecordsFrom(logs, lo, hi) == logs[n]
    decreases n - lo
  {
    if lo < n {
      OneLog(logs, lo + 1, n, hi);
    } else {
      NoRecords(logs, n + 1, hi);
    }
  }

  lemma {:induction false} RangeSnoc(logs: map<nat, seq<Record>>, lo: nat, hi: nat)
    requires lo <= hi
    ensures RecordsFrom(logs, lo, hi + 1) == RecordsFrom(logs, lo, hi) + if hi in logs then logs[hi] else []
    decreases hi - lo
  {
    if lo < hi {
      RangeSnoc(logs, lo + 1, hi);
    } else {
      assert RecordsFrom(logs, hi + 1, hi + 1) == [];
    }
  }

  /** Logs without records make no difference to what is read. */
  lemma {:induction false} SameRecords(a: map<nat, seq<Record>>, b: map<nat, seq<Record>>, lo: nat, hi: nat)
    requires forall n :: lo <= n < hi && n in a ==> n in b && b[n] == a[n]
    requires forall n :: lo <= n < hi && n in b && n !in a ==> b[n] == []
    ensures RecordsFrom(b, lo, hi) == RecordsFrom(a, lo, hi)
    decreases hi - lo
  {
    if lo < hi {
      SameRecords(a, b, lo + 1, hi);
    }
  }

  lemma {:induction false} RecordsAreLogged(logs: map<nat, seq<Record>>, lo: nat, hi: nat)
    requires PastLogs(logs, lo, hi)
    ensures RecordEntries(RecordsFrom(logs, lo, hi)) == Logged(logs, lo)
    decreases hi - lo
  {
    hide RecordEntries;
    if lo < hi {
      var first, rest := if lo in logs then logs[lo] else [], RecordsFrom(logs, lo + 1, hi);
      RecordsAreLogged(logs, lo + 1, hi);
      RecordEntriesConcat(first, rest);
      NoEntries();
      forall e ensures e in Logged(logs, lo) <==> e in RecordEntries(first) || e in Logged(logs, lo + 1) {
        if e in RecordEntries(first) && lo in logs {
          assert e in RecordEntries(logs[lo]);
        }
      }
    } else {
      NoEntries();
      assert Logged(logs, lo) == {};
    }
  }

  lemma NoEntries()
    ensures RecordEntries([]) == {}
  {
  }

  lemma TablesHold(disk: Disk)
    requires OnDisk(disk.tables, disk.manifest.version)
    ensures Tabled(disk) == Contents(disk.manifest.version)
  {
  }

  // ----- the disk of a good engine state is sound -----

  /** Replay in order of log number is replay in order of sequence number, and it yields what
      the two memtables hold, plus what was logged and not yet inserted. */
  lemma ReplayedRecords(s: State, hi: nat)
    requires ViewInv(s) && LogInv(s) && PastLogs(s.disk.logs, s.versLog, hi)
    ensures var recs := RecordsFrom(s.disk.logs, s.versLog, hi);
      && Ascends(recs, s.cutImm, LoggedTop(s.lastSeq, s.phase))
      && RecordEntries(recs) == Current(s).imm + Current(s).mem + Unapplied(s)
  {
    hide Ascends, LostOK, HistoryOK, DroppedOK;
    var logs := s.disk.logs;
    if s.imm.None? {
      OneLog(logs, s.versLog, s.logNum, hi);
      assert Current(s).imm == {};
    } else {
      assert RecordsFrom(logs, s.versLog, hi) == logs[s.versLog] + RecordsFrom(logs, s.versLog + 1, hi);
      OneLog(logs, s.versLog + 1, s.logNum, hi);
      RecordEntriesConcat(logs[s.versLog], logs[s.logNum]);
      AscendsJoin(logs[s.versLog], logs[s.logNum], s.cutImm, s.cutMem, LoggedTop(s.lastSeq, s.phase));
    }
  }

  lemma FlightIsUnapplied(s: State)
    requires PhaseOK(s.phase, s.writers)
    ensures InFlight(s) <= Unapplied(s)
  {
    if s.phase.Logging? {
      PrefixOfBatch(s.lastSeq + 1, GroupOps(s.phase.members), s.phase.inserted);
      if s.phase.inserted == 0 {
        GroundedFlight(s);
      }
    }
  }

  /** What was logged and not applied is newer than the memtable's start, and numbered apart from
      the history. */
  lemma UnappliedNumbers(s: State)
    requires LogInv(s)
    ensures UniqueSeq(Unapplied(s)) && forall e :: e in Unapplied(s) ==> e.seqno > s.cutMem
    ensures forall e :: e in Unapplied(s) ==> e in s.lost || e.seqno > s.lastSeq
    ensures forall a, b :: a in s.hist && b in s.lost ==> a.seqno != b.seqno
  {
    UnappliedIsLogged(s);
    var log := s.disk.logs[s.logNum];
    assert Ascends(log, s.cutMem, LoggedTop(s.lastSeq, s.phase)) && LostOK(s);
    hide LogInv, Ascends, RecordEntries;
    RecordsAreUnique(log, s.cutMem, LoggedTop(s.lastSeq, s.phase));
    if s.phase.Logging? {
      EntriesAtRange(s.lastSeq + 1, GroupOps(s.phase.members));
    }
  }

  lemma UnappliedFacts(s: State)
    requires ViewInv(s) && LogInv(s) && PhaseOK(s.phase, s.writers)
    ensures InFlight(s) <= Unapplied(s)
    ensures UniqueSeq(s.hist + Unapplied(s))
    ensures forall e :: e in Unapplied(s) ==> e.seqno > s.cutMem
  {
    hide ViewInv, LogInv, PhaseOK, InFlight, Unapplied;
    FlightIsUnapplied(s);
    UnappliedNumbers(s);
    HistoryUnique(s);
  }

  lemma HistoryUnique(s: State)
    requires ViewInv(s)
    ensures UniqueSeq(s.hist) && (forall h :: h in s.hist ==> h.seqno <= s.lastSeq)
  {
  }

  lemma CutsAscend(s: State)
    requires ViewInv(s)
    ensures s.cutImm <= s.cutMem <= s.lastSeq && s.floor <= s.lastSeq
  {
  }

  lemma TablesFacts(s: State)
    requires ViewInv(s)
    ensures VersionOrdered(s.version) && BelowAll(s.version, s.cutImm)
  {
  }

  lemma CoverIsStanding(s: State, E: set<Entry>, hist: set<Entry>)
    requires ViewInv(s) && LogInv(s) && PhaseOK(s.phase, s.writers)
    requires E == All(Current(s)) + Unapplied(s) && hist == s.hist + Unapplied(s)
    ensures StandsFor(E, hist, s.floor, s.cutImm)
  {
    UnappliedFacts(s);
    hide LogInv, PhaseOK, LayersOK, MemtablesOK;
    CutsAscend(s);
    forall h | h in hist && h !in E
      ensures h.seqno <= s.cutImm && (Shadowed(hist, h, s.floor) || BareTombstone(E, h, s.floor))
    {
      if Shadowed(s.hist, h, s.floor) {
        var n :| n in s.hist && n.key == h.key && h.seqno < n.seqno <= s.floor;
        assert n in hist;
      } else {
        assert BareTombstone(All(Current(s)), h, s.floor);
      }
    }
  }

  /** No edit has reached the MANIFEST without being installed. */
  ghost predicate NothingPending(s: State) {
    !(s.bg.Committing? && s.bg.persisted)
  }

  lemma ManifestIsCurrent(s: State)
    requires DiskInv(s) && NothingPending(s)
    ensures s.disk.manifest.version == s.version && s.disk.manifest.log == s.versLog
    ensures s.floor <= s.disk.manifest.lastSeq && s.cutImm <= s.disk.manifest.lastSeq
    ensures NumbersBelow(s.version, s.disk.manifest.nextFile) && OnDisk(s.disk.tables, s.version)
    ensures s.versLog < s.disk.manifest.nextFile
  {
  }

  lemma LogsAreSound(s: State)
    requires ViewInv(s) && LogInv(s)
    ensures LogsAscend(s.disk.logs, s.versLog, s.cutImm, LoggedTop(s.lastSeq, s.phase))
    ensures Logged(s.disk.logs, s.versLog) == Current(s).imm + Current(s).mem + Unapplied(s)
  {
    hide ViewInv, Ascends, RecordEntries;
    forall hi: nat | PastLogs(s.disk.logs, s.versLog, hi)
      ensures Ascends(RecordsFrom(s.disk.logs, s.versLog, hi), s.cutImm, LoggedTop(s.lastSeq, s.phase))
    {
      ReplayedRecords(s, hi);
    }
    ReplayedRecords(s, s.nextFile);
    RecordsAreLogged(s.disk.logs, s.versLog, s.nextFile);
  }

  lemma InstalledIsSound(s: State)
    requires Core(s) && NothingPending(s)
    ensures SoundAt(s.disk, s.hist + Unapplied(s), s.floor, s.cutImm, LoggedTop(s.lastSeq, s.phase))
  {
    hide ViewInv, ReadersOK, JobInv, DiskInv, LogInv, QueueInv, PhaseOK, StandsFor, LogsAscend;
    ManifestIsCurrent(s);
    TablesFacts(s);
    TablesHold(s.disk);
    QueueFacts(s);
    CutsAscend(s);
    LogsAreSound(s);
    var E := All(Current(s)) + Unapplied(s);
    assert Stored(s.disk) == E;
    CoverIsStanding(s, E, s.hist + Unapplied(s));
  }

  /** An edit that reached the MANIFEST counts, even if memory never heard of it. */
  ghost function PersistedFloor(s: State): nat {
    if s.bg.Committing? && s.bg.persisted then Commit(s).floor else s.floor
  }

  /** At every mutex release the disk suffices for the published history and what was logged
      beyond it. */
  lemma CrashIsSound(s: State)
    requires Core(s)
    ensures Sound(s.disk, s.hist + Unapplied(s), PersistedFloor(s))
  {
    hide Core, SoundAt;
    if NothingPending(s) {
      InstalledIsSound(s);
    } else {
      // as far as recovery can tell, the edit was installed
      var t := Committed(s, s.otherWork);
      CommitKeeps(s, s.otherWork);
      InstalledIsSound(t);
      assert Unapplied(t) == Unapplied(s);
    }
  }

  // ----- and stays so -----

  lemma SparesLogs(disk: Disk, left: Disk, lo: nat, top: nat)
    requires Spares(disk, left) && LogsAscend(disk.logs, disk.manifest.log, lo, top)
    ensures LogsAscend(left.logs, left.manifest.log, lo, top)
    ensures Logged(left.logs, left.manifest.log) == Logged(disk.logs, disk.manifest.log)
  {
    hide Ascends, RecordEntries;
    var from := disk.manifest.log;
    forall hi: nat | PastLogs(left.logs, from, hi) ensures Ascends(RecordsFrom(left.logs, from, hi), lo, top) {
      SameRecords(disk.logs, left.logs, from, hi);
      assert PastLogs(disk.logs, from, hi);
    }
    NoEntries();
    forall e ensures e in Logged(left.logs, from) <==> e in Logged(disk.logs, from) {
      if e in Logged(left.logs, from) {
        var n :| n in left.logs && n >= from && e in RecordEntries(left.logs[n]);
        assert n in disk.logs;
      }
      if e in Logged(disk.logs, from) {
        var n :| n in disk.logs && n >= from && e in RecordEntries(disk.logs[n]);
        assert n in left.logs && e in RecordEntries(left.logs[n]);
      }
    }
  }

  lemma SparesTables(disk: Disk, left: Disk)
    requires Spares(disk, left) && OnDisk(disk.tables, disk.manifest.version)
    ensures OnDisk(left.tables, left.manifest.version) && Tabled(left) == Tabled(disk)
  {
    hide Logged;
    assert OnDisk(left.tables, left.manifest.version);
    TablesHold(disk);
    TablesHold(left);
  }

  /** Nothing a crash or an abandoned recovery leaves behind matters. */
  lemma SparesKeepsSound(disk: Disk, left: Disk, hist: set<Entry>, floor: nat)
    requires Sound(disk, hist, floor) && Spares(disk, left)
    ensures Sound(left, hist, floor)
  {
    hide StandsFor, LogsAscend, Tabled, Logged;
    var lo: nat, top: nat :| SoundAt(disk, hist, floor, lo, top);
    SparesLogs(disk, left, lo, top);
    SparesTables(disk, left);
    assert Stored(left) == Stored(disk);
    assert left.manifest == disk.manifest;
    assert SoundAt(left, hist, floor, lo, top);
  }

  // ----- what it means for the history to be stored -----

  /** `h` is there; or a newer operation on its key is; or it was deleted, by itself or by a later
      tombstone, and its key is gone. */
  ghost predicate Survives(E: set<Entry>, hist: set<Entry>, h: Entry) {
    || h in E
    || (exists n :: n in E && n.key == h.key && n.seqno > h.seqno)
    || (exists d :: d in hist && d.key == h.key && d.kind == Deletion && d.seqno >= h.seqno
                    && forall e :: e in E ==> e.key != h.key)
  }

  /** The newest operation on the key of something missing has either survived or is a tombstone
      with nothing left behind it. */
  lemma MissingSurvives(E: set<Entry>, hist: set<Entry>, floor: nat, h: Entry)
    requires UniqueSeq(hist) && h in hist && h !in E
    requires forall x :: x in hist && x !in E ==> Shadowed(hist, x, floor) || BareTombstone(E, x, floor)
    ensures Survives(E, hist, h)
  {
    if Shadowed(hist, h, floor) {
      assert Matches(h, h.key, floor);
      var n := Newest(hist, h.key, floor);
      assert !Shadowed(hist, n, floor);
      assert n.seqno > h.seqno;
      if n !in E {
        BareSurvives(E, hist, floor, h, n);
      }
    } else {
      BareSurvives(E, hist, floor, h, h);
    }
  }

  lemma BareSurvives(E: set<Entry>, hist: set<Entry>, floor: nat, h: Entry, d: Entry)
    requires d in hist && d.key == h.key && d.seqno >= h.seqno && BareTombstone(E, d, floor)
    ensures Survives(E, hist, h)
  {
    if exists e :: e in E && e.key == h.key {
      var e :| e in E && e.key == h.key;
      assert e.seqno > d.seqno;
    } else {
      assert forall e :: e in E ==> e.key != h.key;
    }
  }

  lemma StoredSurvives(disk: Disk, hist: set<Entry>, floor: nat, h: Entry)
    requires Sound(disk, hist, floor) && h in hist
    ensures Survives(Stored(disk), hist, h) && Stored(disk) <= hist
  {
    hide LogsAscend, Tabled, Logged, Stored, Survives, VersionOrdered, BelowAll, OnDisk, NumbersBelow;
    var lo: nat, top: nat :| SoundAt(disk, hist, floor, lo, top);
    if h in Stored(disk) {
      HereSurvives(Stored(disk), hist, h);
    } else {
      MissingSurvives(Stored(disk), hist, floor, h);
    }
  }

  lemma HereSurvives(E: set<Entry>, hist: set<Entry>, h: Entry)
    requires h in E
    ensures Survives(E, hist, h)
  {
  }
}
