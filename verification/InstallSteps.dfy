/** Installing a persisted edit, collecting garbage, and going on. */
module InstallSteps {
  import opened Options
  import opened Entries
  import opened Versions
  import opened VersionEdits
  import opened Writers
  import opened Engine
  import opened Invariant
  import opened Frames
  import opened WriterSteps
  import opened BackgroundSteps

  // ----- readers' side: the new version says the same -----

  lemma UniqueAll(E: set<Entry>, hist: set<Entry>, flying: set<Entry>, lastSeq: nat)
    requires E <= hist + flying && UniqueSeq(hist) && UniqueSeq(flying)
    requires forall h :: h in hist ==> h.seqno <= lastSeq
    requires forall f :: f in flying ==> f.seqno > lastSeq
    ensures UniqueSeq(E)
  {
  }

  lemma FlightFacts(s: State)
    requires PhaseOK(s.phase, s.writers)
    ensures forall x :: x in InFlight(s) ==> s.lastSeq < x.seqno
    ensures UniqueSeq(InFlight(s))
  {
    hide EntriesAt, GroupOps;
    if s.phase.Logging? {
      EntriesAtRange(s.lastSeq + 1, GroupOps(s.phase.members)[..s.phase.inserted]);
    }
  }

  lemma FlushInstalls(w: View, n: nat, level: nat, cutImm: nat, cutMem: nat, top: nat)
    requires LayersOK(w, cutImm, cutMem, top)
    requires NumbersBelow(w.version, n) && FlushLevelOK(w.version, level, w.imm)
    ensures LayersOK(View(w.mem, {}, AddTable(w.version, n, level, w.imm)), cutMem, cutMem, top)
    ensures All(View(w.mem, {}, AddTable(w.version, n, level, w.imm))) == All(w)
  {
    FlushKeepsOrder(w.version, n, level, w.imm);
    FlushContents(w.version, n, level, w.imm);
  }

  lemma CommitFlushView(s: State, t: State)
    requires ViewInv(s) && JobInv(s) && s.bg.Committing? && s.bg.what.FlushDone?
    requires SameLayers(Commit(s), t) && SameFlight(s, t)
    ensures ViewInv(t)
  {
    hide PlansOK, SnapshotsOK, FlushLevelOK, LayersOK, HistoryOK;
    var flushed := ImmEntries(s.memtables, s.imm);
    CutFacts(s);
    assert Current(s) == View(Current(s).mem, flushed, s.version);
    assert Current(t) == View(Current(s).mem, {}, s.bg.edit.version);
    if flushed == {} {
      RaiseCut(Current(s), s.cutImm, s.cutMem, Top(s));
    } else {
      var n, level :| NumbersBelow(s.version, n) && FlushLevelOK(s.version, level, flushed)
        && s.bg.edit.version == AddTable(s.version, n, level, flushed);
      FlushInstalls(Current(s), n, level, s.cutImm, s.cutMem, Top(s));
    }
  }

  lemma RaiseCut(w: View, cutImm: nat, cutMem: nat, top: nat)
    requires LayersOK(w, cutImm, cutMem, top) && w.imm == {}
    ensures LayersOK(w, cutMem, cutMem, top)
  {
  }

  lemma CompactInstalls(w: View, p: Plan, outs: map<nat, set<Entry>>, cutImm: nat, cutMem: nat, top: nat)
    requires LayersOK(w, cutImm, cutMem, top) && PlanOK(w.version, p) && CompactionResult(w.version, p, outs)
    ensures LayersOK(w.(version := Replace(w.version, p, outs)), cutImm, cutMem, top)
    ensures All(w.(version := Replace(w.version, p, outs))) <= All(w)
    ensures forall e :: e in All(w) && e !in All(w.(version := Replace(w.version, p, outs))) ==> e.seqno <= cutImm
  {
    CompactionKeepsOrder(w.version, p, outs);
    CompactionOnlyDrops(w.version, p, outs);
  }

  lemma CompactCovers(w: View, p: Plan, outs: map<nat, set<Entry>>, cutImm: nat, cutMem: nat, top: nat,
                      hist: set<Entry>, lo: nat, hi: nat)
    requires LayersOK(w, cutImm, cutMem, top) && PlanOK(w.version, p) && CompactionResult(w.version, p, outs)
    requires UniqueSeq(All(w)) && Cover(All(w), hist, lo, hi) && p.smallest <= hi
    ensures Cover(All(w.(version := Replace(w.version, p, outs))), hist, if lo < p.smallest then p.smallest else lo, hi)
  {
    hide PlanOK, CompactionResult, Cover;
    assert All(w) == (w.mem + w.imm) + Contents(w.version);
    CompactionKeepsCover(w.mem + w.imm, w.version, p, outs, hist, lo, hi);
  }

  lemma CommitCompactView(s: State, t: State)
    requires ViewInv(s) && JobInv(s) && s.bg.Committing? && s.bg.what.CompactDone?
    requires PhaseOK(s.phase, s.writers) && SameLayers(Commit(s), t) && SameFlight(s, t)
    ensures ViewInv(t)
  {
    hide SnapshotsOK, LayersOK, PlanOK, CompactionResult, PhaseOK, Cover;
    var job := s.bg.what.job;
    assert Current(t) == Current(s).(version := Replace(s.version, job.plan, job.outs));
    FlightFacts(s);
    UniqueAll(All(Current(s)), s.hist, InFlight(s), s.lastSeq);
    CompactInstalls(Current(s), job.plan, job.outs, s.cutImm, s.cutMem, Top(s));
    CompactCovers(Current(s), job.plan, job.outs, s.cutImm, s.cutMem, Top(s), s.hist, s.floor, s.lastSeq);
  }

  lemma MoveInstalls(w: View, p: Plan, cutImm: nat, cutMem: nat, top: nat)
    requires LayersOK(w, cutImm, cutMem, top) && TrivialMoveOK(w.version, p)
    ensures LayersOK(w.(version := MoveDown(w.version, p)), cutImm, cutMem, top)
    ensures All(w.(version := MoveDown(w.version, p))) == All(w)
  {
    hide TrivialMoveOK;
    MoveKeepsOrder(w.version, p);
  }

  lemma CommitMoveView(s: State, t: State)
    requires ViewInv(s) && JobInv(s) && s.bg.Committing? && s.bg.what.MoveDone?
    requires SameLayers(Commit(s), t) && SameFlight(s, t)
    ensures ViewInv(t)
  {
    hide SnapshotsOK, LayersOK, HistoryOK, TrivialMoveOK;
    assert Current(t) == Current(s).(version := MoveDown(s.version, s.bg.what.plan));
    MoveInstalls(Current(s), s.bg.what.plan, s.cutImm, s.cutMem, Top(s));
  }

  lemma CommitView(s: State, t: State)
    requires ViewInv(s) && JobInv(s) && s.bg.Committing? && PhaseOK(s.phase, s.writers)
    requires SameLayers(Commit(s), t) && SameFlight(s, t)
    ensures ViewInv(t)
  {
    hide ViewInv, JobInv, PhaseOK;
    match s.bg.what
    case FlushDone(_) => CommitFlushView(s, t);
    case CompactDone(_) => CommitCompactView(s, t);
    case MoveDone(_) => CommitMoveView(s, t);
  }

  // ----- the background job's side -----

  lemma SameInputs(v: Version, v': Version, p: Plan)
    requires forall n :: n in p.inputs ==> n in v && n in v' && v'[n] == v[n]
    ensures InputEntries(v', p) == InputEntries(v, p)
  {
    forall e ensures e in InputEntries(v', p) <==> e in InputEntries(v, p) {
      if e in InputEntries(v', p) {
        var n :| n in v' && n in p.inputs && e in v'[n].entries;
        assert n in v && e in v[n].entries;
      }
      if e in InputEntries(v, p) {
        var n :| n in v && n in p.inputs && e in v[n].entries;
        assert n in v' && e in v'[n].entries;
      }
    }
  }

  /** A flush in the middle of a compaction does not touch what the compaction relies on: a key
      of its inputs keeps the flushed entry out of the inputs' levels and everything below. */
  lemma PlanSurvivesFlush(v: Version, p: Plan, n: nat, level: nat, flushed: set<Entry>)
    requires PlanOK(v, p) && NumbersBelow(v, n) && FlushLevelOK(v, level, flushed)
    requires forall e, f :: e in Contents(v) && f in flushed ==> e.seqno < f.seqno
    ensures PlanOK(AddTable(v, n, level, flushed), p)
  {
    var v' := AddTable(v, n, level, flushed);
    SameInputs(v, v', p);
    forall i | i in InputEntries(v, p)
      ensures i in Contents(v) && exists j :: j in v && v[j].level <= p.level + 1 && i in v[j].entries
    {
      var j :| j in v && j in p.inputs && i in v[j].entries;
      assert v[j].level <= p.level + 1;
    }
    forall m, e | m in v' && v'[m].level >= p.level + 2 && e in v'[m].entries ensures e.key !in p.base {
      assert m == n ==> forall i :: i in InputEntries(v, p) ==> i.key != e.key;
    }
  }

  lemma CommitFlushJob(s: State, t: State)
    requires ViewInv(s) && JobInv(s) && s.bg.Committing? && s.bg.what.FlushDone?
    requires SameLayers(Commit(s), t) && t.snapshots == s.snapshots && t.bg == NextBg(s.bg.what)
    ensures JobInv(t)
  {
    hide PlanOK, FlushLevelOK, HistoryOK, MemtablesOK, VersionOrdered;
    if s.bg.what.outer.Some? {
      var p := s.bg.what.outer.value.plan;
      var flushed := ImmEntries(s.memtables, s.imm);
      if flushed != {} {
        var n, level :| NumbersBelow(s.version, n) && FlushLevelOK(s.version, level, flushed)
          && s.bg.edit.version == AddTable(s.version, n, level, flushed);
        PlanSurvivesFlush(s.version, p, n, level, flushed);
      }
    }
  }

  lemma CommitOtherJob(s: State, t: State)
    requires JobInv(s) && s.bg.Committing? && !s.bg.what.FlushDone?
    requires SameLayers(Commit(s), t) && t.snapshots == s.snapshots && t.bg.Idle?
    ensures JobInv(t)
  {
    hide PlanOK, CompactionResult, TrivialMoveOK, AddsFlushed;
  }

  lemma CommitJob(s: State, t: State)
    requires ViewInv(s) && JobInv(s) && s.bg.Committing?
    requires SameLayers(Commit(s), t) && t.snapshots == s.snapshots && t.bg == NextBg(s.bg.what)
    ensures JobInv(t)
  {
    hide ViewInv, JobInv;
    if s.bg.what.FlushDone? {
      CommitFlushJob(s, t);
    } else {
      CommitOtherJob(s, t);
    }
  }

  lemma CommitDisk(s: State, t: State)
    requires DiskInv(s) && JobInv(s) && s.bg.Committing? && s.bg.persisted
    requires t.bg == NextBg(s.bg.what) && t.version == s.bg.edit.version && t.versLog == s.bg.edit.log
    requires t.floor == Commit(s).floor && t.cutImm == Commit(s).cutImm
    requires t.readers == s.readers && t.disk == s.disk && t.nextFile == s.nextFile
    requires t.pending == s.pending - (if s.bg.what.CompactDone? then s.bg.what.job.outs.Keys else {})
    ensures DiskInv(t)
  {
    hide PlansOK, SnapshotsOK, CompactionResult, TrivialMoveOK, AddsFlushed;
    hide OnDisk;
    forall n ensures (Uses(t, n) ==> Uses(s, n)) && (Reserves(t.bg, n) ==> Reserves(s.bg, n)) {
    }
  }

  /** With its table installed, the flushed memtable's log is not needed any more. */
  lemma ForgetImmLog(s: State, unapplied: set<Entry>, top: nat)
    requires s.imm.Some?
    requires LogsOK(s.disk.logs, s.imm, ImmEntries(s.memtables, s.imm), Current(s).mem, unapplied, s.logNum, s.versLog,
                    s.cutImm, s.cutMem, top)
    ensures LogsOK(s.disk.logs, None, {}, Current(s).mem, unapplied, s.logNum, s.logNum, s.cutMem, s.cutMem, top)
  {
    hide Ascends;
  }

  lemma CommitLog(s: State, t: State)
    requires LogInv(s) && JobInv(s) && s.bg.Committing?
    requires SameLayers(Commit(s), t) && t.phase == s.phase && t.lost == s.lost && t.disk.logs == s.disk.logs
    requires t.logNum == s.logNum && t.versLog == s.bg.edit.log && t.nextFile == s.nextFile && t.bgError == s.bgError
    ensures LogInv(t)
  {
    hide PlansOK, SnapshotsOK, CompactionResult, TrivialMoveOK, AddsFlushed, LogsOK;
    if s.bg.what.FlushDone? {
      ForgetImmLog(s, Unapplied(s), LoggedTop(s.lastSeq, s.phase));
    }
  }

  lemma CommitKeeps(s: State, otherWork: bool)
    requires Core(s) && s.bg.Committing? && s.bg.persisted
    ensures Core(Committed(s, otherWork))
  {
    hide ViewInv, ReadersOK, JobInv, DiskInv, LogInv, QueueInv, PhaseOK;
    var t := Committed(s, otherWork);
    QueueFacts(s);
    CommitView(s, t);
    ReadersFrame(s, t);
    CommitJob(s, t);
    CommitDisk(s, t);
    CommitLog(s, t);
    QueueFrame(s, t);
  }

  // ----- garbage collection -----

  /** DeleteObsoleteFiles keeps every table some thread may still read or is still writing,
      and every log that recovery would still replay. */
  lemma CollectSpares(s: State)
    requires Core(s) && !s.bg.Committing? && !s.bg.Building?
    ensures var t := Collect(s);
      && (forall n :: Uses(s, n) || Reserves(s.bg, n) ==>
            n in s.disk.tables && n in t.disk.tables && t.disk.tables[n] == s.disk.tables[n])
      && (forall n :: n in s.disk.logs && n >= s.disk.manifest.log ==>
            n in t.disk.logs && t.disk.logs[n] == s.disk.logs[n])
  {
    hide ViewInv, ReadersOK, JobInv, LogInv, QueueInv;
    forall n | Uses(s, n) || Reserves(s.bg, n) ensures n in Live(s) && n in s.disk.tables {
      if n in ReaderFiles(s.readers) {
        var r :| r in s.readers && n in s.readers[r].version;
        assert OnDisk(s.disk.tables, s.readers[r].version);
      }
    }
  }

  lemma OnDiskKept(before: map<nat, set<Entry>>, after: map<nat, set<Entry>>, v: Version)
    requires OnDisk(before, v) && forall n :: n in v ==> n in after && n in before && after[n] == before[n]
    ensures OnDisk(after, v)
  {
  }

  lemma CollectFiles(s: State)
    requires FilesOK(s) && !s.bg.Committing? && !s.bg.Building?
    requires forall n :: Uses(s, n) || Reserves(s.bg, n) ==>
      n in s.disk.tables && n in Collect(s).disk.tables && Collect(s).disk.tables[n] == s.disk.tables[n]
    ensures FilesOK(Collect(s))
  {
    CollectDiskOnly(s);
    hide OnDisk, Collect;
    var t := Collect(s);
    assert forall n :: n in s.version || n in s.disk.manifest.version ==> Uses(s, n);
    assert forall n :: JobOf(s.bg).Some? && n in JobOf(s.bg).value.outs ==> Reserves(s.bg, n);
    OnDiskKept(s.disk.tables, t.disk.tables, s.version);
    OnDiskKept(s.disk.tables, t.disk.tables, s.disk.manifest.version);
    forall r | r in t.readers ensures OnDisk(t.disk.tables, t.readers[r].version) {
      forall n | n in s.readers[r].version ensures Uses(s, n) {
        assert n in ReaderFiles(s.readers);
      }
      OnDiskKept(s.disk.tables, t.disk.tables, s.readers[r].version);
    }
  }

  lemma CollectDiskOnly(s: State)
    ensures Collect(s) == s.(disk := Collect(s).disk) && Collect(s).disk.manifest == s.disk.manifest
  {
  }

  lemma CollectNumbers(s: State)
    requires DiskInv(s)
    ensures NumbersOK(Collect(s))
  {
    hide FilesOK, ManifestOK;
    var t := Collect(s);
    forall n ensures Uses(t, n) ==> Uses(s, n) {
    }
  }

  lemma CollectDisk(s: State)
    requires Core(s) && !s.bg.Committing? && !s.bg.Building?
    ensures DiskInv(Collect(s))
  {
    CollectSpares(s);
    CollectNumbers(s);
    CollectDiskOnly(s);
    CollectFiles(s);
    hide ViewInv, ReadersOK, JobInv, LogInv, QueueInv, NumbersOK, FilesOK, Collect;
  }

  lemma CollectKeepsLogs(s: State)
    ensures var t := Collect(s);
      && (forall n :: n in t.disk.logs ==> n in s.disk.logs && t.disk.logs[n] == s.disk.logs[n])
      && (forall n :: n in s.disk.logs && n >= s.versLog ==> n in t.disk.logs)
  {
    hide Live;
  }

  /** Fewer logs, but all those still needed. */
  lemma FewerLogs(logs: map<nat, seq<Record>>, fewer: map<nat, seq<Record>>, imm: Option<nat>, immEntries: set<Entry>,
                  memEntries: set<Entry>, unapplied: set<Entry>, logNum: nat, versLog: nat, cutImm: nat, cutMem: nat,
                  top: nat)
    requires LogsOK(logs, imm, immEntries, memEntries, unapplied, logNum, versLog, cutImm, cutMem, top)
    requires forall n :: n in fewer ==> n in logs && fewer[n] == logs[n]
    requires forall n :: n in logs && n >= versLog ==> n in fewer
    ensures LogsOK(fewer, imm, immEntries, memEntries, unapplied, logNum, versLog, cutImm, cutMem, top)
  {
    hide Ascends, RecordEntries;
  }

  lemma CollectLog(s: State)
    requires LogInv(s)
    ensures LogInv(Collect(s))
  {
    CollectKeepsLogs(s);
    CollectDiskOnly(s);
    var t := Collect(s);
    hide Collect, LogsOK;
    FewerLogs(s.disk.logs, t.disk.logs, s.imm, ImmEntries(s.memtables, s.imm), Current(s).mem, Unapplied(s), s.logNum,
              s.versLog, s.cutImm, s.cutMem, LoggedTop(s.lastSeq, s.phase));
    assert Unapplied(t) == Unapplied(s) && Current(t) == Current(s);
  }

  lemma CollectJob(s: State)
    requires JobInv(s)
    ensures JobInv(Collect(s))
  {
    JobFrame(s, Collect(s));
  }

  lemma CollectKeeps(s: State)
    requires Core(s) && !s.bg.Committing? && !s.bg.Building?
    ensures Core(Collect(s))
  {
    hide ViewInv, ReadersOK, JobInv, DiskInv, LogInv, QueueInv;
    var t := Collect(s);
    ViewFrame(s, t);
    ReadersFrame(s, t);
    CollectJob(s);
    CollectDisk(s);
    CollectLog(s);
    QueueFrame(s, t);
  }

  lemma InstallKeeps(s: State, otherWork: bool)
    requires Inv(s) && s.bg.Committing? && s.bg.persisted
    ensures Inv(Install(s, otherWork))
  {
    hide Core;
    var t := Committed(s, otherWork);
    CommitKeeps(s, otherWork);
    if s.bg.what.MoveDone? {
      ScheduleKeeps(t);
    } else {
      CollectKeeps(t);
      ScheduleKeeps(Collect(t));
    }
  }
}
