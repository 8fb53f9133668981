/** Every action of the background thread keeps the invariant. */
module BackgroundSteps {
  import opened Options
  import opened Entries
  import opened Versions
  import opened VersionEdits
  import opened Writers
  import opened Engine
  import opened Invariant
  import opened Frames

  // ----- starting and giving up jobs -----

  /** A job whose edit has not reached the MANIFEST can be dropped without a trace. */
  lemma DropJob(s: State, t: State)
    requires Core(s) && !(s.bg.Committing? && s.bg.persisted)
    requires t == s.(bg := Idle, pending := t.pending, bgError := s.bgError || t.bgError, manual := t.manual)
    ensures Core(t)
  {
    hide ViewInv, ReadersOK, JobInv, DiskInv, LogInv, QueueInv;
    ViewFrame(s, t);
    ReadersFrame(s, t);
    DropJobJob(s, t);
    DropJobDisk(s, t);
    LogFrame(s, t);
    QueueFrame(s, t);
  }

  lemma DropJobJob(s: State, t: State)
    requires JobInv(s) && SameLayers(s, t) && t.snapshots == s.snapshots && t.bg.Idle?
    ensures JobInv(t)
  {
  }

  lemma DropJobDisk(s: State, t: State)
    requires DiskInv(s) && !(s.bg.Committing? && s.bg.persisted) && t.bg.Idle?
    requires t.version == s.version && t.readers == s.readers && t.disk == s.disk && t.nextFile == s.nextFile
    requires t.versLog == s.versLog && t.floor == s.floor && t.cutImm == s.cutImm
    ensures DiskInv(t)
  {
    hide OnDisk;
    forall n ensures (Uses(t, n) ==> Uses(s, n)) && !Reserves(t.bg, n) {
    }
  }

  lemma EndJobKeeps(s: State, t: State)
    requires Core(s) && !(s.bg.Committing? && s.bg.persisted)
    requires t == s.(pending := t.pending, bgError := s.bgError || t.bgError, manual := t.manual)
    ensures Inv(EndJob(t))
  {
    hide Core;
    DropJob(s, t.(bg := Idle));
    ScheduleKeeps(t.(bg := Idle));
  }

  lemma GiveUpKeeps(s: State)
    requires Inv(s) && CanGiveUp(s)
    ensures Inv(GiveUp(s))
  {
    hide Core;
    EndJobKeeps(s, s.(manual := s.manual && (s.shutdown || s.bgError)));
  }

  lemma AbortCompactionKeeps(s: State)
    requires Inv(s) && s.bg.Compacting?
    ensures Inv(AbortCompaction(s))
  {
    hide Core;
    var manual := s.manual && !s.bg.job.byRequest;
    EndJobKeeps(s, s.(bgError := true, pending := s.pending - s.bg.job.outs.Keys, manual := manual));
  }

  // ----- flushing the immutable memtable -----

  lemma StartFlushJob(s: State)
    requires JobInv(s) && DiskInv(s) && CanStartFlush(s)
    ensures JobInv(StartFlush(s))
  {
    hide FilesOK, ManifestOK, PlanOK, SnapshotsOK;
    forall n | n in s.version ensures n < s.nextFile {
      assert Uses(s, n);
    }
  }

  lemma StartFlushDisk(s: State)
    requires DiskInv(s) && CanStartFlush(s)
    ensures DiskInv(StartFlush(s))
  {
    hide OnDisk;
    var t := StartFlush(s);
    forall n ensures (Uses(t, n) ==> Uses(s, n)) && (Reserves(t.bg, n) ==> Reserves(s.bg, n) || n == s.nextFile) {
    }
    assert forall n :: s.bg.Compacting? && n in s.bg.job.outs ==> Reserves(s.bg, n);
  }

  lemma StartFlushKeeps(s: State)
    requires Inv(s) && CanStartFlush(s)
    ensures Inv(StartFlush(s))
  {
    hide ViewInv, ReadersOK, JobInv, DiskInv, LogInv, QueueInv;
    var t := StartFlush(s);
    ViewFrame(s, t);
    ReadersFrame(s, t);
    StartFlushJob(s);
    StartFlushDisk(s);
    LogFrame(s, t);
    QueueFrame(s, t);
  }

  lemma FinishBuildJob(s: State, level: nat)
    requires JobInv(s) && CanFinishBuild(s, level)
    requires s.floor <= s.lastSeq && s.cutImm <= s.lastSeq && s.cutMem <= s.lastSeq
    ensures JobInv(FinishBuild(s, level))
  {
    hide PlanOK, SnapshotsOK;
    var t := FinishBuild(s, level);
    assert AddsFlushed(s.version, t.bg.edit, ImmEntries(s.memtables, s.imm));
  }

  lemma OnDiskElsewhere(tables: map<nat, set<Entry>>, v: Version, n: nat, content: set<Entry>)
    requires OnDisk(tables, v) && n !in v
    ensures OnDisk(tables[n := content], v)
  {
  }

  lemma OnDiskAdded(tables: map<nat, set<Entry>>, v: Version, n: nat, level: nat, flushed: set<Entry>)
    requires OnDisk(tables, v)
    ensures OnDisk(tables[n := flushed], AddTable(v, n, level, flushed))
  {
  }

  lemma FinishBuildFiles(s: State, level: nat)
    requires DiskInv(s) && CanFinishBuild(s, level)
    ensures FilesOK(FinishBuild(s, level))
  {
    var t := FinishBuild(s, level);
    var n, flushed := s.bg.number, ImmEntries(s.memtables, s.imm);
    assert Reserves(s.bg, n);
    if flushed != {} {
      assert !Uses(s, n);
      OnDiskElsewhere(s.disk.tables, s.version, n, flushed);
      OnDiskElsewhere(s.disk.tables, s.disk.manifest.version, n, flushed);
      OnDiskAdded(s.disk.tables, s.version, n, level, flushed);
      forall r | r in t.readers ensures OnDisk(t.disk.tables, t.readers[r].version) {
        assert n in s.readers[r].version ==> n in ReaderFiles(s.readers);
        assert !Uses(s, n);
        OnDiskElsewhere(s.disk.tables, s.readers[r].version, n, flushed);
      }
    }
  }

  lemma FinishBuildNumbers(s: State, level: nat)
    requires DiskInv(s) && CanFinishBuild(s, level)
    ensures NumbersOK(FinishBuild(s, level))
  {
    hide FilesOK, ManifestOK, FlushLevelOK;
    var t := FinishBuild(s, level);
    assert Reserves(s.bg, s.bg.number);
    forall n ensures Uses(t, n) ==> Uses(s, n) || n == s.bg.number {
    }
    forall n ensures Reserves(t.bg, n) ==> Reserves(s.bg, n) && n != s.bg.number {
    }
  }

  lemma FinishBuildManifest(s: State, level: nat)
    requires DiskInv(s) && CanFinishBuild(s, level) && s.logNum < s.nextFile
    ensures DiskInv(FinishBuild(s, level))
  {
    hide FilesOK, NumbersOK, FlushLevelOK;
    FinishBuildFiles(s, level);
    FinishBuildNumbers(s, level);
    var t := FinishBuild(s, level);
    EditBelowNext(s, level);
  }

  lemma EditBelowNext(s: State, level: nat)
    requires NumbersOK(s) && CanFinishBuild(s, level)
    ensures NumbersBelow(FinishBuild(s, level).bg.edit.version, s.nextFile)
  {
    hide FlushLevelOK;
    assert Reserves(s.bg, s.bg.number);
    assert forall n :: n in s.version ==> Uses(s, n);
  }

  lemma LogNumber(s: State)
    requires LogInv(s)
    ensures s.logNum < s.nextFile
  {
  }

  lemma CutFacts(s: State)
    requires ViewInv(s)
    ensures s.floor <= s.lastSeq && s.cutImm <= s.cutMem <= s.lastSeq
  {
  }

  lemma FinishBuildKeeps(s: State, level: nat)
    requires Inv(s) && CanFinishBuild(s, level)
    ensures Inv(FinishBuild(s, level))
  {
    hide ViewInv, ReadersOK, JobInv, DiskInv, LogInv, QueueInv, FlushLevelOK;
    var t := FinishBuild(s, level);
    CutFacts(s);
    ViewFrame(s, t);
    ReadersFrame(s, t);
    FinishBuildJob(s, level);
    LogNumber(s);
    FinishBuildManifest(s, level);
    LogFrame(s, t);
    QueueFrame(s, t);
  }

  /** Going back to the compaction that a flush has interrupted. */
  lemma BackToOuter(s: State, t: State, job: Job)
    requires Core(s) && JobOf(s.bg) == Some(job) && (s.bg.Building? || (s.bg.Committing? && s.bg.what.FlushDone?))
    requires !(s.bg.Committing? && s.bg.persisted)
    requires t == s.(bg := Compacting(job), bgError := true, pending := t.pending)
    requires t.pending == if s.bg.Building? then s.pending - {s.bg.number} else s.pending
    ensures Inv(t)
  {
    hide ViewInv, ReadersOK, JobInv, DiskInv, LogInv, QueueInv;
    ViewFrame(s, t);
    ReadersFrame(s, t);
    BackToOuterJob(s, t, job);
    BackToOuterDisk(s, t, job);
    LogFrame(s, t);
    QueueFrame(s, t);
  }

  lemma BackToOuterJob(s: State, t: State, job: Job)
    requires JobInv(s) && JobOf(s.bg) == Some(job) && t.bg == Compacting(job)
    requires SameLayers(s, t) && t.snapshots == s.snapshots
    ensures JobInv(t)
  {
    hide PlanOK;
  }

  lemma BackToOuterDisk(s: State, t: State, job: Job)
    requires DiskInv(s) && JobOf(s.bg) == Some(job) && (s.bg.Building? || (s.bg.Committing? && s.bg.what.FlushDone?))
    requires !(s.bg.Committing? && s.bg.persisted) && t.bg == Compacting(job)
    requires t.version == s.version && t.readers == s.readers && t.disk == s.disk && t.nextFile == s.nextFile
    requires t.versLog == s.versLog && t.floor == s.floor && t.cutImm == s.cutImm
    requires t.pending == if s.bg.Building? then s.pending - {s.bg.number} else s.pending
    ensures DiskInv(t)
  {
    hide OnDisk;
    forall n ensures (Uses(t, n) ==> Uses(s, n)) && (Reserves(t.bg, n) ==> Reserves(s.bg, n)) {
    }
  }

  lemma BuildFailsKeeps(s: State)
    requires Inv(s) && s.bg.Building?
    ensures Inv(BuildFails(s))
  {
    hide Core;
    var t := s.(bgError := true, pending := s.pending - {s.bg.number});
    if s.bg.outer.Some? {
      BackToOuter(s, BuildFails(s), s.bg.outer.value);
    } else {
      EndJobKeeps(s, t);
    }
  }

  lemma CommitFailsKeeps(s: State)
    requires Inv(s) && CanPersist(s)
    ensures Inv(CommitFails(s))
  {
    hide Core;
    var t := s.(bgError := true);
    match s.bg.what
    case FlushDone(outer) =>
      if outer.Some? {
        BackToOuter(s, CommitFails(s), outer.value);
      } else {
        EndJobKeeps(s, t);
      }
    case CompactDone(job) =>
      EndJobKeeps(s, t.(pending := t.pending - job.outs.Keys, manual := t.manual && !job.byRequest));
    case MoveDone(_) => EndJobKeeps(s, t);
  }

  // ----- compaction up to its commit -----

  lemma StartCompactionJob(s: State, p: Plan)
    requires JobInv(s) && CanCompact(s, p)
    ensures JobInv(StartCompaction(s, p))
  {
    hide PlanOK;
  }

  lemma StartCompactionDisk(s: State, p: Plan)
    requires DiskInv(s) && CanCompact(s, p)
    ensures DiskInv(StartCompaction(s, p))
  {
    hide PlanOK, OnDisk;
    var t := StartCompaction(s, p);
    forall n ensures (Uses(t, n) ==> Uses(s, n)) && !Reserves(t.bg, n) {
    }
  }

  lemma StartCompactionKeeps(s: State, p: Plan)
    requires Inv(s) && CanCompact(s, p)
    ensures Inv(StartCompaction(s, p))
  {
    hide ViewInv, ReadersOK, JobInv, DiskInv, LogInv, QueueInv, PlanOK;
    var t := StartCompaction(s, p);
    ViewFrame(s, t);
    ReadersFrame(s, t);
    StartCompactionJob(s, p);
    StartCompactionDisk(s, p);
    LogFrame(s, t);
    QueueFrame(s, t);
  }

  lemma StartMoveJob(s: State, p: Plan)
    requires JobInv(s) && CanMove(s, p) && s.floor <= s.lastSeq && s.cutImm <= s.lastSeq
    ensures JobInv(StartMove(s, p))
  {
    hide PlanOK;
  }

  lemma StartMoveDisk(s: State, p: Plan)
    requires DiskInv(s) && CanMove(s, p)
    ensures DiskInv(StartMove(s, p))
  {
    hide PlanOK;
    var t := StartMove(s, p);
    assert t.bg.edit.version.Keys == s.version.Keys;
    forall n | n in t.bg.edit.version ensures n < s.nextFile {
      assert Uses(s, n);
    }
    forall n ensures (Uses(t, n) ==> Uses(s, n)) && !Reserves(t.bg, n) {
    }
  }

  lemma StartMoveKeeps(s: State, p: Plan)
    requires Inv(s) && CanMove(s, p)
    ensures Inv(StartMove(s, p))
  {
    hide ViewInv, ReadersOK, JobInv, DiskInv, LogInv, QueueInv, PlanOK;
    var t := StartMove(s, p);
    CutFacts(s);
    ViewFrame(s, t);
    ReadersFrame(s, t);
    StartMoveJob(s, p);
    StartMoveDisk(s, p);
    LogFrame(s, t);
    QueueFrame(s, t);
  }

  /** Writing to a file number that nothing in use refers to. */
  lemma WriteReserved(s: State, t: State, n: nat, content: set<Entry>)
    requires FilesOK(s) && !Uses(s, n) && !s.bg.Committing? && !t.bg.Committing?
    requires t.version == s.version && t.readers == s.readers
    requires t.disk == s.disk.(tables := s.disk.tables[n := content])
    requires JobOf(s.bg).Some? && JobOf(t.bg).Some?
    requires JobOf(t.bg).value.outs == JobOf(s.bg).value.outs[n := content]
    ensures FilesOK(t)
  {
    OnDiskElsewhere(s.disk.tables, s.version, n, content);
    OnDiskElsewhere(s.disk.tables, s.disk.manifest.version, n, content);
    forall r | r in t.readers ensures OnDisk(t.disk.tables, t.readers[r].version) {
      assert n in s.readers[r].version ==> n in ReaderFiles(s.readers);
      OnDiskElsewhere(s.disk.tables, s.readers[r].version, n, content);
    }
  }

  lemma OpenOutputDisk(s: State)
    requires DiskInv(s) && s.bg.Compacting?
    ensures DiskInv(OpenOutput(s))
  {
    hide FilesOK;
    var t := OpenOutput(s);
    assert !Uses(s, s.nextFile);
    WriteReserved(s, t, s.nextFile, {});
    forall n ensures (Uses(t, n) ==> Uses(s, n)) && (Reserves(t.bg, n) ==> Reserves(s.bg, n) || n == s.nextFile) {
    }
  }

  lemma WriteOutputDisk(s: State, n: nat, content: set<Entry>)
    requires DiskInv(s) && CanWriteOutput(s, n)
    ensures DiskInv(WriteOutput(s, n, content))
  {
    hide FilesOK;
    var t := WriteOutput(s, n, content);
    assert Reserves(s.bg, n) && !Uses(s, n);
    WriteReserved(s, t, n, content);
    forall k ensures (Uses(t, k) ==> Uses(s, k)) && (Reserves(t.bg, k) ==> Reserves(s.bg, k)) {
    }
  }

  lemma SamePlanJob(s: State, t: State)
    requires JobInv(s) && s.bg.Compacting? && t.bg.Compacting? && t.bg.job.plan == s.bg.job.plan
    requires SameLayers(s, t) && t.snapshots == s.snapshots
    ensures JobInv(t)
  {
    hide PlanOK;
  }

  lemma OpenOutputKeeps(s: State)
    requires Inv(s) && s.bg.Compacting?
    ensures Inv(OpenOutput(s))
  {
    hide ViewInv, ReadersOK, JobInv, DiskInv, LogInv, QueueInv;
    var t := OpenOutput(s);
    ViewFrame(s, t);
    ReadersFrame(s, t);
    SamePlanJob(s, t);
    OpenOutputDisk(s);
    LogFrame(s, t);
    QueueFrame(s, t);
  }

  lemma WriteOutputKeeps(s: State, n: nat, content: set<Entry>)
    requires Inv(s) && CanWriteOutput(s, n)
    ensures Inv(WriteOutput(s, n, content))
  {
    hide ViewInv, ReadersOK, JobInv, DiskInv, LogInv, QueueInv;
    var t := WriteOutput(s, n, content);
    ViewFrame(s, t);
    ReadersFrame(s, t);
    SamePlanJob(s, t);
    WriteOutputDisk(s, n, content);
    LogFrame(s, t);
    QueueFrame(s, t);
  }

  lemma CommitCompactionJob(s: State)
    requires JobInv(s) && CanCommitCompaction(s) && s.floor <= s.lastSeq && s.cutImm <= s.lastSeq
    ensures JobInv(CommitCompaction(s))
  {
    hide PlanOK, CompactionResult;
  }

  lemma CommitCompactionDisk(s: State)
    requires DiskInv(s) && CanCommitCompaction(s)
    ensures DiskInv(CommitCompaction(s))
  {
    hide CompactionResult;
    var t := CommitCompaction(s);
    var p, outs := s.bg.job.plan, s.bg.job.outs;
    forall n | n in t.bg.edit.version
      ensures n < s.nextFile && n in s.disk.tables && s.disk.tables[n] == t.bg.edit.version[n].entries
    {
      assert n in outs || n in s.version;
      assert Reserves(s.bg, n) || Uses(s, n);
    }
    forall n ensures (Uses(t, n) ==> Uses(s, n) || Reserves(s.bg, n)) && !Reserves(t.bg, n) {
    }
  }

  lemma CommitCompactionKeeps(s: State)
    requires Inv(s) && CanCommitCompaction(s)
    ensures Inv(CommitCompaction(s))
  {
    hide ViewInv, ReadersOK, JobInv, DiskInv, LogInv, QueueInv, CompactionResult;
    var t := CommitCompaction(s);
    CutFacts(s);
    ViewFrame(s, t);
    ReadersFrame(s, t);
    CommitCompactionJob(s);
    CommitCompactionDisk(s);
    LogFrame(s, t);
    QueueFrame(s, t);
  }

  // ----- writing and installing the edit -----

  lemma PersistJob(s: State)
    requires JobInv(s) && CanPersist(s)
    ensures JobInv(Persist(s))
  {
    hide PlanOK, CompactionResult, AddsFlushed, TrivialMoveOK;
  }

  lemma PersistDisk(s: State)
    requires DiskInv(s) && CanPersist(s)
    ensures DiskInv(Persist(s))
  {
    var t := Persist(s);
    hide OnDisk;
    forall n ensures (Uses(t, n) ==> Uses(s, n)) && (Reserves(t.bg, n) ==> Reserves(s.bg, n)) {
    }
  }

  lemma PersistKeeps(s: State)
    requires Inv(s) && CanPersist(s)
    ensures Inv(Persist(s))
  {
    hide ViewInv, ReadersOK, JobInv, DiskInv, LogInv, QueueInv;
    var t := Persist(s);
    ViewFrame(s, t);
    ReadersFrame(s, t);
    PersistJob(s);
    PersistDisk(s);
    LogFrame(s, t);
    QueueFrame(s, t);
  }
}
