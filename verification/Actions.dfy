/** The actions of the whole system, and what none of them touches. */
module Actions {
  import opened Options
  import opened Entries
  import opened Versions
  import opened VersionEdits
  import opened Writers
  import opened Engine
  import opened Durability
  import opened Recovery

  datatype Action =
    | DoEnqueue(w: Writer)
    | DoSwitch
    | DoBeginGroup(n: nat)
    | DoAppendLog(ok: bool)
    | DoSyncLog(ok: bool)
    | DoInsert
    | DoPublish
    | DoFinishFailed
    | DoLeaveAlone(ok: bool)
    | DoTakeSnapshot
    | DoReleaseSnapshot(i: nat)
    | DoStartGet(id: nat, key: Key, snap: nat)
    | DoFinishGet(id: nat, charge: bool)
    | DoRequestManual
    | DoCancelManual
    | DoShutdown
    | DoGiveUp
    | DoStartFlush
    | DoFinishBuild(level: nat)
    | DoBuildFails
    | DoStartCompaction(plan: Plan)
    | DoStartMove(plan: Plan)
    | DoOpenOutput
    | DoWriteOutput(n: nat, content: set<Entry>)
    | DoCommitCompaction
    | DoAbortCompaction
    | DoPersist
    | DoInstall(otherWork: bool)
    | DoCommitFails
    | DoCrash(left: Disk)
    | DoBeginReplay
    | DoBuildChunk(c: Chunk)
    | DoMakeLog(newLog: nat)
    | DoCommitOpen
    | DoOpen(otherWork: bool)

  /** A writer moves. */
  ghost predicate WriterStep(s: State, a: Action, t: State) {
    match a
    case DoEnqueue(w) => t == Enqueue(s, w)
    case DoSwitch => CanSwitch(s) && t == Switch(s)
    case DoBeginGroup(n) => CanBeginGroup(s, n) && t == BeginGroup(s, n)
    case DoAppendLog(ok) => CanAppendLog(s) && t == if ok then AppendLog(s) else AppendLogFails(s)
    case DoSyncLog(ok) => CanSyncLog(s) && t == if ok then SyncLog(s) else SyncLogFails(s)
    case DoInsert => CanInsert(s) && t == Insert(s)
    case DoPublish => CanPublish(s) && t == Publish(s)
    case DoFinishFailed => CanFinishFailed(s) && t == FinishFailed(s)
    case DoLeaveAlone(ok) => CanLeaveAlone(s, ok) && t == LeaveAlone(s, ok)
    case _ => false
  }

  /** A reader, or a request from outside. */
  ghost predicate ReaderStep(s: State, a: Action, t: State) {
    match a
    case DoTakeSnapshot => t == TakeSnapshot(s)
    case DoReleaseSnapshot(i) => i < |s.snapshots| && t == ReleaseSnapshot(s, i)
    case DoStartGet(id, key, snap) => CanStartGet(s, id, snap) && t == StartGet(s, id, key, snap)
    case DoFinishGet(id, charge) => id in s.readers && t == FinishGet(s, id, charge)
    case DoRequestManual => t == RequestManual(s)
    case DoCancelManual => t == CancelManual(s)
    case DoShutdown => t == Shutdown(s)
    case _ => false
  }

  /** The background thread flushes, or deals with an edit. */
  ghost predicate FlushStep(s: State, a: Action, t: State) {
    match a
    case DoGiveUp => CanGiveUp(s) && t == GiveUp(s)
    case DoStartFlush => CanStartFlush(s) && t == StartFlush(s)
    case DoFinishBuild(level) => CanFinishBuild(s, level) && t == FinishBuild(s, level)
    case DoBuildFails => s.bg.Building? && t == BuildFails(s)
    case DoPersist => CanPersist(s) && t == Persist(s)
    case DoInstall(otherWork) => s.bg.Committing? && s.bg.persisted && t == Install(s, otherWork)
    case DoCommitFails => CanPersist(s) && t == CommitFails(s)
    case _ => false
  }

  /** The background thread compacts. */
  ghost predicate CompactionStep(s: State, a: Action, t: State) {
    match a
    case DoStartCompaction(p) => CanCompact(s, p) && t == StartCompaction(s, p)
    case DoStartMove(p) => CanMove(s, p) && t == StartMove(s, p)
    case DoOpenOutput => s.bg.Compacting? && t == OpenOutput(s)
    case DoWriteOutput(n, content) => CanWriteOutput(s, n) && t == WriteOutput(s, n, content)
    case DoCommitCompaction => CanCommitCompaction(s) && t == CommitCompaction(s)
    case DoAbortCompaction => s.bg.Compacting? && t == AbortCompaction(s)
    case _ => false
  }

  /** The process dies, whatever it was doing, or recovery takes its next step. */
  ghost predicate BootStep(s: State, a: Action, t: State) {
    match a
    case DoCrash(left) => Spares(s.disk, left) && t == Crash(s, left)
    case DoBeginReplay => s.boot.Down? && t == BeginReplay(s)
    case DoBuildChunk(c) => CanBuildChunk(s, c) && t == BuildChunk(s, c)
    case DoMakeLog(newLog) => CanMakeLog(s, newLog) && t == MakeLog(s, newLog)
    case DoCommitOpen => s.boot.LogMade? && t == CommitOpen(s)
    case DoOpen(otherWork) => s.boot.Written? && t == Open(s, otherWork)
    case _ => false
  }

  /** One of the threads of an open database moves. */
  ghost predicate EngineStep(s: State, a: Action, t: State) {
    s.boot.Up? && (WriterStep(s, a, t) || ReaderStep(s, a, t) || FlushStep(s, a, t) || CompactionStep(s, a, t))
  }

  /** `a` takes the system from `s` to `t`. */
  ghost predicate Step(s: State, a: Action, t: State) {
    EngineStep(s, a, t) || BootStep(s, a, t)
  }

  // ----- the history only grows; an open database stays open until it crashes -----

  predicate SameHistory(s: State, t: State) {
    t.hist == s.hist && t.lastSeq == s.lastSeq && t.boot == s.boot
  }

  /** Snapshots and reads in progress stay as they are. */
  predicate SameReaders(s: State, t: State) {
    t.snapshots == s.snapshots && t.readers == s.readers
  }

  /** So do the writers, and what became of those that left. */
  predicate SameQueue(s: State, t: State) {
    t.writers == s.writers && t.phase == s.phase && t.arrivals == s.arrivals && t.groups == s.groups
  }

  /** Nobody has joined the queue since, and whoever has left it has left for good. */
  predicate QueueGoesOn(s: State, t: State) {
    t.arrivals == s.arrivals && s.groups <= t.groups
  }

  /** What the background thread, readers and requests leave alone: the history, the queue, and
      the room of whoever waits at its head. */
  predicate Quiet(s: State, t: State) {
    SameHistory(s, t) && SameQueue(s, t) && PausedBy(s, t)
  }

  /** What the background thread leaves alone. */
  predicate Silent(s: State, t: State) {
    Quiet(s, t) && SameReaders(s, t)
  }

  lemma ScheduleQuiet(s: State)
    ensures Silent(s, MaybeSchedule(s))
  {
    hide HasWork;
  }

  lemma CollectQuiet(s: State)
    ensures Silent(s, Collect(s))
  {
    hide Live;
  }

  lemma HousekeepingQuiet(s: State, outer: Option<Job>)
    ensures Silent(s, MaybeSchedule(s)) && Silent(s, EndJob(s)) && Silent(s, Collect(s)) && Silent(s, Resume(s, outer))
  {
    hide MaybeSchedule, Collect;
    ScheduleQuiet(s);
    ScheduleQuiet(s.(bg := Idle));
    CollectQuiet(s);
  }

  lemma InstallQuiet(s: State, otherWork: bool)
    requires s.bg.Committing?
    ensures Silent(s, Install(s, otherWork))
  {
    hide MaybeSchedule, Collect;
    var t := Committed(s, otherWork);
    HousekeepingQuiet(t, None);
    HousekeepingQuiet(Collect(t), None);
  }

  lemma CommitFailsQuiet(s: State)
    requires s.bg.Committing?
    ensures Silent(s, CommitFails(s))
  {
    hide EndJob, Resume;
    var t := s.(bgError := true);
    match s.bg.what
    case FlushDone(outer) => HousekeepingQuiet(t, outer);
    case CompactDone(job) =>
      HousekeepingQuiet(t.(pending := t.pending - job.outs.Keys, manual := t.manual && !job.byRequest), None);
    case MoveDone(_) => HousekeepingQuiet(t, None);
  }

  lemma FlushQuiet(s: State, level: nat)
    requires s.bg.Building?
    ensures Silent(s, FinishBuild(s, level)) && Silent(s, BuildFails(s))
  {
    hide EndJob, Resume, AddTable;
    HousekeepingQuiet(s.(bgError := true, pending := s.pending - {s.bg.number}), s.bg.outer);
  }

  lemma RequestQuiet(s: State)
    ensures Silent(s, RequestManual(s)) && Silent(s, GiveUp(s))
  {
    hide MaybeSchedule, EndJob;
    HousekeepingQuiet(s.(manual := true), None);
    HousekeepingQuiet(s.(manual := s.manual && (s.shutdown || s.bgError)), None);
  }

  lemma FinishGetQuiet(s: State, id: nat, charge: bool)
    ensures var t := FinishGet(s, id, charge);
      Quiet(s, t) && t.snapshots == s.snapshots && t.readers == s.readers - {id}
  {
    hide MaybeSchedule;
    ScheduleQuiet(s.(readers := s.readers - {id}, otherWork := s.otherWork || charge));
  }

  lemma SwitchHistory(s: State)
    ensures SameHistory(s, Switch(s)) && SameReaders(s, Switch(s)) && QueueGoesOn(s, Switch(s))
  {
    hide HasWork;
  }

  lemma CompactionQuiet(s: State, n: nat, content: set<Entry>)
    requires s.bg.Compacting?
    ensures Silent(s, AbortCompaction(s)) && Silent(s, CommitCompaction(s)) && Silent(s, OpenOutput(s))
    ensures Silent(s, WriteOutput(s, n, content))
  {
  }

  lemma StartQuiet(s: State, p: Plan)
    ensures Silent(s, StartFlush(s)) && Silent(s, StartCompaction(s, p)) && Silent(s, StartMove(s, p))
    ensures s.bg.Committing? ==> Silent(s, Persist(s))
  {
  }

  lemma PublishHistory(s: State)
    requires CanPublish(s)
    ensures s.hist <= Publish(s).hist && s.lastSeq <= Publish(s).lastSeq && Publish(s).boot == s.boot
    ensures SameReaders(s, Publish(s)) && QueueGoesOn(s, Publish(s))
    ensures forall e :: e in Publish(s).hist - s.hist ==> e.seqno > s.lastSeq
  {
  }

  /** Opening again keeps the history; a crash adds to it what had been logged beyond it. */
  lemma BootHistory(s: State, a: Action, t: State)
    requires BootStep(s, a, t)
    ensures t.hist == if a.DoCrash? then s.hist + Unapplied(s) else s.hist
    ensures t.boot.Down? <==> a.DoCrash?
    ensures t.boot.Up? <==> a.DoOpen?
    ensures a.DoOpen? ==> s.boot.Written?
  {
    hide Spares, Unapplied, PersistedFloor, RecordEntries, CanBuildChunk, CanMakeLog, Reopened, HasWork, Live;
    if a.DoOpen? {
      var u := UpOf(s.disk, a.otherWork, s.hist, s.floor);
      assert t == MaybeSchedule(Collect(u));
    }
  }

  lemma FlushingQuiet(s: State, a: Action, t: State)
    requires FlushStep(s, a, t)
    ensures Silent(s, t)
  {
    hide Install, CommitFails, FinishBuild, FlushLevelOK, BuildFails, GiveUp, CanGiveUp, StartFlush, CanStartFlush,
         Persist, Silent;
    match a
    case DoGiveUp => RequestQuiet(s);
    case DoStartFlush => StartQuiet(s, Plan(0, {}, 0, {}));
    case DoFinishBuild(level) => FlushQuiet(s, level);
    case DoBuildFails => FlushQuiet(s, 0);
    case DoPersist => StartQuiet(s, Plan(0, {}, 0, {}));
    case DoInstall(otherWork) => InstallQuiet(s, otherWork);
    case DoCommitFails => CommitFailsQuiet(s);
    case _ =>
  }

  lemma CompactingQuiet(s: State, a: Action, t: State)
    requires CompactionStep(s, a, t)
    ensures Silent(s, t)
  {
    hide CompactionResult, CommitCompaction, CanMove, CanCompact, OpenOutput, AbortCompaction, WriteOutput,
         StartCompaction, StartMove, Silent;
    match a
    case DoStartCompaction(p) => StartQuiet(s, p);
    case DoStartMove(p) => StartQuiet(s, p);
    case DoOpenOutput => CompactionQuiet(s, 0, {});
    case DoWriteOutput(n, content) => CompactionQuiet(s, n, content);
    case DoCommitCompaction => CompactionQuiet(s, 0, {});
    case DoAbortCompaction => CompactionQuiet(s, 0, {});
    case _ =>
  }

  predicate OnlyLogs(s: State, t: State) {
    SameHistory(s, t) && SameReaders(s, t) && QueueGoesOn(s, t)
  }

  lemma AppendHistory(s: State)
    requires CanAppendLog(s)
    ensures OnlyLogs(s, AppendLog(s)) && OnlyLogs(s, AppendLogFails(s))
  {
    hide GroupOps;
  }

  lemma SyncHistory(s: State)
    requires CanSyncLog(s)
    ensures OnlyLogs(s, SyncLog(s)) && OnlyLogs(s, SyncLogFails(s))
  {
    hide RecordEntries, GroupOps, Unapplied;
  }

  lemma InsertHistory(s: State)
    requires CanInsert(s)
    ensures OnlyLogs(s, Insert(s))
  {
    hide GroupOps;
  }

  lemma LeavingHistory(s: State, ok: bool)
    ensures CanFinishFailed(s) ==>
      var t := FinishFailed(s);
      t.hist == s.hist && t.boot == s.boot && s.lastSeq <= t.lastSeq && SameReaders(s, t) && QueueGoesOn(s, t)
    ensures s.writers != [] ==>
      var t := LeaveAlone(s, ok);
      t.hist == s.hist && t.boot == s.boot && s.lastSeq <= t.lastSeq && SameReaders(s, t) && QueueGoesOn(s, t)
  {
    hide GroupOps;
  }

  lemma WriterHistory(s: State, a: Action, t: State)
    requires WriterStep(s, a, t)
    ensures s.hist <= t.hist && t.boot == s.boot
    ensures s.lastSeq <= t.lastSeq && forall e :: e in t.hist - s.hist ==> e.seqno > s.lastSeq
    ensures SameReaders(s, t) && s.groups <= t.groups
    ensures t.arrivals == if a.DoEnqueue? then s.arrivals + [a.w] else s.arrivals
  {
    hide CanPublish, Publish, Switch, CanSwitch, CanBeginGroup, GroupOps, CanAppendLog, AppendLog, AppendLogFails,
         CanSyncLog, SyncLog, SyncLogFails, CanInsert, Insert, FinishFailed, LeaveAlone;
    match a
    case DoFinishFailed => LeavingHistory(s, false);
    case DoLeaveAlone(ok) => LeavingHistory(s, ok);
    case DoSwitch => SwitchHistory(s);
    case DoPublish => PublishHistory(s);
    case DoAppendLog(_) => AppendHistory(s);
    case DoSyncLog(_) => SyncHistory(s);
    case DoInsert => InsertHistory(s);
    case _ =>
  }

  lemma ReaderQuiet(s: State, a: Action, t: State)
    requires ReaderStep(s, a, t)
    ensures Quiet(s, t)
  {
    hide FinishGet, RequestManual;
    match a
    case DoFinishGet(id, charge) => FinishGetQuiet(s, id, charge);
    case DoRequestManual => RequestQuiet(s);
    case _ =>
  }

  /** Snapshots come and go one at a time, and only by request. */
  predicate SnapshotsMove(s: State, a: Action, t: State) {
    match a
    case DoTakeSnapshot => |t.snapshots| == |s.snapshots| + 1 && s.snapshots <= t.snapshots
    case DoReleaseSnapshot(i) => i < |s.snapshots| && t.snapshots == s.snapshots[..i] + s.snapshots[i + 1..]
    case _ => t.snapshots == s.snapshots
  }

  /** A read in progress stays as it is until it is finished. */
  predicate ReadsMove(s: State, a: Action, t: State) {
    match a
    case DoStartGet(id, key, snap) =>
      && id !in s.readers && id in t.readers && t.readers[id].key == key && t.readers[id].snap == snap
      && (snap in s.snapshots || snap == s.lastSeq) && s.readers == t.readers - {id}
    case DoFinishGet(id, _) => id in s.readers && t.readers == s.readers - {id}
    case _ => t.readers == s.readers
  }

  /** A writer joins the queue at its end; groups leave it for good. */
  predicate QueueMoves(s: State, a: Action, t: State) {
    s.groups <= t.groups && t.arrivals == if a.DoEnqueue? then s.arrivals + [a.w] else s.arrivals
  }

  lemma ReaderMoves(s: State, a: Action, t: State)
    requires ReaderStep(s, a, t)
    ensures SnapshotsMove(s, a, t) && ReadsMove(s, a, t)
  {
    hide FinishGet, RequestManual;
    if a.DoFinishGet? {
      FinishGetQuiet(s, a.id, a.charge);
    } else if a.DoRequestManual? {
      RequestQuiet(s);
    }
  }

  lemma UsersStep(s: State, a: Action, t: State)
    requires EngineStep(s, a, t)
    ensures SnapshotsMove(s, a, t) && ReadsMove(s, a, t) && QueueMoves(s, a, t)
  {
    hide WriterStep, FlushStep, CompactionStep, ReaderStep, SnapshotsMove, ReadsMove;
    StepKinds(s, a, t);
    if FlushStep(s, a, t) {
      FlushingQuiet(s, a, t);
    } else if CompactionStep(s, a, t) {
      CompactingQuiet(s, a, t);
    } else if WriterStep(s, a, t) {
      WriterHistory(s, a, t);
    } else {
      ReaderQuiet(s, a, t);
      ReaderMoves(s, a, t);
    }
  }

  /** Which actions are whose. */
  lemma StepKinds(s: State, a: Action, t: State)
    ensures WriterStep(s, a, t) || FlushStep(s, a, t) || CompactionStep(s, a, t) ==>
      SameReaders(s, t) ==> SnapshotsMove(s, a, t) && ReadsMove(s, a, t)
    ensures FlushStep(s, a, t) || CompactionStep(s, a, t) || ReaderStep(s, a, t) ==> !a.DoEnqueue?
  {
    hide WriterStep, FlushStep, CompactionStep, ReaderStep;
    NotAReader(s, a, t);
    NotAWriter(s, a, t);
  }

  lemma NotAReader(s: State, a: Action, t: State)
    ensures WriterStep(s, a, t) || FlushStep(s, a, t) || CompactionStep(s, a, t) ==>
      !a.DoTakeSnapshot? && !a.DoReleaseSnapshot? && !a.DoStartGet? && !a.DoFinishGet?
  {
  }

  lemma NotAWriter(s: State, a: Action, t: State)
    ensures FlushStep(s, a, t) || CompactionStep(s, a, t) || ReaderStep(s, a, t) ==> !a.DoEnqueue?
  {
  }

  lemma EngineHistory(s: State, a: Action, t: State)
    requires EngineStep(s, a, t)
    ensures s.hist <= t.hist && t.boot == s.boot
    ensures s.lastSeq <= t.lastSeq && forall e :: e in t.hist - s.hist ==> e.seqno > s.lastSeq
    ensures !a.DoCrash?
  {
    hide WriterStep, ReaderStep, FlushStep, CompactionStep;
    if FlushStep(s, a, t) {
      FlushingQuiet(s, a, t);
    } else if CompactionStep(s, a, t) {
      CompactingQuiet(s, a, t);
    } else if WriterStep(s, a, t) {
      WriterHistory(s, a, t);
    } else {
      ReaderQuiet(s, a, t);
    }
    NoCrash(s, a, t);
  }

  lemma NoCrash(s: State, a: Action, t: State)
    requires EngineStep(s, a, t)
    ensures !a.DoCrash?
  {
  }

  /** An action of the writer at the head of a queue that waits. */
  predicate ByHead(a: Action) {
    a.DoSwitch? || a.DoBeginGroup? || a.DoLeaveAlone?
  }

  /** The other writers can only join the queue. */
  lemma WriterPauses(s: State, a: Action, t: State)
    requires WriterStep(s, a, t) && AtHead(s) && !ByHead(a)
    ensures PausedBy(s, t)
  {
    hide Level0Files;
  }

  /** Nobody else touches the room of the writer at the head. */
  lemma OtherPauses(s: State, a: Action, t: State)
    requires EngineStep(s, a, t) && AtHead(s) && !ByHead(a)
    ensures PausedBy(s, t)
  {
    hide WriterStep, ReaderStep, FlushStep, CompactionStep, PausedBy, AtHead, ByHead, SameHistory;
    if WriterStep(s, a, t) {
      WriterPauses(s, a, t);
    } else if ReaderStep(s, a, t) {
      ReaderQuiet(s, a, t);
    } else if FlushStep(s, a, t) {
      FlushingQuiet(s, a, t);
    } else {
      CompactingQuiet(s, a, t);
    }
  }

  /** An open database that does not die moves by one of its threads. */
  lemma EngineMoves(s: State, a: Action, t: State)
    requires Step(s, a, t) && s.boot.Up? && !a.DoCrash?
    ensures EngineStep(s, a, t)
  {
    hide EngineStep, Spares, Crash, CanReplay, RecordsFrom, NumberedFrom, BuildChunk, MakeLog, CommitOpen, Open;
  }

  /** The history only grows; while the database stays open, only above LastSequence. */
  lemma HistoryStep(s: State, a: Action, t: State)
    requires Step(s, a, t)
    ensures s.hist <= t.hist
    ensures s.boot.Up? && t.boot.Up? ==>
      s.lastSeq <= t.lastSeq && forall e :: e in t.hist - s.hist ==> e.seqno > s.lastSeq
    ensures t.boot.Down? <==> a.DoCrash?
    ensures !s.boot.Up? || a.DoCrash? ==> t.hist == if a.DoCrash? then s.hist + Unapplied(s) else s.hist
  {
    hide EngineStep, BootStep, Unapplied;
    if EngineStep(s, a, t) {
      EngineHistory(s, a, t);
      WasUp(s, a, t);
    } else {
      BootHistory(s, a, t);
    }
  }

  lemma WasUp(s: State, a: Action, t: State)
    requires EngineStep(s, a, t)
    ensures s.boot.Up?
  {
  }
}
