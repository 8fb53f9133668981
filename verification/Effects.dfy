/** What the actions of an open database do to its flags and its tables, in plain terms: what
    records an error, what answers a request, what wakes the background thread, where tables go. */
module Effects {
  import opened Options
  import opened Entries
  import opened Versions
  import opened VersionEdits
  import opened Writers
  import opened Engine
  import opened Invariant
  import opened Durability
  import opened Recovery
  import opened Actions
  import opened Runs
  import opened Guarantees

  // ----- what there is to do -----

  /** A memtable to flush, a request, a crowded level 0, or another level that is too big. */
  ghost predicate Due(s: State) {
    s.imm.Some? || s.manual || s.otherWork || |InLevel0(s.version)| >= 4
  }

  /** The background thread is called only if there is something to do and nothing forbids it. */
  ghost predicate WokenForAReason(s: State, t: State) {
    t.bg.Queued? ==> s.bg.Queued? || (Due(t) && !t.shutdown && !t.bgError)
  }

  lemma ScheduledForAReason(s: State)
    ensures var t := MaybeSchedule(s); t == s.(bg := t.bg) && (t.bg == s.bg || (s.bg.Idle? && t.bg.Queued?))
    ensures WokenForAReason(s, MaybeSchedule(s))
  {
    CountsLevel0(s.version);
    hide Level0Files, InLevel0;
  }

  // ----- the flags -----

  /** Something failed that the database does not recover from: a flush, a commit, a compaction, or
      the Sync of a group's record. */
  predicate Fails(s: State, a: Action) {
    || a.DoBuildFails? || a.DoCommitFails? || a.DoAbortCompaction?
    || (a.DoFinishFailed? && s.phase.Failed? && s.phase.badSync)
  }

  /** A compaction comes to its end, well or badly. */
  predicate EndsCompaction(s: State, a: Action) {
    || (a.DoAbortCompaction? && s.bg.Compacting?)
    || ((a.DoInstall? || a.DoCommitFails?) && s.bg.Committing? && s.bg.what.CompactDone?)
  }

  function EndingJob(s: State, a: Action): Job
    requires EndsCompaction(s, a)
  {
    if s.bg.Compacting? then s.bg.job else s.bg.what.job
  }

  predicate Flags(s: State, a: Action, t: State) {
    && t.shutdown == (s.shutdown || a.DoShutdown?)
    && t.bgError == (s.bgError || Fails(s, a))
    && t.otherWork == (if a.DoInstall? then a.otherWork else s.otherWork || (a.DoFinishGet? && a.charge))
    && t.manual == (if a.DoRequestManual? then true
                    else if a.DoCancelManual? then false
                    else if a.DoGiveUp? then s.manual && (s.shutdown || s.bgError)
                    else s.manual && !(EndsCompaction(s, a) && EndingJob(s, a).byRequest))
  }

  ghost predicate Moved(s: State, a: Action, t: State) {
    Flags(s, a, t) && WokenForAReason(s, t)
  }

  lemma EndedForAReason(s: State)
    requires !s.bg.Queued?
    ensures var t := EndJob(s);
      t == s.(bg := t.bg) && (t.bg.Idle? || t.bg.Queued?) && (t.bg.Queued? ==> Due(t) && !t.shutdown && !t.bgError)
  {
    hide MaybeSchedule, Due;
    ScheduledForAReason(s.(bg := Idle));
  }

  lemma CollectedFlags(s: State)
    ensures Collect(s) == s.(disk := Collect(s).disk)
  {
    hide Live;
  }

  lemma InstallFlags(s: State, otherWork: bool)
    requires s.bg.Committing?
    ensures Moved(s, DoInstall(otherWork), Install(s, otherWork))
    ensures Install(s, otherWork).version == s.bg.edit.version
  {
    hide MaybeSchedule, Collect, Due;
    var t := Committed(s, otherWork);
    CollectedFlags(t);
    ScheduledForAReason(t);
    ScheduledForAReason(Collect(t));
  }

  lemma ResumedForAReason(s: State, outer: Option<Job>)
    requires !s.bg.Queued?
    ensures var t := Resume(s, outer);
      t == s.(bg := t.bg) && (t.bg.Queued? ==> Due(t) && !t.shutdown && !t.bgError)
  {
    hide EndJob, Due;
    EndedForAReason(s);
  }

  lemma CommitFailsFlags(s: State)
    requires s.bg.Committing?
    ensures Moved(s, DoCommitFails, CommitFails(s))
  {
    hide Due, Moved, CommitFails;
    match s.bg.what
    case FlushDone(_) => FlushCommitFails(s);
    case CompactDone(_) => CompactionCommitFails(s);
    case MoveDone(_) => MoveCommitFails(s);
  }

  lemma FlushCommitFails(s: State)
    requires s.bg.Committing? && s.bg.what.FlushDone?
    ensures Moved(s, DoCommitFails, CommitFails(s))
  {
    hide Resume, EndJob, Due;
    ResumedForAReason(s.(bgError := true), s.bg.what.outer);
  }

  lemma CompactionCommitFails(s: State)
    requires s.bg.Committing? && s.bg.what.CompactDone?
    ensures Moved(s, DoCommitFails, CommitFails(s))
  {
    hide EndJob, Due;
    EndedForAReason(EndedJob(s.(bgError := true), s.bg.what.job));
  }

  lemma MoveCommitFails(s: State)
    requires s.bg.Committing? && s.bg.what.MoveDone?
    ensures Moved(s, DoCommitFails, CommitFails(s))
  {
    hide EndJob, Due;
    EndedForAReason(s.(bgError := true));
  }

  function EndedJob(s: State, job: Job): State {
    s.(pending := s.pending - job.outs.Keys, manual := s.manual && !job.byRequest)
  }

  lemma FinishBuildFlags(s: State, level: nat)
    requires s.bg.Building?
    ensures Moved(s, DoFinishBuild(level), FinishBuild(s, level))
  {
    hide Due, AddTable;
  }

  lemma BuildFailsFlags(s: State)
    requires s.bg.Building?
    ensures Moved(s, DoBuildFails, BuildFails(s))
  {
    hide Resume, Due;
    ResumedForAReason(s.(bgError := true, pending := s.pending - {s.bg.number}), s.bg.outer);
  }

  lemma GiveUpFlags(s: State)
    requires s.bg.Queued?
    ensures Flags(s, DoGiveUp, GiveUp(s))
  {
    hide MaybeSchedule, Due;
    ScheduledForAReason(s.(manual := s.manual && (s.shutdown || s.bgError), bg := Idle));
  }

  lemma FlushFlags(s: State, a: Action, t: State)
    requires FlushStep(s, a, t)
    ensures Moved(s, a, t)
  {
    hide Install, CommitFails, FinishBuild, FlushLevelOK, BuildFails, GiveUp, Due, Flags, NeedsCompaction;
    match a
    case DoGiveUp => GiveUpFlags(s);
    case DoFinishBuild(level) => FinishBuildFlags(s, level);
    case DoBuildFails => BuildFailsFlags(s);
    case DoInstall(otherWork) => InstallFlags(s, otherWork);
    case DoCommitFails => CommitFailsFlags(s);
    case DoStartFlush => StartFlushFlags(s);
    case DoPersist => PersistFlags(s);
    case _ =>
  }

  lemma StartFlushFlags(s: State)
    ensures Flags(s, DoStartFlush, StartFlush(s))
  {
  }

  lemma PersistFlags(s: State)
    requires s.bg.Committing?
    ensures Flags(s, DoPersist, Persist(s))
  {
  }

  lemma CompactionFlags(s: State, a: Action, t: State)
    requires CompactionStep(s, a, t)
    ensures Moved(s, a, t)
  {
    hide EndJob, Due, CompactionResult, PlanOK, HasWork, TrivialMoveOK, Replace, MoveDown;
    if a.DoAbortCompaction? {
      EndedForAReason(s.(bgError := true, pending := s.pending - s.bg.job.outs.Keys,
                         manual := s.manual && !s.bg.job.byRequest));
    }
  }

  lemma RequestFlags(s: State, id: nat, charge: bool)
    ensures Moved(s, DoFinishGet(id, charge), FinishGet(s, id, charge))
    ensures Moved(s, DoRequestManual, RequestManual(s))
  {
    hide MaybeSchedule, Due;
    ScheduledForAReason(s.(readers := s.readers - {id}, otherWork := s.otherWork || charge));
    ScheduledForAReason(s.(manual := true));
  }

  lemma ReaderFlags(s: State, a: Action, t: State)
    requires ReaderStep(s, a, t)
    ensures Moved(s, a, t)
  {
    hide FinishGet, RequestManual, Due;
    if a.DoFinishGet? {
      RequestFlags(s, a.id, a.charge);
    } else if a.DoRequestManual? {
      RequestFlags(s, 0, false);
    }
  }

  predicate SameFlags(s: State, t: State) {
    && t.shutdown == s.shutdown && t.bgError == s.bgError && t.manual == s.manual && t.otherWork == s.otherWork
    && t.bg == s.bg
  }

  lemma SameIsMoved(s: State, a: Action, t: State)
    requires SameFlags(s, t) && (a.DoAppendLog? || a.DoSyncLog? || a.DoInsert? || a.DoPublish? || a.DoLeaveAlone?)
    ensures Moved(s, a, t)
  {
    hide Due;
  }

  lemma AppendFlags(s: State)
    requires CanAppendLog(s)
    ensures SameFlags(s, AppendLog(s)) && SameFlags(s, AppendLogFails(s))
  {
    hide GroupOps;
  }

  lemma SyncFlags(s: State)
    requires CanSyncLog(s)
    ensures SameFlags(s, SyncLog(s)) && SameFlags(s, SyncLogFails(s))
  {
    hide RecordEntries, GroupOps, Unapplied;
  }

  lemma InsertFlags(s: State)
    requires CanInsert(s)
    ensures SameFlags(s, Insert(s))
  {
    hide GroupOps, EntryAt;
  }

  lemma PublishFlags(s: State)
    requires CanPublish(s)
    ensures SameFlags(s, Publish(s))
  {
    hide GroupOps, EntriesAt;
  }

  lemma FinishFailedFlags(s: State)
    requires CanFinishFailed(s)
    ensures SameFlags(s.(bgError := s.bgError || s.phase.badSync), FinishFailed(s))
  {
    hide GroupOps;
  }

  lemma LeaveAloneFlags(s: State, ok: bool)
    requires s.writers != []
    ensures SameFlags(s, LeaveAlone(s, ok))
  {
  }

  lemma WriterFlags(s: State, a: Action, t: State)
    requires WriterStep(s, a, t)
    ensures Moved(s, a, t)
  {
    hide CanPublish, Publish, Switch, CanSwitch, CanBeginGroup, GroupOps, CanAppendLog, AppendLog, AppendLogFails,
         CanSyncLog, SyncLog, SyncLogFails, CanInsert, Insert, FinishFailed, LeaveAlone, Due;
    match a
    case DoFinishFailed => FinishFailedFlags(s);
    case DoLeaveAlone(ok) => LeaveAloneFlags(s, ok); SameIsMoved(s, a, t);
    case DoSwitch => SwitchFlags(s);
    case DoPublish => PublishFlags(s); SameIsMoved(s, a, t);
    case DoAppendLog(_) => AppendFlags(s); SameIsMoved(s, a, t);
    case DoSyncLog(_) => SyncFlags(s); SameIsMoved(s, a, t);
    case DoInsert => InsertFlags(s); SameIsMoved(s, a, t);
    case _ =>
  }

  lemma SwitchFlags(s: State)
    ensures Moved(s, DoSwitch, Switch(s))
  {
    hide MaybeSchedule, Due;
    var t := Switch(s);
    ScheduledForAReason(s.(disk := s.disk.(logs := s.disk.logs[s.nextFile := []]), logNum := s.nextFile,
                           nextFile := s.nextFile + 1, imm := Some(s.mem), hasImm := true, mem := s.mem + 1,
                           memtables := s.memtables[s.mem + 1 := {}], cutMem := s.lastSeq));
  }

  /** The flags after any action of an open database, and why its background thread was called. */
  lemma FlagsMove(s: State, a: Action, t: State)
    requires Step(s, a, t) && s.boot.Up? && !a.DoCrash?
    ensures Moved(s, a, t)
  {
    hide Step, WriterStep, ReaderStep, FlushStep, CompactionStep, Moved;
    EngineMoves(s, a, t);
    if WriterStep(s, a, t) {
      WriterFlags(s, a, t);
    } else if ReaderStep(s, a, t) {
      ReaderFlags(s, a, t);
    } else if FlushStep(s, a, t) {
      FlushFlags(s, a, t);
    } else {
      CompactionFlags(s, a, t);
    }
  }

  // ----- errors -----

  /** From any state on, as long as the database does not die, its error flag says exactly whether it
      was set then or something has failed since. */
  lemma {:induction false} ErrorMeansFailure(states: seq<State>, actions: seq<Action>, i: nat, j: nat)
    requires IsRun(states, actions) && i <= j < |states| && states[i].boot.Up?
    requires forall m :: i <= m < j ==> !actions[m].DoCrash?
    ensures states[j].boot.Up?
    ensures states[j].bgError <==> states[i].bgError || exists m :: i <= m < j && Fails(states[m], actions[m])
    decreases j
  {
    hide Step, IsNew, Fails, WokenForAReason;
    if i < j {
      ErrorMeansFailure(states, actions, i, j - 1);
      FlagsMove(states[j - 1], actions[j - 1], states[j]);
      EngineMoves(states[j - 1], actions[j - 1], states[j]);
      EngineHistory(states[j - 1], actions[j - 1], states[j]);
    }
  }

  /** A database opens without an error, a request or a shutdown, and with nothing in use. */
  lemma OpensClean(s: State, a: Action, t: State)
    requires Step(s, a, t) && a.DoOpen?
    ensures t.boot.Up? && !t.bgError && !t.shutdown && !t.manual && t.otherWork == a.otherWork && t.imm.None?
    ensures t.snapshots == [] && t.readers == map[] && t.writers == [] && t.groups == [] && t.hist == s.hist
    ensures t.version == s.disk.manifest.version && t.lastSeq == s.disk.manifest.lastSeq
  {
    hide EngineStep, MaybeSchedule, Collect;
    OpensByBoot(s, a, t);
    var u := UpOf(s.disk, a.otherWork, s.hist, s.floor);
    CollectedFlags(u);
    ScheduledForAReason(Collect(u));
  }

  lemma OpensByBoot(s: State, a: Action, t: State)
    requires Step(s, a, t) && a.DoOpen?
    ensures t == MaybeSchedule(Collect(UpOf(s.disk, a.otherWork, s.hist, s.floor)))
  {
    hide MaybeSchedule, Collect, UpOf;
  }

  lemma HeadHasFailed(s: State, a: Action, t: State)
    requires WriterStep(s, a, t) && s.phase.Failed? && !a.DoFinishFailed?
    ensures t.phase == s.phase
  {
    hide GroupOps, EntriesAt, EntryAt, RecordEntries, Level0Files, IsGroup, Unapplied, HasWork;
  }

  lemma FailedWaits(s: State, a: Action, t: State)
    requires Step(s, a, t) && s.boot.Up? && s.phase.Failed? && !a.DoFinishFailed? && !a.DoCrash?
    ensures t.phase == s.phase && t.boot.Up?
  {
    hide Step, WriterStep, ReaderStep, FlushStep, CompactionStep;
    EngineMoves(s, a, t);
    EngineHistory(s, a, t);
    if WriterStep(s, a, t) {
      HeadHasFailed(s, a, t);
    } else if ReaderStep(s, a, t) {
      ReaderQuiet(s, a, t);
    } else if FlushStep(s, a, t) {
      FlushingQuiet(s, a, t);
    } else {
      CompactingQuiet(s, a, t);
    }
  }

  lemma {:induction false} FailedGroupWaits(states: seq<State>, actions: seq<Action>, i: nat, j: nat)
    requires IsRun(states, actions) && i <= j < |states| && states[i].boot.Up? && states[i].phase.Failed?
    requires forall m :: i <= m < j ==> !actions[m].DoFinishFailed? && !actions[m].DoCrash?
    ensures states[j].phase == states[i].phase && states[j].boot.Up?
    decreases j
  {
    hide Step, IsNew;
    if i < j {
      FailedGroupWaits(states, actions, i, j - 1);
      FailedWaits(states[j - 1], actions[j - 1], states[j]);
    }
  }

  lemma LogFails(s: State, a: Action, t: State)
    requires Step(s, a, t) && ((a.DoAppendLog? && !a.ok) || (a.DoSyncLog? && !a.ok))
    ensures s.boot.Up? && t.boot.Up? && s.phase.Logging?
    ensures t.phase.Failed? && t.phase.members == s.phase.members && t.phase.badSync == a.DoSyncLog?
    ensures t.disk == s.disk && t.memtables == s.memtables
  {
    hide CanReplay, Spares, RecordsFrom, NumberedFrom, BuildChunk, MakeLog, CommitOpen, Open, Crash, Unapplied,
         RecordEntries, GroupOps, IsGroup, HasWork, Level0Files, FlushLevelOK, CompactionResult, PlanOK;
  }

  lemma FailedLeave(s: State, a: Action, t: State)
    requires Step(s, a, t) && a.DoFinishFailed? && Inv(s) && s.boot.Up?
    ensures s.phase.Failed? && |s.groups| < |t.groups|
    ensures var g := t.groups[|s.groups|]; g.members == s.phase.members && !g.ok
    ensures t.hist == s.hist && t.disk == s.disk && t.memtables == s.memtables
  {
    hide ViewInv, ReadersOK, JobInv, DiskInv, LogInv, ScheduledOK, GroupsOK, BoundariesOK, GroupOps, BootStep,
         ReaderStep, FlushStep, CompactionStep;
    EngineMoves(s, a, t);
    FinishesByWriter(s, a, t);
  }

  lemma FinishesByWriter(s: State, a: Action, t: State)
    requires EngineStep(s, a, t) && a.DoFinishFailed?
    ensures CanFinishFailed(s) && t == FinishFailed(s)
  {
    hide FinishFailed, CanFinishFailed;
  }

  /** A group whose record could not be appended or synced leaves with that failure, unapplied; only
      a failed Sync, after which nobody knows what the log holds, makes the error stick. */
  lemma FailedGroupIsTold(states: seq<State>, actions: seq<Action>, i: nat, j: nat)
    requires IsRun(states, actions) && i < j < |actions| && actions[j].DoFinishFailed?
    requires (actions[i].DoAppendLog? && !actions[i].ok) || (actions[i].DoSyncLog? && !actions[i].ok)
    requires forall m :: i < m < j ==> !actions[m].DoFinishFailed? && !actions[m].DoCrash?
    ensures var s, t := states[j], states[j + 1];
      && states[i].phase.Logging? && |s.groups| < |t.groups|
      && t.groups[|s.groups|].members == states[i].phase.members && !t.groups[|s.groups|].ok
      && t.hist == s.hist && t.bgError == (s.bgError || actions[i].DoSyncLog?)
  {
    hide Step, IsNew, BootInv, Inv, WokenForAReason;
    LogFails(states[i], actions[i], states[i + 1]);
    FailedGroupWaits(states, actions, i + 1, j);
    RunKeeps(states, actions, j);
    InUse(states[j]);
    FailedLeave(states[j], actions[j], states[j + 1]);
    FlagsMove(states[j], actions[j], states[j + 1]);
  }

  // ----- what starts when -----

  /** What has to hold for work to start: no memtable switch or new group after an error, no switch
      while another memtable waits or level 0 has twelve tables; a memtable waiting to be flushed goes
      before everything else the background thread could do; a request is not answered by a trivial
      move; and the thread gives up only on having nothing to do. */
  lemma StartsForAReason(s: State, a: Action, t: State)
    requires Step(s, a, t) && s.boot.Up?
    ensures a.DoSwitch? ==> !s.bgError && s.imm.None? && |InLevel0(s.version)| < 12 && s.writers != []
    ensures a.DoBeginGroup? ==> !s.bgError && s.writers != []
    ensures a.DoStartCompaction? || a.DoStartMove? ==>
      !s.bgError && !s.shutdown && s.imm.None? && Due(s) && s.bg.Queued?
    ensures a.DoStartMove? ==> !s.manual
    ensures a.DoStartFlush? ==> s.imm.Some? && (s.bg.Compacting? || (s.bg.Queued? && !s.bgError && !s.shutdown))
    ensures a.DoGiveUp? ==>
      s.bgError || s.shutdown || (s.imm.None? && (s.manual || (!s.otherWork && |InLevel0(s.version)| < 4)))
  {
    hide Step, InLevel0, CanSwitch, CanBeginGroup, CanStartFlush, CanGiveUp, CanCompact, CanMove, Due;
    CountsLevel0(s.version);
    Enabled(s, a, t);
    WriterReasons(s);
    ThreadReasons(s, if a.DoStartCompaction? || a.DoStartMove? then a.plan else Plan(0, {}, 0, {}));
  }

  lemma Enabled(s: State, a: Action, t: State)
    requires Step(s, a, t)
    ensures a.DoSwitch? ==> CanSwitch(s)
    ensures a.DoBeginGroup? ==> CanBeginGroup(s, a.n)
    ensures a.DoStartCompaction? ==> CanCompact(s, a.plan)
    ensures a.DoStartMove? ==> CanMove(s, a.plan)
    ensures a.DoStartFlush? ==> CanStartFlush(s)
    ensures a.DoGiveUp? ==> CanGiveUp(s)
  {
    hide CanSwitch, Switch, CanBeginGroup, BeginGroup, CanCompact, StartCompaction, CanMove, StartMove, CanStartFlush,
         StartFlush, CanGiveUp, GiveUp, Spares, CanBuildChunk, CanMakeLog;
  }

  lemma WriterReasons(s: State)
    ensures CanSwitch(s) ==> !s.bgError && s.imm.None? && |Level0Files(s.version)| < 12 && s.writers != []
    ensures forall n :: CanBeginGroup(s, n) ==> !s.bgError && s.writers != []
  {
    hide Level0Files, IsGroup;
  }

  lemma ThreadReasons(s: State, p: Plan)
    ensures CanCompact(s, p) ==> !s.bgError && !s.shutdown && s.imm.None? && Due(s) && s.bg.Queued?
    ensures CanMove(s, p) ==> CanCompact(s, p) && !s.manual
    ensures CanStartFlush(s) ==>
      s.imm.Some? && (s.bg.Compacting? || (s.bg.Queued? && !s.bgError && !s.shutdown))
    ensures CanGiveUp(s) ==>
      s.bgError || s.shutdown || (s.imm.None? && (s.manual || (!s.otherWork && |Level0Files(s.version)| < 4)))
  {
    hide PlanOK, TrivialMoveOK, SmallestSnapshot;
    CountsLevel0(s.version);
  }

  /** An error or a shutdown is for good: what has not started by then never starts. */
  lemma NothingStartsAnyMore(s: State, a: Action, t: State)
    requires Step(s, a, t) && s.boot.Up? && !a.DoCrash? && (s.bgError || s.shutdown)
    ensures (s.bgError ==> t.bgError && !a.DoSwitch? && !a.DoBeginGroup?) && (s.shutdown ==> t.shutdown)
    ensures !a.DoStartCompaction? && !a.DoStartMove? && (a.DoStartFlush? ==> s.bg.Compacting?)
    ensures t.bg.Queued? ==> s.bg.Queued?
  {
    hide Step, Due, Fails;
    StartsForAReason(s, a, t);
    FlagsMove(s, a, t);
  }

  /** A request waits until a compaction that was started for it is over, or until there turns out to
      be nothing to compact, or until it is taken back; then it is gone. */
  lemma RequestIsAnsweredOnce(s: State, a: Action, t: State)
    requires Step(s, a, t) && s.boot.Up? && !a.DoCrash? && s.manual && !a.DoRequestManual?
    ensures !t.manual <==>
            || a.DoCancelManual? || (a.DoGiveUp? && !s.shutdown && !s.bgError)
            || (EndsCompaction(s, a) && EndingJob(s, a).byRequest)
    ensures a.DoStartCompaction? ==>
      t.bg.Compacting? && t.bg.job.byRequest && t.bg.job.plan == a.plan && t.bg.job.outs == map[]
  {
    hide Step, Due, Fails, WokenForAReason;
    FlagsMove(s, a, t);
    if a.DoStartCompaction? {
      Started(s, a, t);
    }
  }

  lemma Started(s: State, a: Action, t: State)
    requires Step(s, a, t) && a.DoStartCompaction?
    ensures t.bg == Compacting(Job(a.plan, map[], s.manual))
  {
    hide Spares, CanReplay, RecordsFrom, NumberedFrom, PlanOK, HasWork, TrivialMoveOK;
  }

  /** A compaction drops only what the oldest live snapshot, or else LastSequence, lets it drop, and
      all of that. */
  lemma CompactsBelowOldestSnapshot(s: State, a: Action, t: State)
    requires Inv(s) && Step(s, a, t) && s.boot.Up? && a.DoStartCompaction?
    ensures s.snapshots == [] ==> a.plan.smallest == s.lastSeq
    ensures s.snapshots != [] ==>
      a.plan.smallest in s.snapshots && forall x :: x in s.snapshots ==> a.plan.smallest <= x
  {
    hide ViewInv, ReadersOK, DiskInv, LogInv, QueueInv, ScheduledOK, PlansOK, FlushingOK, EditOK;
    StartedAt(s, a, t);
  }

  lemma StartedAt(s: State, a: Action, t: State)
    requires Step(s, a, t) && a.DoStartCompaction?
    ensures a.plan.smallest == SmallestSnapshot(s)
  {
    hide Spares, CanReplay, RecordsFrom, NumberedFrom, PlanOK, HasWork, TrivialMoveOK, SmallestSnapshot;
  }

  // ----- where tables go -----

  /** Tables of `v` that stay, and those that are new, each at its level. */
  ghost predicate TablesAre(v: Version, w: Version, gone: set<nat>, added: map<nat, set<Entry>>, level: nat) {
    && w.Keys == (v.Keys - gone) + added.Keys
    && (forall n :: n in added ==> w[n].level == level && w[n].entries == added[n])
    && forall n :: n in v && n !in gone && n !in added ==> w[n] == v[n]
  }

  /** The edit of a flush adds the memtable's table at the level chosen for it, that of a trivial move
      takes its one input a level down, and that of a compaction puts its outputs there in the inputs'
      place; nothing else changes. */
  lemma TablesGoToTheirLevel(s: State, a: Action, t: State)
    requires Step(s, a, t) && s.boot.Up? && (a.DoFinishBuild? || a.DoStartMove? || a.DoCommitCompaction?)
    ensures t.bg.Committing?
    ensures a.DoFinishBuild? ==>
      && s.bg.Building? && var flushed := ImmEntries(s.memtables, s.imm);
      TablesAre(s.version, t.bg.edit.version, {}, if flushed == {} then map[] else map[s.bg.number := flushed], a.level)
    ensures a.DoStartMove? ==>
      && a.plan.inputs <= s.version.Keys
      && var moved := map n | n in a.plan.inputs :: s.version[n].entries;
      TablesAre(s.version, t.bg.edit.version, {}, moved, a.plan.level + 1)
    ensures a.DoCommitCompaction? ==>
      && s.bg.Compacting?
      && TablesAre(s.version, t.bg.edit.version, s.bg.job.plan.inputs, s.bg.job.outs, s.bg.job.plan.level + 1)
  {
    hide Step, TablesAre, FinishBuild, StartMove, CommitCompaction, ImmEntries;
    BackgroundMoves(s, a, t);
    if a.DoFinishBuild? {
      FlushedTable(s, a.level);
    } else if a.DoStartMove? {
      MovedTable(s, a.plan);
    } else {
      CompactedTables(s);
    }
  }

  lemma BackgroundMoves(s: State, a: Action, t: State)
    requires Step(s, a, t) && (a.DoFinishBuild? || a.DoStartMove? || a.DoCommitCompaction?)
    ensures a.DoFinishBuild? ==> s.bg.Building? && t == FinishBuild(s, a.level)
    ensures a.DoStartMove? ==> a.plan.inputs <= s.version.Keys && t == StartMove(s, a.plan)
    ensures a.DoCommitCompaction? ==> s.bg.Compacting? && t == CommitCompaction(s)
  {
    hide FinishBuild, StartMove, CommitCompaction, CompactionResult, FlushLevelOK, HasWork, SmallestSnapshot;
  }

  lemma FlushedTable(s: State, level: nat)
    requires s.bg.Building?
    ensures var flushed, t := ImmEntries(s.memtables, s.imm), FinishBuild(s, level);
      && t.bg.Committing? && var added := if flushed == {} then map[] else map[s.bg.number := flushed];
      TablesAre(s.version, t.bg.edit.version, {}, added, level)
  {
    hide ImmEntries;
  }

  lemma MovedTable(s: State, p: Plan)
    requires p.inputs <= s.version.Keys
    ensures var t := StartMove(s, p);
      && t.bg.Committing?
      && TablesAre(s.version, t.bg.edit.version, {}, map n | n in p.inputs :: s.version[n].entries, p.level + 1)
  {
  }

  lemma CompactedTables(s: State)
    requires s.bg.Compacting?
    ensures var p, t := s.bg.job.plan, CommitCompaction(s);
      t.bg.Committing? && TablesAre(s.version, t.bg.edit.version, p.inputs, s.bg.job.outs, p.level + 1)
  {
  }

  /** The MANIFEST receives the edit, and then the version is the edit's. */
  lemma EditsTakeEffect(s: State, a: Action, t: State)
    requires Step(s, a, t) && s.boot.Up? && (a.DoPersist? || a.DoInstall?)
    ensures s.bg.Committing? && (a.DoPersist? ==> t.disk == s.disk.(manifest := s.bg.edit))
    ensures a.DoInstall? ==> t.version == s.bg.edit.version
  {
    hide WriterStep, ReaderStep, BootStep, CompactionStep, Install;
    EngineMoves(s, a, t);
    PersistsByFlush(s, a, t);
    if a.DoInstall? {
      InstallFlags(s, a.otherWork);
    }
  }

  lemma PersistsByFlush(s: State, a: Action, t: State)
    requires EngineStep(s, a, t) && (a.DoPersist? || a.DoInstall?)
    ensures FlushStep(s, a, t)
  {
    hide FlushStep;
  }

  /** There are seven levels. */
  lemma SevenLevels(states: seq<State>, actions: seq<Action>, i: nat)
    requires IsRun(states, actions) && i < |states| && states[i].boot.Up?
    ensures forall n :: n in states[i].version ==> states[i].version[n].level < 7
  {
    hide IsRun, BootInv, ReadersOK, JobInv, DiskInv, LogInv, QueueInv, HistoryOK, DroppedOK, MemtablesOK;
    RunKeeps(states, actions, i);
    InUse(states[i]);
  }
}
