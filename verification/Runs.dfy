/** Every action keeps the invariant, and so does every run, crashes included. */
module Runs {
  import opened Options
  import opened Entries
  import opened Versions
  import opened VersionEdits
  import opened Writers
  import opened Engine
  import opened Invariant
  import opened Frames
  import opened WriterSteps
  import opened ReaderSteps
  import opened BackgroundSteps
  import opened InstallSteps
  import opened Durability
  import opened Recovery
  import opened Actions

  lemma WriterStepKeeps(s: State, a: Action, t: State)
    requires Inv(s) && WriterStep(s, a, t)
    ensures Inv(t)
  {
    hide Inv, Publish, CanPublish, Switch, CanSwitch, Insert, CanInsert, CanBeginGroup, CanAppendLog, AppendLog,
         AppendLogFails, CanSyncLog, SyncLog, SyncLogFails, GroupOps;
    match a
    case DoEnqueue(w) => EnqueueKeeps(s, w);
    case DoSwitch => SwitchKeeps(s);
    case DoBeginGroup(n) => BeginGroupKeeps(s, n);
    case DoAppendLog(ok) => if ok { AppendLogKeeps(s); } else { AppendLogFailsKeeps(s); }
    case DoSyncLog(ok) => if ok { SyncLogKeeps(s); } else { SyncLogFailsKeeps(s); }
    case DoInsert => InsertKeeps(s);
    case DoPublish => PublishKeeps(s);
    case DoFinishFailed => FinishFailedKeeps(s);
    case DoLeaveAlone(ok) => LeaveAloneKeeps(s, ok);
    case _ =>
  }

  lemma ReaderStepKeeps(s: State, a: Action, t: State)
    requires Inv(s) && ReaderStep(s, a, t)
    ensures Inv(t)
  {
    hide Inv;
    match a
    case DoTakeSnapshot => TakeSnapshotKeeps(s);
    case DoReleaseSnapshot(i) => ReleaseSnapshotKeeps(s, i);
    case DoStartGet(id, key, snap) => StartGetKeeps(s, id, key, snap);
    case DoFinishGet(id, charge) => FinishGetKeeps(s, id, charge);
    case DoRequestManual => RequestManualKeeps(s);
    case DoCancelManual => CancelManualKeeps(s);
    case DoShutdown => ShutdownKeeps(s);
    case _ =>
  }

  lemma FlushStepKeeps(s: State, a: Action, t: State)
    requires Inv(s) && FlushStep(s, a, t)
    ensures Inv(t)
  {
    hide Inv, Install, CommitFails, FinishBuild, CanFinishBuild, BuildFails;
    match a
    case DoGiveUp => GiveUpKeeps(s);
    case DoStartFlush => StartFlushKeeps(s);
    case DoFinishBuild(level) => FinishBuildKeeps(s, level);
    case DoBuildFails => BuildFailsKeeps(s);
    case DoPersist => PersistKeeps(s);
    case DoInstall(otherWork) => InstallKeeps(s, otherWork);
    case DoCommitFails => CommitFailsKeeps(s);
    case _ =>
  }

  lemma CompactionStepKeeps(s: State, a: Action, t: State)
    requires Inv(s) && CompactionStep(s, a, t)
    ensures Inv(t)
  {
    hide Inv, CanCommitCompaction, CommitCompaction, CanMove, StartMove, CanCompact;
    match a
    case DoStartCompaction(p) => StartCompactionKeeps(s, p);
    case DoStartMove(p) => StartMoveKeeps(s, p);
    case DoOpenOutput => OpenOutputKeeps(s);
    case DoWriteOutput(n, content) => WriteOutputKeeps(s, n, content);
    case DoCommitCompaction => CommitCompactionKeeps(s);
    case DoAbortCompaction => AbortCompactionKeeps(s);
    case _ =>
  }

  lemma EngineStepKeeps(s: State, a: Action, t: State)
    requires Inv(s) && EngineStep(s, a, t)
    ensures Inv(t)
  {
    hide Inv, WriterStep, ReaderStep, FlushStep, CompactionStep;
    if WriterStep(s, a, t) {
      WriterStepKeeps(s, a, t);
    } else if ReaderStep(s, a, t) {
      ReaderStepKeeps(s, a, t);
    } else if FlushStep(s, a, t) {
      FlushStepKeeps(s, a, t);
    } else {
      CompactionStepKeeps(s, a, t);
    }
  }

  lemma BootStepKeeps(s: State, a: Action, t: State)
    requires BootInv(s) && BootStep(s, a, t)
    ensures BootInv(t)
  {
    hide BootInv, Spares, Crash, CanBuildChunk, BuildChunk, CanMakeLog, CommitOpen, Open;
    match a
    case DoCrash(left) => CrashKeeps(s, left);
    case DoBeginReplay => BeginReplayKeeps(s);
    case DoBuildChunk(c) => BuildChunkKeeps(s, c);
    case DoMakeLog(newLog) => MakeLogKeeps(s, newLog);
    case DoCommitOpen => CommitOpenKeeps(s);
    case DoOpen(otherWork) => OpenKeeps(s, otherWork);
    case _ =>
  }

  /** Every action keeps the invariant, of an open database and of one that is being recovered. */
  lemma StepKeeps(s: State, a: Action, t: State)
    requires BootInv(s) && Step(s, a, t)
    ensures BootInv(t)
  {
    hide Inv, EngineStep, BootStep, Sound, Built, Replays;
    if EngineStep(s, a, t) {
      EngineHistory(s, a, t);
      WasUp(s, a, t);
      EngineStepKeeps(s, a, t);
    } else {
      hide BootInv;
      BootStepKeeps(s, a, t);
    }
  }

  // ----- runs -----

  const EMPTY_DISK := Disk(map[], map[], Manifest(map[], 0, 0, 2))

  /** NewDB has written the first MANIFEST; nothing was opened yet. */
  predicate IsNew(s: State) {
    s == Off(EMPTY_DISK, {}, 0)
  }

  lemma NewIsSound()
    ensures Sound(EMPTY_DISK, {}, 0)
  {
    var m := EMPTY_DISK.manifest;
    forall hi: nat ensures Ascends(RecordsFrom(EMPTY_DISK.logs, m.log, hi), 0, 0) {
      NoRecords(EMPTY_DISK.logs, m.log, hi);
    }
    assert Stored(EMPTY_DISK) == {};
    assert SoundAt(EMPTY_DISK, {}, 0, 0, 0);
  }

  ghost predicate IsRun(states: seq<State>, actions: seq<Action>) {
    && |states| == |actions| + 1 && IsNew(states[0])
    && forall i :: 0 <= i < |actions| ==> Step(states[i], actions[i], states[i + 1])
  }

  /** The invariant holds in every state of every run. */
  lemma {:induction false} RunKeeps(states: seq<State>, actions: seq<Action>, i: nat)
    requires IsRun(states, actions) && i < |states|
    ensures BootInv(states[i])
  {
    hide BootInv, Step, Off;
    if i == 0 {
      NewIsSound();
      OffKeeps(EMPTY_DISK, {}, 0);
    } else {
      RunKeeps(states, actions, i - 1);
      StepKeeps(states[i - 1], actions[i - 1], states[i]);
    }
  }
}
