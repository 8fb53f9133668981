/** Nothing is ever stuck: from every reachable state of an open database, what waits can be finished. */
module Progress {
  import opened Options
  import opened Entries
  import opened Versions
  import opened VersionEdits
  import opened Writers
  import opened Engine
  import opened Invariant
  import opened Durability
  import opened Recovery
  import opened Actions
  import opened Runs
  import opened Opening
  import opened Guarantees
  import opened Effects

  // ----- the writer queue -----

  lemma LongestGroup(ws: seq<Writer>, k: nat) returns (n: nat)
    requires 0 < k <= |ws| && ws[0].batch.Some? && forall i :: 0 < i < k ==> Joins(ws, i)
    ensures IsGroup(ws, n)
    decreases |ws| - k
  {
    hide Joins;
    if k < |ws| && Joins(ws, k) {
      n := LongestGroup(ws, k + 1);
    } else {
      n := k;
    }
  }

  function Stage(s: State): nat {
    if s.phase.Waiting? then 1 else 0
  }

  /** What the group being written still needs. */
  function Steps(s: State): nat {
    if s.phase.Logging? && s.phase.inserted <= |GroupOps(s.phase.members)| then
      |GroupOps(s.phase.members)| - s.phase.inserted
      + (if s.phase.logged then 0 else 1) + if s.phase.synced then 0 else 1
    else 0
  }

  predicate Nearer(s: State, t: State) {
    || |t.writers| < |s.writers|
    || (|t.writers| == |s.writers| && (Stage(t) < Stage(s) || (Stage(t) == Stage(s) && Steps(t) < Steps(s))))
  }

  /** No failure is in sight. */
  predicate Healthy(s: State) {
    !s.bgError && !s.phase.Failed?
  }

  predicate Served(s: State, t: State) {
    && t.boot.Up? && s.groups <= t.groups && t.arrivals == s.arrivals
    && (Healthy(s) ==> Healthy(t) && forall i :: |s.groups| <= i < |t.groups| ==> t.groups[i].ok)
  }

  lemma WriterIsStep(s: State, a: Action, t: State)
    requires s.boot.Up? && WriterStep(s, a, t)
    ensures Step(s, a, t)
  {
    hide WriterStep, ReaderStep, FlushStep, CompactionStep, BootStep;
  }

  /** What the head of the queue brings about by an action of its own. */
  ghost predicate Goes(s: State, a: Action, t: State) {
    && WriterStep(s, a, t) && !a.DoEnqueue? && Nearer(s, t)
    && (s.phase.Failed? || s.bgError ||
        (Healthy(t) && forall i :: |s.groups| <= i < |t.groups| ==> t.groups[i].ok))
  }

  lemma LeaveGoes(s: State, ok: bool)
    requires s.phase.Waiting? && s.writers != [] && ok == !s.bgError && (ok ==> s.writers[0].batch.None?)
    ensures Goes(s, DoLeaveAlone(ok), LeaveAlone(s, ok))
  {
    hide GroupOps;
  }

  lemma BeginGoes(s: State, n: nat)
    requires s.phase.Waiting? && s.writers != [] && !s.bgError && IsGroup(s.writers, n)
    ensures n <= |s.writers| && Goes(s, DoBeginGroup(n), BeginGroup(s, n))
  {
    GroupHasSize(s.writers, n);
    hide GroupOps, IsGroup;
  }

  lemma WaitingMoves(s: State) returns (a: Action, t: State)
    requires s.phase.Waiting? && s.writers != []
    ensures Goes(s, a, t)
  {
    hide GroupOps, IsGroup, Goes;
    if s.bgError || s.writers[0].batch.None? {
      a, t := DoLeaveAlone(!s.bgError), LeaveAlone(s, !s.bgError);
      LeaveGoes(s, !s.bgError);
    } else {
      var n := LongestGroup(s.writers, 1);
      BeginGoes(s, n);
      a, t := DoBeginGroup(n), BeginGroup(s, n);
    }
  }

  lemma GroupHasSize(ws: seq<Writer>, n: nat)
    requires IsGroup(ws, n)
    ensures 0 < n <= |ws|
  {
  }

  lemma LogIsThere(s: State)
    requires Inv(s)
    ensures s.logNum in s.disk.logs && s.mem in s.memtables
    ensures PhaseOK(s.phase, s.writers)
  {
    hide ReadersOK, JobInv, DiskInv, GroupsOK, BoundariesOK, LayersOK, HistoryOK, DroppedOK, LostOK, PhaseOK;
  }

  lemma AppendGoes(s: State)
    requires PhaseOK(s.phase, s.writers) && CanAppendLog(s)
    ensures Goes(s, DoAppendLog(true), AppendLog(s))
  {
    hide GroupOps;
  }

  lemma SyncGoes(s: State)
    requires PhaseOK(s.phase, s.writers) && CanSyncLog(s)
    ensures Goes(s, DoSyncLog(true), SyncLog(s))
  {
    hide GroupOps, RecordEntries;
  }

  lemma InsertGoes(s: State)
    requires PhaseOK(s.phase, s.writers) && CanInsert(s)
    ensures Goes(s, DoInsert, Insert(s))
  {
    hide GroupOps, EntryAt;
  }

  lemma PublishGoes(s: State)
    requires PhaseOK(s.phase, s.writers) && CanPublish(s)
    ensures Goes(s, DoPublish, Publish(s))
  {
    hide GroupOps, EntriesAt;
  }

  lemma LoggingMoves(s: State) returns (a: Action, t: State)
    requires Inv(s) && s.phase.Logging?
    ensures Goes(s, a, t)
  {
    LogIsThere(s);
    hide Inv, GroupOps, Goes, AppendLog, SyncLog, Insert, Publish;
    if !s.phase.logged {
      a, t := DoAppendLog(true), AppendLog(s);
      AppendGoes(s);
    } else if s.phase.members[0].sync && !s.phase.synced {
      a, t := DoSyncLog(true), SyncLog(s);
      SyncGoes(s);
    } else if s.phase.inserted < |GroupOps(s.phase.members)| {
      a, t := DoInsert, Insert(s);
      InsertGoes(s);
    } else {
      a, t := DoPublish, Publish(s);
      PublishGoes(s);
    }
  }

  lemma FailedMoves(s: State) returns (a: Action, t: State)
    requires Inv(s) && s.phase.Failed?
    ensures Goes(s, a, t)
  {
    LogIsThere(s);
    hide Inv;
    FailGoes(s);
    a, t := DoFinishFailed, FinishFailed(s);
  }

  lemma FailGoes(s: State)
    requires PhaseOK(s.phase, s.writers) && s.phase.Failed?
    ensures |s.phase.members| <= |s.writers| && Goes(s, DoFinishFailed, FinishFailed(s))
  {
    hide GroupOps;
  }

  /** The head of the queue can always move, and gets nearer to its end by it. */
  lemma HeadMoves(s: State) returns (a: Action, t: State)
    requires Inv(s) && s.boot.Up? && s.writers != []
    ensures Step(s, a, t) && Nearer(s, t) && Served(s, t)
  {
    hide Inv, WriterStep, Nearer, Step;
    if s.phase.Waiting? {
      a, t := WaitingMoves(s);
    } else if s.phase.Logging? {
      a, t := LoggingMoves(s);
    } else {
      a, t := FailedMoves(s);
    }
    WriterIsStep(s, a, t);
    WriterHistory(s, a, t);
  }

  /** Every write in the queue can be finished, without waiting for more to come: from every state of
      every run in which the database is open, some continuation empties the queue, and unless
      something had failed before, all of it succeeds. */
  lemma {:induction false} QueueCanEmpty(states: seq<State>, actions: seq<Action>, s: State)
    returns (states': seq<State>, actions': seq<Action>, t: State)
    requires LeadsTo(states, actions, s) && s.boot.Up?
    ensures LeadsTo(states', actions', t) && states <= states' && actions <= actions'
    ensures t.boot.Up? && t.writers == [] && t.arrivals == s.arrivals && s.groups <= t.groups
    ensures Healthy(s) ==> !t.bgError && forall i :: |s.groups| <= i < |t.groups| ==> t.groups[i].ok
    decreases |s.writers|, Stage(s), Steps(s)
  {
    hide Step, Inv, BootInv, IsNew, Stage, Steps;
    states', actions', t := states, actions, s;
    if s.writers != [] {
      RunKeeps(states, actions, |actions|);
      InUse(s);
      var a, u := HeadMoves(s);
      RunGoesOn(states, actions, s, a, u);
      states', actions', t := QueueCanEmpty(states + [u], actions + [a], u);
    }
  }

  // ----- the background thread -----

  /** The background thread has done something, and nothing has gone wrong. */
  predicate Calm(s: State, t: State) {
    && t.boot.Up? && !t.bgError && !t.shutdown
    && t.hist == s.hist && t.writers == s.writers && t.arrivals == s.arrivals && t.groups == s.groups
    && (s.imm.None? ==> t.imm.None?) && (!s.manual ==> !t.manual)
  }

  ghost predicate GoesOn(states: seq<State>, actions: seq<Action>, s: State, states': seq<State>, actions': seq<Action>,
                         t: State) {
    LeadsTo(states', actions', t) && states <= states' && actions <= actions' && Calm(s, t)
  }

  lemma GoesOnTwice(states: seq<State>, actions: seq<Action>, s: State, states': seq<State>, actions': seq<Action>,
                    t: State, states'': seq<State>, actions'': seq<Action>, u: State)
    requires GoesOn(states, actions, s, states', actions', t) && GoesOn(states', actions', t, states'', actions'', u)
    ensures GoesOn(states, actions, s, states'', actions'', u)
  {
    hide LeadsTo;
  }

  lemma BackStep(states: seq<State>, actions: seq<Action>, s: State, a: Action, t: State)
    requires LeadsTo(states, actions, s) && s.boot.Up? && !s.bgError && !s.shutdown
    requires (FlushStep(s, a, t) || CompactionStep(s, a, t)) && !Fails(s, a)
    ensures Inv(t) && GoesOn(states, actions, s, states + [t], actions + [a], t)
    ensures a.DoInstall? ==> t.otherWork == a.otherWork
    ensures !a.DoInstall? && !a.DoGiveUp? ==> t.manual == s.manual && t.otherWork == s.otherWork
  {
    hide Step, IsNew, Inv, BootInv, FlushStep, CompactionStep, WokenForAReason;
    BackIsStep(s, a, t);
    BackKinds(s, a, t);
    if FlushStep(s, a, t) {
      FlushingQuiet(s, a, t);
    } else {
      CompactingQuiet(s, a, t);
    }
    RunGoesOn(states, actions, s, a, t);
    RunKeeps(states + [t], actions + [a], |actions| + 1);
    InUse(t);
    FlagsMove(s, a, t);
  }

  lemma BackKinds(s: State, a: Action, t: State)
    requires FlushStep(s, a, t) || CompactionStep(s, a, t)
    ensures !a.DoCrash? && !a.DoRequestManual? && !a.DoCancelManual? && !a.DoFinishGet? && !a.DoShutdown?
  {
  }

  lemma BackIsStep(s: State, a: Action, t: State)
    requires s.boot.Up? && (FlushStep(s, a, t) || CompactionStep(s, a, t))
    ensures Step(s, a, t)
  {
    hide WriterStep, ReaderStep, FlushStep, CompactionStep, BootStep;
  }

  predicate Resting(bg: Bg) {
    bg.Idle? || bg.Queued?
  }

  lemma PersistStep(s: State)
    requires s.bg.Committing? && !s.bg.persisted
    ensures FlushStep(s, DoPersist, Persist(s)) && Persist(s).bg == s.bg.(persisted := true)
  {
  }

  lemma InstallStep(s: State)
    requires s.bg.Committing? && s.bg.persisted
    ensures var t := Install(s, false);
      && FlushStep(s, DoInstall(false), t) && t.version == s.bg.edit.version
      && (s.bg.what.FlushDone? ==> t.imm.None?)
      && (if s.bg.what.FlushDone? && s.bg.what.outer.Some? then t.bg == Compacting(s.bg.what.outer.value)
          else Resting(t.bg))
      && (s.bg.what.CompactDone? && s.bg.what.job.byRequest ==> !t.manual)
  {
    hide Collect, HasWork;
    var t := Committed(s, false);
    CollectedFlags(t);
  }

  /** An edit gets to the MANIFEST and takes effect. */
  lemma {:induction false} Commits(states: seq<State>, actions: seq<Action>, s: State)
    returns (states': seq<State>, actions': seq<Action>, t: State)
    requires LeadsTo(states, actions, s) && s.boot.Up? && !s.bgError && !s.shutdown && s.bg.Committing?
    ensures GoesOn(states, actions, s, states', actions', t) && !t.otherWork && t.version == s.bg.edit.version
    ensures s.bg.what.FlushDone? ==> t.imm.None?
    ensures if s.bg.what.FlushDone? && s.bg.what.outer.Some? then t.bg == Compacting(s.bg.what.outer.value)
            else Resting(t.bg)
    ensures s.bg.what.CompactDone? && s.bg.what.job.byRequest ==> !t.manual
  {
    hide LeadsTo, Inv, FlushStep, CompactionStep, Install, Persist;
    var more, acts, u := states, actions, s;
    if !s.bg.persisted {
      PersistStep(s);
      u := Persist(s);
      BackStep(states, actions, s, DoPersist, u);
      more, acts := states + [u], actions + [DoPersist];
    }
    InstallStep(u);
    t := Install(u, false);
    BackStep(more, acts, u, DoInstall(false), t);
    states', actions' := more + [t], acts + [DoInstall(false)];
  }

  lemma BuildStep(s: State)
    requires s.bg.Building?
    ensures var t := FinishBuild(s, 0);
      FlushStep(s, DoFinishBuild(0), t) && t.bg.Committing? && t.bg.what == FlushDone(s.bg.outer)
  {
    hide AddTable;
  }

  /** A table is finished, and what it interrupted goes on. */
  lemma {:induction false} FinishesBuild(states: seq<State>, actions: seq<Action>, s: State)
    returns (states': seq<State>, actions': seq<Action>, t: State)
    requires LeadsTo(states, actions, s) && s.boot.Up? && !s.bgError && !s.shutdown && s.bg.Building?
    ensures GoesOn(states, actions, s, states', actions', t) && t.imm.None?
    ensures if s.bg.outer.Some? then t.bg == Compacting(s.bg.outer.value) else Resting(t.bg)
  {
    hide LeadsTo, Inv, FlushStep, CompactionStep, FinishBuild;
    BuildStep(s);
    var u := FinishBuild(s, 0);
    BackStep(states, actions, s, DoFinishBuild(0), u);
    states', actions', t := Commits(states + [u], actions + [DoFinishBuild(0)], u);
  }

  lemma FlushCanStart(s: State)
    requires s.imm.Some? && !s.bgError && !s.shutdown && (s.bg.Queued? || s.bg.Compacting?)
    ensures var t := StartFlush(s);
      && FlushStep(s, DoStartFlush, t) && t.bg.Building?
      && t.bg.outer == if s.bg.Compacting? then Some(s.bg.job) else None
  {
  }

  /** A memtable that waits can be flushed, in the middle of a compaction too, which then goes on
      where it was. */
  lemma {:induction false} MemtableCanBeFlushed(states: seq<State>, actions: seq<Action>, s: State)
    returns (states': seq<State>, actions': seq<Action>, t: State)
    requires LeadsTo(states, actions, s) && s.boot.Up? && !s.bgError && !s.shutdown
    requires s.imm.Some? && (s.bg.Queued? || s.bg.Compacting?)
    ensures GoesOn(states, actions, s, states', actions', t) && t.imm.None?
    ensures if s.bg.Compacting? then t.bg == s.bg else Resting(t.bg)
  {
    hide LeadsTo, Inv, FlushStep, CompactionStep, StartFlush;
    FlushCanStart(s);
    var u := StartFlush(s);
    BackStep(states, actions, s, DoStartFlush, u);
    states', actions', t := FinishesBuild(states + [u], actions + [DoStartFlush], u);
  }

  // ----- finishing a compaction -----

  ghost function WholeOf(s: State): set<Entry>
    requires s.bg.Compacting?
  {
    Retained(InputEntries(s.version, s.bg.job.plan), s.bg.job.plan.smallest, s.bg.job.plan.base)
  }

  /** The same compaction, with other outputs. */
  predicate SameCompaction(s: State, t: State) {
    && s.bg.Compacting? && t.bg.Compacting? && t.version == s.version
    && t.bg.job.plan == s.bg.job.plan && t.bg.job.byRequest == s.bg.job.byRequest
  }

  lemma OpenStep(s: State)
    requires s.bg.Compacting?
    ensures var t := OpenOutput(s);
      CompactionStep(s, DoOpenOutput, t) && SameCompaction(s, t) && s.nextFile in t.bg.job.outs
  {
  }

  lemma WriteStep(s: State, n: nat, content: set<Entry>)
    requires s.bg.Compacting? && n in s.bg.job.outs
    ensures var t := WriteOutput(s, n, content);
      && CompactionStep(s, DoWriteOutput(n, content), t) && SameCompaction(s, t)
      && t.bg.job.outs == s.bg.job.outs[n := content]
  {
  }

  /** Everything that is retained goes to each of the outputs. */
  lemma {:induction false} FillsOutputs(states: seq<State>, actions: seq<Action>, s: State, todo: set<nat>)
    returns (states': seq<State>, actions': seq<Action>, t: State)
    requires LeadsTo(states, actions, s) && s.boot.Up? && !s.bgError && !s.shutdown && s.bg.Compacting?
    requires todo <= s.bg.job.outs.Keys
    requires forall n :: n in s.bg.job.outs && n !in todo ==> s.bg.job.outs[n] == WholeOf(s)
    ensures GoesOn(states, actions, s, states', actions', t) && SameCompaction(s, t)
    ensures t.bg.job.outs.Keys == s.bg.job.outs.Keys
    ensures forall n :: n in t.bg.job.outs ==> t.bg.job.outs[n] == WholeOf(s)
    decreases todo
  {
    hide LeadsTo, Inv, FlushStep, CompactionStep, WriteOutput, OpenOutput, WholeOf;
    if todo == {} {
      states', actions', t := states, actions, s;
    } else {
      var n :| n in todo;
      var R := WholeOf(s);
      WriteStep(s, n, R);
      var u := WriteOutput(s, n, R);
      SameWhole(s, u);
      BackStep(states, actions, s, DoWriteOutput(n, R), u);
      states', actions', t := FillsOutputs(states + [u], actions + [DoWriteOutput(n, R)], u, todo - {n});
    }
  }

  lemma SameWhole(s: State, t: State)
    requires SameCompaction(s, t)
    ensures WholeOf(t) == WholeOf(s)
  {
  }

  lemma FilledCanCommit(s: State)
    requires Inv(s) && s.bg.Compacting? && s.bg.job.outs != map[]
    requires forall n :: n in s.bg.job.outs ==> s.bg.job.outs[n] == WholeOf(s)
    ensures var t := CommitCompaction(s);
      && CompactionStep(s, DoCommitCompaction, t) && t.bg.Committing? && t.bg.what == CompactDone(s.bg.job)
      && t.bg.edit.version == Replace(s.version, s.bg.job.plan, s.bg.job.outs)
  {
    hide ViewInv, ReadersOK, JobInv, LogInv, QueueInv, Retained, InputEntries, Replace, FilesOK, ManifestOK;
    var outs, R := s.bg.job.outs, WholeOf(s);
    var m :| m in outs;
    assert Outputs(outs) == R by {
      forall e ensures e in Outputs(outs) <==> e in R {
        assert e in R ==> m in outs && e in outs[m];
      }
    }
    forall n | n in outs ensures n !in s.version {
      assert Reserves(s.bg, n);
      assert n in s.version ==> Uses(s, n);
    }
  }

  /** A compaction can be finished; its inputs are replaced by tables one level down. */
  lemma {:induction false} CompactionCanFinish(states: seq<State>, actions: seq<Action>, s: State)
    returns (states': seq<State>, actions': seq<Action>, t: State)
    requires LeadsTo(states, actions, s) && s.boot.Up? && !s.bgError && !s.shutdown && s.bg.Compacting?
    ensures GoesOn(states, actions, s, states', actions', t) && Resting(t.bg) && !t.otherWork
    ensures s.bg.job.byRequest ==> !t.manual
    ensures forall n :: n in t.version ==>
              (n in s.version && n !in s.bg.job.plan.inputs && t.version[n] == s.version[n]) ||
              t.version[n].level == s.bg.job.plan.level + 1
  {
    hide LeadsTo, Inv, FlushStep, CompactionStep, OpenOutput, WriteOutput, CommitCompaction, WholeOf, Calm, GoesOn;
    OpenStep(s);
    var u := OpenOutput(s);
    BackStep(states, actions, s, DoOpenOutput, u);
    StaysHealthy(states, actions, s, states + [u], actions + [DoOpenOutput], u);
    var more, acts, v := FillsOutputs(states + [u], actions + [DoOpenOutput], u, u.bg.job.outs.Keys);
    SameWhole(u, v);
    StaysHealthy(states + [u], actions + [DoOpenOutput], u, more, acts, v);
    HasOutput(u, v, s.nextFile);
    InvHolds(more, acts, v);
    FilledCanCommit(v);
    var w := CommitCompaction(v);
    BackStep(more, acts, v, DoCommitCompaction, w);
    StaysHealthy(more, acts, v, more + [w], acts + [DoCommitCompaction], w);
    states', actions', t := Commits(more + [w], acts + [DoCommitCompaction], w);
    GoesOnTwice(states, actions, s, states + [u], actions + [DoOpenOutput], u, more, acts, v);
    GoesOnTwice(states, actions, s, more, acts, v, more + [w], acts + [DoCommitCompaction], w);
    GoesOnTwice(states, actions, s, more + [w], acts + [DoCommitCompaction], w, states', actions', t);
  }

  lemma StaysHealthy(states: seq<State>, actions: seq<Action>, s: State, states': seq<State>, actions': seq<Action>,
                     t: State)
    requires GoesOn(states, actions, s, states', actions', t)
    ensures LeadsTo(states', actions', t) && t.boot.Up? && !t.bgError && !t.shutdown
  {
    hide LeadsTo;
  }

  lemma HasOutput(u: State, v: State, n: nat)
    requires u.bg.Compacting? && v.bg.Compacting? && v.bg.job.outs.Keys == u.bg.job.outs.Keys && n in u.bg.job.outs
    ensures v.bg.job.outs != map[]
  {
    assert n in v.bg.job.outs.Keys;
  }

  lemma InvHolds(states: seq<State>, actions: seq<Action>, s: State)
    requires LeadsTo(states, actions, s) && s.boot.Up?
    ensures Inv(s)
  {
    hide Step, IsNew, Inv, BootInv;
    RunKeeps(states, actions, |actions|);
    InUse(s);
  }

  // ----- coming to rest -----

  /** All tables of levels 0 and 1 into level 1. */
  ghost function Everything(s: State): Plan {
    Plan(0, (set n | n in s.version && s.version[n].level <= 1), SmallestSnapshot(s), {})
  }

  lemma CompactionCanStart(s: State)
    requires s.bg.Queued? && !s.shutdown && !s.bgError && s.imm.None? && HasWork(s)
    ensures var p, t := Everything(s), StartCompaction(s, Everything(s));
      && CompactionStep(s, DoStartCompaction(p), t) && t.bg == Compacting(Job(p, map[], s.manual))
      && t.version == s.version
  {
    hide HasWork, SmallestSnapshot;
  }

  /** Nothing waits for the background thread, and it waits for nothing. */
  ghost predicate AtRest(s: State) {
    s.bg.Idle? && s.imm.None? && !s.manual && !s.otherWork && |InLevel0(s.version)| < 4
  }

  lemma IdleIsAtRest(s: State)
    requires Inv(s) && s.bg.Idle? && !s.bgError && !s.shutdown
    ensures AtRest(s)
  {
    hide Core;
    CountsLevel0(s.version);
  }

  lemma EmptyLevel0(v: Version)
    requires forall n :: n in v ==> v[n].level != 0
    ensures |InLevel0(v)| == 0
  {
    assert InLevel0(v) == {};
  }

  lemma GiveUpStep(s: State)
    requires s.bg.Queued? && s.imm.None? && !HasWork(s)
    ensures FlushStep(s, DoGiveUp, GiveUp(s)) && GiveUp(s).bg.Idle?
  {
    hide Level0Files;
  }

  /** A thread that was called for nothing goes back to sleep. */
  lemma {:induction false} GivesUp(states: seq<State>, actions: seq<Action>, s: State)
    returns (states': seq<State>, actions': seq<Action>, t: State)
    requires LeadsTo(states, actions, s) && s.boot.Up? && !s.bgError && !s.shutdown && s.bg.Queued? && s.imm.None?
    requires !HasWork(s)
    ensures GoesOn(states, actions, s, states', actions', t) && AtRest(t)
  {
    hide LeadsTo, Inv, FlushStep, CompactionStep, GiveUp, HasWork;
    GiveUpStep(s);
    t := GiveUp(s);
    BackStep(states, actions, s, DoGiveUp, t);
    states', actions' := states + [t], actions + [DoGiveUp];
    IdleIsAtRest(t);
  }

  lemma {:induction false} CompactsEverything(states: seq<State>, actions: seq<Action>, s: State)
    returns (states': seq<State>, actions': seq<Action>, t: State)
    requires LeadsTo(states, actions, s) && s.boot.Up? && !s.bgError && !s.shutdown && s.bg.Queued? && s.imm.None?
    requires HasWork(s)
    ensures GoesOn(states, actions, s, states', actions', t) && Resting(t.bg) && !HasWork(t) && t.imm.None?
  {
    hide LeadsTo, Inv, FlushStep, CompactionStep, StartCompaction, HasWork;
    CompactionCanStart(s);
    var p := Everything(s);
    var u := StartCompaction(s, p);
    BackStep(states, actions, s, DoStartCompaction(p), u);
    states', actions', t := CompactionCanFinish(states + [u], actions + [DoStartCompaction(p)], u);
    NothingLeft(s, u, t);
  }

  lemma NothingLeft(s: State, u: State, t: State)
    requires u.bg.Compacting? && u.bg.job.plan == Everything(s) && u.bg.job.byRequest == u.manual
    requires u.version == s.version
    requires t.imm.None? && !t.otherWork && (u.manual ==> !t.manual) && (!u.manual ==> !t.manual)
    requires forall n :: n in t.version ==>
               (n in u.version && n !in u.bg.job.plan.inputs && t.version[n] == u.version[n]) ||
               t.version[n].level == u.bg.job.plan.level + 1
    ensures !HasWork(t)
  {
    hide SmallestSnapshot;
    EmptyLevel0(t.version);
    CountsLevel0(t.version);
  }

  lemma {:induction false} ComesToRest(states: seq<State>, actions: seq<Action>, s: State)
    returns (states': seq<State>, actions': seq<Action>, t: State)
    requires LeadsTo(states, actions, s) && s.boot.Up? && !s.bgError && !s.shutdown && Resting(s.bg)
    ensures GoesOn(states, actions, s, states', actions', t) && AtRest(t)
    decreases s.imm.Some?, HasWork(s)
  {
    hide LeadsTo, Inv, AtRest, HasWork, Calm, GoesOn;
    states', actions', t := states, actions, s;
    if s.bg.Idle? {
      InvHolds(states, actions, s);
      IdleIsAtRest(s);
      GoesNowhere(states, actions, s);
    } else if s.imm.None? && !HasWork(s) {
      states', actions', t := GivesUp(states, actions, s);
    } else {
      var more, acts, u;
      if s.imm.Some? {
        more, acts, u := MemtableCanBeFlushed(states, actions, s);
      } else {
        more, acts, u := CompactsEverything(states, actions, s);
      }
      StaysHealthy(states, actions, s, more, acts, u);
      states', actions', t := ComesToRest(more, acts, u);
      GoesOnTwice(states, actions, s, more, acts, u, states', actions', t);
    }
  }

  lemma GoesNowhere(states: seq<State>, actions: seq<Action>, s: State)
    requires LeadsTo(states, actions, s) && s.boot.Up? && !s.bgError && !s.shutdown
    ensures GoesOn(states, actions, s, states, actions, s)
  {
    hide LeadsTo;
  }

  /** Whatever the background thread is in the middle of, it can finish it. */
  lemma {:induction false} JobCanFinish(states: seq<State>, actions: seq<Action>, s: State)
    returns (states': seq<State>, actions': seq<Action>, t: State)
    requires LeadsTo(states, actions, s) && s.boot.Up? && !s.bgError && !s.shutdown
    ensures GoesOn(states, actions, s, states', actions', t) && Resting(t.bg)
    decreases if Resting(s.bg) then 0 else if s.bg.Compacting? then 1 else 2
  {
    hide LeadsTo, Calm, GoesOn;
    states', actions', t := states, actions, s;
    GoesNowhere(states, actions, s);
    if s.bg.Compacting? {
      states', actions', t := CompactionCanFinish(states, actions, s);
    } else if !Resting(s.bg) {
      var more, acts, u;
      if s.bg.Building? {
        more, acts, u := FinishesBuild(states, actions, s);
      } else {
        more, acts, u := Commits(states, actions, s);
      }
      StaysHealthy(states, actions, s, more, acts, u);
      states', actions', t := JobCanFinish(more, acts, u);
      GoesOnTwice(states, actions, s, more, acts, u, states', actions', t);
    }
  }

  /** From every state of every run in which the database is open and nothing has failed, the
      background thread can bring its work to an end: nothing left to flush or to compact, and with
      it the room a waiting writer waits for. */
  lemma {:induction false} WorkCanBeDone(states: seq<State>, actions: seq<Action>, s: State)
    returns (states': seq<State>, actions': seq<Action>, t: State)
    requires LeadsTo(states, actions, s) && s.boot.Up? && !s.bgError && !s.shutdown
    ensures LeadsTo(states', actions', t) && states <= states' && actions <= actions' && t.boot.Up? && !t.bgError
    ensures t.hist == s.hist && t.writers == s.writers && t.arrivals == s.arrivals && t.groups == s.groups
    ensures t.bg.Idle? && t.imm.None? && !t.manual && !t.otherWork && |InLevel0(t.version)| < 4
  {
    hide LeadsTo;
    var more, acts, u := JobCanFinish(states, actions, s);
    states', actions', t := ComesToRest(more, acts, u);
  }

  /** A snapshot can be taken or given back at any time; a read can start at any live snapshot and at
      LastSequence, and can finish. */
  lemma ReadersCanCome(s: State, id: nat, key: Key, snap: nat, i: nat)
    requires s.boot.Up?
    ensures id !in s.readers && (snap in s.snapshots || snap == s.lastSeq) ==>
              exists t :: Step(s, DoStartGet(id, key, snap), t)
    ensures id in s.readers ==> exists t :: Step(s, DoFinishGet(id, false), t)
    ensures exists t :: Step(s, DoTakeSnapshot, t)
    ensures i < |s.snapshots| ==> exists t :: Step(s, DoReleaseSnapshot(i), t)
  {
    hide Step;
    ReaderIsStep(s, DoTakeSnapshot, TakeSnapshot(s));
    if id in s.readers {
      ReaderIsStep(s, DoFinishGet(id, false), FinishGet(s, id, false));
    } else if snap in s.snapshots || snap == s.lastSeq {
      ReaderIsStep(s, DoStartGet(id, key, snap), StartGet(s, id, key, snap));
    }
    if i < |s.snapshots| {
      ReaderIsStep(s, DoReleaseSnapshot(i), ReleaseSnapshot(s, i));
    }
  }

  lemma ReaderIsStep(s: State, a: Action, t: State)
    requires s.boot.Up? && ReaderStep(s, a, t)
    ensures Step(s, a, t)
  {
    hide WriterStep, ReaderStep, FlushStep, CompactionStep, BootStep;
  }

  // ----- what the environment may do -----

  /** The process can die at any moment, and whatever it was writing may be on disk or not: all that is
      certain to be there is the MANIFEST, its tables and the logs it needs; a log made meanwhile is
      empty. */
  lemma AnythingMayBeLeft(s: State, left: Disk)
    requires left.manifest == s.disk.manifest
    requires forall n :: n in s.disk.manifest.version && n in s.disk.tables ==>
               n in left.tables && left.tables[n] == s.disk.tables[n]
    requires forall n :: n in s.disk.logs && n >= s.disk.manifest.log ==>
               n in left.logs && left.logs[n] == s.disk.logs[n]
    requires forall n :: n in left.logs && n >= s.disk.manifest.log && n !in s.disk.logs ==> left.logs[n] == []
    ensures Step(s, DoCrash(left), Crash(s, left))
  {
    hide Crash, EngineStep;
    BootStepIsStep(s, DoCrash(left), Crash(s, left));
  }

  /** Whatever picks a compaction may pick any inputs at two neighbouring levels that leave no older
      entry of one of their keys behind there, and call any of their keys a base key that has no entry
      further down. */
  lemma AnyPlanCanStart(s: State, p: Plan)
    requires s.boot.Up? && s.bg.Queued? && !s.shutdown && !s.bgError && s.imm.None? && Due(s)
    requires p.level + 1 < 7 && p.smallest == SmallestSnapshot(s)
    requires forall n :: n in p.inputs ==> n in s.version && s.version[n].level in {p.level, p.level + 1}
    requires forall n, e, m, i ::
      (n in s.version && n !in p.inputs && s.version[n].level in {p.level, p.level + 1} && e in s.version[n].entries &&
       m in p.inputs && m in s.version && i in s.version[m].entries && i.key == e.key) ==> i.seqno < e.seqno
    requires forall k :: k in p.base ==>
      && (exists m, i :: m in p.inputs && m in s.version && i in s.version[m].entries && i.key == k)
      && forall n, e :: n in s.version && s.version[n].level >= p.level + 2 && e in s.version[n].entries ==> e.key != k
    ensures exists t :: Step(s, DoStartCompaction(p), t)
  {
    hide Step, SmallestSnapshot, InLevel0;
    CountsLevel0(s.version);
    forall k | k in p.base ensures exists i :: i in InputEntries(s.version, p) && i.key == k {
      var m, i :| m in p.inputs && m in s.version && i in s.version[m].entries && i.key == k;
      assert i in InputEntries(s.version, p);
    }
    hide Level0Files;
    BackIsStep(s, DoStartCompaction(p), StartCompaction(s, p));
  }

  /** Whatever picks the level of a flush may pick level 0, and any other if no table down to it shares
      a key with the memtable. */
  lemma AnyLevelCanBeChosen(s: State, level: nat)
    requires s.boot.Up? && s.bg.Building? && level < 7
    requires level > 0 ==> forall n, e, f ::
      (n in s.version && s.version[n].level <= level && e in s.version[n].entries &&
       f in ImmEntries(s.memtables, s.imm)) ==> e.key != f.key
    ensures exists t :: Step(s, DoFinishBuild(level), t)
  {
    hide Step, FinishBuild;
    BackIsStep(s, DoFinishBuild(level), FinishBuild(s, level));
  }
}
