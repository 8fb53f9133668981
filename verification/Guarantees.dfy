/** What the engine guarantees to its users, over every run. */
module Guarantees {
  import opened Options
  import opened Entries
  import opened Versions
  import opened VersionEdits
  import opened Writers
  import opened Engine
  import opened Invariant
  import opened Frames
  import opened ReaderSteps
  import opened InstallSteps
  import opened Durability
  import opened Recovery
  import opened Actions
  import opened Runs
  import Compaction

  // ----- reads refine the history -----

  /** A layered read of a well-ordered view that covers the history answers like the history. */
  lemma ViewAnswers(w: View, hist: set<Entry>, flying: set<Entry>, lo: nat, hi: nat, lastSeq: nat, k: Key, x: nat,
                    bound: nat)
    requires Ordered(w) && NumbersBelow(w.version, bound) && Cover(All(w), hist, lo, hi) && lo <= x <= hi
    requires All(w) <= hist + flying && UniqueSeq(hist) && UniqueSeq(flying)
    requires (forall h :: h in hist ==> h.seqno <= lastSeq) && (forall f :: f in flying ==> f.seqno > lastSeq)
    ensures Get(w, k, x, bound) == Read(hist, k, x)
  {
    hide Ordered, Cover;
    UniqueAll(All(w), hist, flying, lastSeq);
    GetRefinesFlatRead(w, k, x, bound);
    CoverRead(All(w), hist, lo, hi, k, x);
  }

  lemma VersionNumbers(s: State, id: nat)
    requires DiskInv(s)
    ensures NumbersBelow(s.version, s.nextFile)
    ensures id in s.readers ==> NumbersBelow(s.readers[id].version, s.nextFile)
  {
    forall n | n in s.version ensures n < s.nextFile {
      assert Uses(s, n);
    }
    if id in s.readers {
      forall n | n in s.readers[id].version ensures n < s.nextFile {
        assert n in ReaderFiles(s.readers);
        assert Uses(s, n);
      }
    }
  }

  /** A read started now, at any sequence number still in use, answers with the last published
      operation on the key at or below that number. */
  lemma ReadNow(s: State, k: Key, x: nat)
    requires Inv(s) && (x in s.snapshots || x == s.lastSeq)
    ensures Get(Current(s), k, x, s.nextFile) == Read(s.hist, k, x)
  {
    hide ViewInv, ReadersOK, JobInv, DiskInv, LogInv, QueueInv, PhaseOK, LayersOK, Ordered;
    SnapshotRange(s, x);
    QueueFacts(s);
    FlightFacts(s);
    VersionNumbers(s, 0);
    ViewHistory(s);
    LayersAreOrdered(Current(s), s.cutImm, s.cutMem, Top(s));
    ViewAnswers(Current(s), s.hist, InFlight(s), s.floor, s.lastSeq, s.lastSeq, k, x, s.nextFile);
  }

  lemma ViewHistory(s: State)
    requires ViewInv(s)
    ensures HistoryOK(All(Current(s)), s.hist, InFlight(s), s.floor, s.lastSeq)
    ensures LayersOK(Current(s), s.cutImm, s.cutMem, Top(s))
  {
  }

  /** A Get in progress answers the same whatever happens around it: memtable switches, flushes,
      compactions and writes since it pinned its memtables and version make no difference. */
  lemma PinnedRead(s: State, id: nat)
    requires Inv(s) && id in s.readers
    ensures GetAnswer(s, id) == Read(s.hist, s.readers[id].key, s.readers[id].snap)
  {
    hide ViewInv, JobInv, DiskInv, LogInv, QueueInv, PhaseOK, Ordered;
    var r := s.readers[id];
    QueueFacts(s);
    FlightFacts(s);
    VersionNumbers(s, id);
    ViewHistory(s);
    assert ReaderOK(Pinned(s, r), s.hist, InFlight(s), r.snap, s.lastSeq);
    ViewAnswers(Pinned(s, r), s.hist, InFlight(s), r.snap, r.snap, s.lastSeq, r.key, r.snap, s.nextFile);
  }

  // ----- settled reads -----

  /** Only an open database has snapshots, reads in progress or finished groups. */
  lemma InUse(s: State)
    requires BootInv(s) && (s.snapshots != [] || s.readers != map[] || s.groups != [] || s.boot.Up?)
    ensures s.boot.Up? && Inv(s)
  {
    hide Inv, Sound, Built, Replays;
  }

  /** Reads at or below LastSequence are settled for good. */
  lemma SettledRead(hist: set<Entry>, hist': set<Entry>, k: Key, x: nat, lastSeq: nat)
    requires hist <= hist' && UniqueSeq(hist') && x <= lastSeq
    requires forall e :: e in hist' - hist ==> e.seqno > lastSeq
    ensures Read(hist, k, x) == Read(hist', k, x)
  {
    ReadIgnoresNewer(hist, hist', k, x);
  }

  lemma UniqueHistory(s: State)
    requires Inv(s)
    ensures UniqueSeq(s.hist) && (forall x :: x in s.snapshots ==> x <= s.lastSeq)
    ensures forall r :: r in s.readers ==> s.readers[r].snap <= s.lastSeq
  {
    hide ViewInv, JobInv, DiskInv, LogInv, QueueInv, ReadersOK;
    ViewHistory(s);
    JobFacts(s);
    ReaderFacts(s);
  }

  /** Snapshot stability: as long as a snapshot stays alive, every key reads the same through
      it, in every interleaving. */
  lemma {:induction false} SnapshotIsStable(states: seq<State>, actions: seq<Action>, i: nat, j: nat, x: nat, k: Key)
    requires IsRun(states, actions) && i <= j < |states|
    requires forall m :: i <= m <= j ==> x in states[m].snapshots
    ensures Get(Current(states[j]), k, x, states[j].nextFile) == Get(Current(states[i]), k, x, states[i].nextFile)
    decreases j - i
  {
    hide Step, IsNew, Inv, Get, Read, BootInv;
    RunKeeps(states, actions, i);
    InUse(states[i]);
    ReadNow(states[i], k, x);
    if i < j {
      SnapshotIsStable(states, actions, i + 1, j, x, k);
      RunKeeps(states, actions, i + 1);
      InUse(states[i + 1]);
      ReadNow(states[i + 1], k, x);
      HistoryStep(states[i], actions[i], states[i + 1]);
      UniqueHistory(states[i]);
      UniqueHistory(states[i + 1]);
      SettledRead(states[i].hist, states[i + 1].hist, k, x, states[i].lastSeq);
    }
  }

  /** A Get is a read of the history as it was when the Get began, at the sequence number it
      chose then, however long it takes and whatever happens meanwhile. */
  lemma {:induction false} GetReadsItsBeginning(states: seq<State>, actions: seq<Action>, i: nat, j: nat, id: nat)
    requires IsRun(states, actions) && i <= j < |states| && id in states[i].readers
    requires forall m :: i <= m <= j ==> id in states[m].readers && states[m].readers[id] == states[i].readers[id]
    ensures GetAnswer(states[j], id) == Read(states[i].hist, states[i].readers[id].key, states[i].readers[id].snap)
    decreases j - i
  {
    hide Step, IsNew, Inv, GetAnswer, Read, BootInv;
    RunKeeps(states, actions, i);
    InUse(states[i]);
    if i == j {
      PinnedRead(states[i], id);
    } else {
      GetReadsItsBeginning(states, actions, i + 1, j, id);
      RunKeeps(states, actions, i + 1);
      InUse(states[i + 1]);
      HistoryStep(states[i], actions[i], states[i + 1]);
      UniqueHistory(states[i]);
      UniqueHistory(states[i + 1]);
      var r := states[i].readers[id];
      SettledRead(states[i].hist, states[i + 1].hist, r.key, r.snap, states[i].lastSeq);
    }
  }

  // ----- durability -----

  lemma {:induction false} HistoryGrows(states: seq<State>, actions: seq<Action>, i: nat, j: nat)
    requires IsRun(states, actions) && i <= j < |states|
    ensures states[i].hist <= states[j].hist
    decreases j - i
  {
    hide Step, IsNew;
    if i < j {
      HistoryStep(states[i], actions[i], states[i + 1]);
      HistoryGrows(states, actions, i + 1, j);
    }
  }

  lemma MemorySurvives(s: State, h: Entry)
    requires Inv(s) && h in s.hist
    ensures Survives(All(Current(s)), s.hist, h)
  {
    hide ViewInv, ReadersOK, JobInv, DiskInv, LogInv, QueueInv, Current, All, LayersOK, Survives;
    ViewHistory(s);
    if h in All(Current(s)) {
      HereSurvives(All(Current(s)), s.hist, h);
    } else {
      MissingSurvives(All(Current(s)), s.hist, s.floor, h);
    }
  }

  lemma OneSurvives(s: State, h: Entry)
    requires BootInv(s) && h in s.hist
    ensures Survives(Stored(s.disk), s.hist + Unapplied(s), h)
    ensures s.boot.Up? ==> Survives(All(Current(s)), s.hist, h) && h.seqno <= s.lastSeq
  {
    hide Inv, BootInv, Stored, Unapplied, Survives, Current, All, PersistedFloor;
    BootIsSound(s);
    StoredSurvives(s.disk, s.hist + Unapplied(s), PersistedFloor(s), h);
    if s.boot.Up? {
      InUse(s);
      MemorySurvives(s, h);
      HistoryBelowLast(s);
    }
  }

  /** Nothing is on disk that was not published or at least logged. */
  lemma NothingElseIsStored(s: State)
    requires BootInv(s)
    ensures Stored(s.disk) <= s.hist + Unapplied(s)
  {
    hide Inv, BootInv, Stored, Unapplied, PersistedFloor, LogsAscend, VersionOrdered, OnDisk;
    BootIsSound(s);
    var lo: nat, top: nat :| SoundAt(s.disk, s.hist + Unapplied(s), PersistedFloor(s), lo, top);
  }

  /** No published write is ever lost, whatever crashes and abandoned recoveries come after it.
      In every later state it is in the tables and logs that recovery reads, unless a newer
      operation on its key is, or it was deleted and the key is gone, and nothing foreign is there;
      an open database holds it in the same sense, and reads the history it belongs to. */
  lemma PublishedSurvives(states: seq<State>, actions: seq<Action>, i: nat, j: nat)
    requires IsRun(states, actions) && i <= j < |states|
    ensures var t := states[j];
      && states[i].hist <= t.hist && Stored(t.disk) <= t.hist + Unapplied(t)
      && (forall h :: h in states[i].hist ==> Survives(Stored(t.disk), t.hist + Unapplied(t), h))
      && (t.boot.Up? ==>
            && (forall h :: h in states[i].hist ==> Survives(All(Current(t)), t.hist, h) && h.seqno <= t.lastSeq)
            && (forall k :: Get(Current(t), k, t.lastSeq, t.nextFile) == Read(t.hist, k, t.lastSeq)))
  {
    hide Step, IsNew, Inv, BootInv, Stored, Unapplied, Survives, Get, Read, Current, All;
    var t := states[j];
    HistoryGrows(states, actions, i, j);
    RunKeeps(states, actions, j);
    NothingElseIsStored(t);
    forall h | h in states[i].hist
      ensures Survives(Stored(t.disk), t.hist + Unapplied(t), h)
      ensures t.boot.Up? ==> Survives(All(Current(t)), t.hist, h) && h.seqno <= t.lastSeq
    {
      OneSurvives(t, h);
    }
    if t.boot.Up? {
      InUse(t);
      forall k ensures Get(Current(t), k, t.lastSeq, t.nextFile) == Read(t.hist, k, t.lastSeq) {
        ReadNow(t, k, t.lastSeq);
      }
    }
  }

  /** So it is with every operation of a group that reported success; and as long as no later
      operation on its key is published, it is what a read of the key answers. */
  lemma AcknowledgedSurvives(states: seq<State>, actions: seq<Action>, i: nat, j: nat, g: Group, e: Entry)
    requires IsRun(states, actions) && i <= j < |states| && g in states[i].groups && g.ok
    requires e in EntriesAt(g.base, GroupOps(g.members))
    ensures var t := states[j];
      && e in t.hist && Survives(Stored(t.disk), t.hist + Unapplied(t), e)
      && (t.boot.Up? ==> Survives(All(Current(t)), t.hist, e))
      && (t.boot.Up? && (forall n :: n in t.hist && n.key == e.key ==> n.seqno <= e.seqno) ==>
            Get(Current(t), e.key, t.lastSeq, t.nextFile) == AnswerOf(e))
  {
    hide Step, IsNew, Inv, BootInv, GroupOps, EntriesAt, Stored, Unapplied, Survives, Get, Read, Current, All;
    RunKeeps(states, actions, i);
    InUse(states[i]);
    GroupIsApplied(states[i], g);
    PublishedSurvives(states, actions, i, j);
    var t := states[j];
    if t.boot.Up? && forall n :: n in t.hist && n.key == e.key ==> n.seqno <= e.seqno {
      RunKeeps(states, actions, j);
      InUse(t);
      UniqueHistory(t);
      assert IsNewest(t.hist, e.key, t.lastSeq, e);
      ReadIs(t.hist, e.key, t.lastSeq, e);
    }
  }

  lemma GroupIsApplied(s: State, g: Group)
    requires Inv(s) && g in s.groups && g.ok
    ensures EntriesAt(g.base, GroupOps(g.members)) <= s.hist && g.ops == GroupOps(g.members)
  {
    hide ViewInv, JobInv, DiskInv, LogInv, ReadersOK, ScheduledOK, BoundariesOK, PhaseOK, Chained;
    assert GroupOK(g, s.durable);
  }

  lemma HistoryBelowLast(s: State)
    requires Inv(s)
    ensures forall e :: e in s.hist ==> e.seqno <= s.lastSeq
  {
    hide ViewInv, JobInv, DiskInv, LogInv, QueueInv, ReadersOK;
    ViewHistory(s);
  }

  /** Until the database is open again, neither recovery nor dying once more changes what will
      have been the history. */
  lemma {:induction false} HistoryWaits(states: seq<State>, actions: seq<Action>, i: nat, j: nat)
    requires IsRun(states, actions) && i < j < |states| && actions[i].DoCrash?
    requires forall m :: i < m < j ==> !states[m].boot.Up?
    ensures states[j].hist == states[i].hist + Unapplied(states[i])
    decreases j
  {
    hide Step, IsNew, Unapplied, BootInv;
    HistoryStep(states[j - 1], actions[j - 1], states[j]);
    if j > i + 1 {
      HistoryWaits(states, actions, i, j - 1);
      RunKeeps(states, actions, j - 1);
      NothingInFlight(states[j - 1]);
    }
  }

  lemma NothingInFlight(s: State)
    requires BootInv(s) && !s.boot.Up?
    ensures Unapplied(s) == {}
  {
    hide Inv, Sound, Built, Replays;
  }

  /** Crash safety: the database died at `i`, and at `j` it is open again for the first time,
      after any number of further crashes in the middle of recovery.  It reads exactly the history
      published at `i`, plus what had reached the log without being published; the recovered
      LastSequence bounds all of it; and if no group was in flight and no Sync had failed, it is
      the published history and nothing else. */
  lemma CrashIsSafe(states: seq<State>, actions: seq<Action>, i: nat, j: nat, k: Key)
    requires IsRun(states, actions) && i < j < |states| && actions[i].DoCrash?
    requires states[j].boot.Up? && forall m :: i < m < j ==> !states[m].boot.Up?
    ensures var s, t := states[i], states[j];
      && t.hist == s.hist + Unapplied(s)
      && Get(Current(t), k, t.lastSeq, t.nextFile) == Read(s.hist + Unapplied(s), k, t.lastSeq)
      && (forall e :: e in s.hist + Unapplied(s) ==> e.seqno <= t.lastSeq)
      && (s.phase.Waiting? && s.lost == {} ==> Unapplied(s) == {})
  {
    hide Step, IsNew, Inv, BootInv, Get, Read;
    var t := states[j];
    HistoryWaits(states, actions, i, j);
    RunKeeps(states, actions, j);
    InUse(t);
    ReadNow(t, k, t.lastSeq);
    HistoryBelowLast(t);
  }

  /** In every state of every run, a replay of the logs that recovery needs goes through their
      records in the order in which the sequence numbers were given out, and misses none. */
  lemma ReplayIsInOrder(states: seq<State>, actions: seq<Action>, i: nat, chunks: seq<Chunk>, newLog: nat)
    requires IsRun(states, actions) && i < |states| && CanReplay(states[i].disk, chunks, newLog)
    ensures exists lo, top :: Ascends(Records(chunks), lo, top)
    ensures RecordEntries(Records(chunks)) == Logged(states[i].disk.logs, states[i].disk.manifest.log)
  {
    hide IsRun, BootInv, Ascends, StandsFor, VersionOrdered, OnDisk, Unapplied, PersistedFloor, RecordEntries, Logged;
    var s := states[i];
    RunKeeps(states, actions, i);
    BootIsSound(s);
    var lo: nat, top: nat :| SoundAt(s.disk, s.hist + Unapplied(s), PersistedFloor(s), lo, top);
    assert PastLogs(s.disk.logs, s.disk.manifest.log, newLog);
    RecordsAreLogged(s.disk.logs, s.disk.manifest.log, newLog);
  }

  /** The log of the immutable memtable is on disk, and recovery will read it, until the
      memtable's table is in the MANIFEST. */
  lemma ImmLogIsKept(s: State)
    requires Inv(s) && s.imm.Some? && NothingPending(s)
    ensures s.disk.manifest.log in s.disk.logs
    ensures RecordEntries(s.disk.logs[s.disk.manifest.log]) == ImmEntries(s.memtables, s.imm)
  {
    hide ViewInv, ReadersOK, JobInv, QueueInv, DiskInv, Ascends, LostOK;
    ManifestIsCurrent(s);
  }

  // ----- files -----

  ghost predicate IsLive(s: State, n: nat) {
    Uses(s, n) || (JobOf(s.bg).Some? && n in JobOf(s.bg).value.outs)
  }

  /** No file of a live version, of a reader, of the MANIFEST, of an edit on its way to the
      MANIFEST or of a running compaction is ever missing, whether the database is open or not. */
  lemma NoLiveFileIsMissing(states: seq<State>, actions: seq<Action>, i: nat, n: nat)
    requires IsRun(states, actions) && i < |states|
    requires if states[i].boot.Up? then IsLive(states[i], n) else n in states[i].disk.manifest.version
    ensures n in states[i].disk.tables
  {
    hide IsRun, Inv, BootInv, Sound, Unapplied, PersistedFloor;
    var s := states[i];
    RunKeeps(states, actions, i);
    if s.boot.Up? {
      InUse(s);
      LiveIsThere(s, n);
    } else {
      BootIsSound(s);
      SoundFacts(s.disk, s.hist + Unapplied(s), PersistedFloor(s));
    }
  }

  lemma LiveIsThere(s: State, n: nat)
    requires Inv(s) && IsLive(s, n)
    ensures n in s.disk.tables
  {
    hide ViewInv, ReadersOK, JobInv, LogInv, QueueInv, ScheduledOK, NumbersOK, ManifestOK;
    assert FilesOK(s);
    if n in ReaderFiles(s.readers) {
      var r :| r in s.readers && n in s.readers[r].version;
      assert OnDisk(s.disk.tables, s.readers[r].version);
    }
  }

  // ----- scheduling -----

  ghost function InLevel0(v: Version): set<nat> {
    set n | n in v && v[n].level == 0
  }

  lemma CountsLevel0(v: Version)
    ensures InLevel0(v) == Level0Files(v)
  {
  }

  /** A writer that sleeps because the previous memtable is still being flushed, or because
      level 0 is too crowded, always has a job coming that will wake it. */
  lemma SleepersAreWoken(s: State)
    requires Inv(s) && !s.bgError && !s.shutdown
    requires s.imm.Some? || |InLevel0(s.version)| >= 12
    ensures !s.bg.Idle?
  {
    hide Core;
    CountsLevel0(s.version);
    hide Level0Files;
  }

  /** In no reachable state is there something to do and nobody on the way to do it: no memtable to
      flush, no request, fewer than four tables in level 0, and no other level that is too big. */
  lemma NoWorkIsForgotten(states: seq<State>, actions: seq<Action>, i: nat)
    requires IsRun(states, actions) && i < |states|
    requires states[i].boot.Up? && states[i].bg.Idle? && !states[i].bgError && !states[i].shutdown
    ensures var s := states[i]; s.imm.None? && !s.manual && !s.otherWork && |InLevel0(s.version)| < 4
  {
    hide IsRun, Core, BootInv;
    RunKeeps(states, actions, i);
    InUse(states[i]);
    CountsLevel0(states[i].version);
  }

  // ----- groups -----

  lemma {:induction false} ChainedIsAdjacent(groups: seq<Group>, start: nat, end: nat, i: nat)
    requires Chained(groups, start, end) && i < |groups|
    ensures groups[i].base == if i == 0 then start + 1 else groups[i - 1].base + |groups[i - 1].ops|
    decreases |groups|
  {
    var last := |groups| - 1;
    var front := groups[..last];
    if i < last {
      ChainedIsAdjacent(front, start, groups[last].base - 1, i);
    } else if i > 0 {
      assert Chained(front, start, groups[last].base - 1);
      assert front[i - 1] == groups[i - 1];
    }
  }

  /** Group commit: writers leave the queue in the order they joined it, each exactly once;
      groups take adjacent ranges of sequence numbers from the first one after opening; and what
      a successful group adds to the history is exactly its members' batches in queue order. */
  lemma GroupCommit(s: State, i: nat)
    requires Inv(s) && i < |s.groups|
    ensures s.arrivals == Completed(s.groups) + s.writers
    ensures s.groups[i].base == if i == 0 then s.seqAtOpen + 1 else s.groups[i - 1].base + |s.groups[i - 1].ops|
    ensures s.groups[i].members != []
    ensures s.groups[i].ok ==> s.groups[i].ops == GroupOps(s.groups[i].members)
    ensures s.hist == s.histAtOpen + Applied(s.groups)
  {
    hide ViewInv, JobInv, DiskInv, LogInv, ReadersOK, ScheduledOK, BoundariesOK, PhaseOK, Chained;
    assert GroupOK(s.groups[i], s.durable);
    ChainedIsAdjacent(s.groups, s.seqAtOpen, s.lastSeq, i);
  }

  /** No reader, with or without a snapshot, sees a part of a batch. */
  lemma BatchesAreAtomic(s: State, g: Group, x: nat)
    requires Inv(s) && g in s.groups
    requires x in s.snapshots || x == s.lastSeq || exists r :: r in s.readers && s.readers[r].snap == x
    ensures (forall e :: e in EntriesAt(g.base, g.ops) ==> e.seqno <= x)
            || (forall e :: e in EntriesAt(g.base, g.ops) ==> e.seqno > x)
  {
    hide ViewInv, JobInv, DiskInv, LogInv, ReadersOK, ScheduledOK, PhaseOK, Chained;
    assert Boundary(s.groups, x);
  }

  /** A synced write that reported success was in the log before some Sync of that log. */
  lemma SyncedIsDurable(s: State, g: Group, w: Writer)
    requires Inv(s) && g in s.groups && g.ok && w in g.members && w.sync && w.batch.Some?
    ensures EntriesAt(g.base, GroupOps(g.members)) <= s.durable
  {
    hide ViewInv, JobInv, DiskInv, LogInv, ReadersOK, ScheduledOK, BoundariesOK, PhaseOK, Chained;
    assert GroupOK(g, s.durable);
  }

  // ----- the compaction loop meets what the engine asks of a compaction -----

  /** A successful run of the compaction loop over its inputs enables the commit. */
  lemma LoopEnablesCommit(s: State, input: seq<Compaction.Item>, isBase: Key -> bool,
                          outputs: seq<Compaction.Output>)
    requires Inv(s) && s.bg.Compacting? && s.bg.job.plan.smallest < Compaction.MAX_SEQUENCE
    requires Compaction.Sorted(input) && Compaction.EntriesOf(input) == InputEntries(s.version, s.bg.job.plan)
    requires Compaction.BaseKeys(input, isBase) == s.bg.job.plan.base
    requires Compaction.Flat(outputs) == Compaction.Retain(Compaction.START, input, s.bg.job.plan.smallest, isBase)
    requires s.bg.job.outs == Compaction.FileMap(outputs)
    ensures CanCommitCompaction(s)
  {
    hide ViewInv, ReadersOK, JobInv, LogInv, QueueInv, Compaction.Retain, Compaction.FileMap, Compaction.Flat;
    Compaction.FilesHoldRetained(outputs, input, s.bg.job.plan.smallest, isBase);
    assert forall n :: n in s.bg.job.outs ==> Reserves(s.bg, n);
    assert forall n :: n in s.version ==> Uses(s, n);
  }
}
