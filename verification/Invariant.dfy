/** What holds of the engine at every mutex release. */
module Invariant {
  import opened Options
  import opened Entries
  import opened Versions
  import opened VersionEdits
  import opened Writers
  import opened Engine

  // ----- memory: the layers and the sequence numbers that separate them -----

  ghost predicate Between(E: set<Entry>, lo: nat, hi: nat) {
    forall e :: e in E ==> lo < e.seqno <= hi
  }

  /** Tables end at `cutImm`, the immutable memtable at `cutMem`, the memtable at `top`. */
  ghost predicate LayersOK(w: View, cutImm: nat, cutMem: nat, top: nat) {
    && cutImm <= cutMem <= top
    && Between(w.mem, cutMem, top) && Between(w.imm, cutImm, cutMem)
    && (forall e :: e in Contents(w.version) ==> e.seqno <= cutImm)
    && VersionOrdered(w.version)
  }

  ghost predicate MemtablesOK(memtables: map<nat, set<Entry>>, mem: nat, imm: Option<nat>, hasImm: bool) {
    && mem in memtables && (forall id :: id in memtables ==> id <= mem)
    && (imm.Some? ==> imm.value in memtables && imm.value < mem)
    && hasImm == imm.Some?
  }

  /** The layers stand for the published history to every reader at or above `floor`. */
  ghost predicate HistoryOK(E: set<Entry>, hist: set<Entry>, flying: set<Entry>, floor: nat, lastSeq: nat) {
    && floor <= lastSeq
    && UniqueSeq(hist) && (forall h :: h in hist ==> h.seqno <= lastSeq)
    && E <= hist + flying
    && Cover(E, hist, floor, lastSeq)
  }

  /** What compactions have dropped was in a table. */
  ghost predicate DroppedOK(E: set<Entry>, hist: set<Entry>, cutImm: nat) {
    forall h :: h in hist && h !in E ==> h.seqno <= cutImm
  }

  ghost predicate PhaseOK(phase: Phase, writers: seq<Writer>) {
    && (phase.Logging? ==>
          && phase.members != [] && phase.members <= writers
          && phase.members[0].batch.Some?
          && (forall w :: w in phase.members && w.sync ==> phase.members[0].sync)
          && phase.inserted <= |GroupOps(phase.members)|
          && (!phase.logged ==> phase.inserted == 0 && !phase.synced)
          && (phase.inserted > 0 && phase.members[0].sync ==> phase.synced))
    && (phase.Failed? ==> phase.members != [] && phase.members <= writers)
  }

  // ----- readers -----

  ghost predicate ReaderOK(w: View, hist: set<Entry>, flying: set<Entry>, snap: nat, lastSeq: nat) {
    && snap <= lastSeq
    && Ordered(w) && All(w) <= hist + flying
    && Cover(All(w), hist, snap, snap)
  }

  ghost predicate ReadersOK(s: State) {
    forall r :: r in s.readers ==>
      && s.readers[r].mem in s.memtables && s.readers[r].mem <= s.mem
      && (s.readers[r].imm.Some? ==> s.readers[r].imm.value in s.memtables
                                     && s.readers[r].imm.value < s.readers[r].mem)
      && ReaderOK(Pinned(s, s.readers[r]), s.hist, InFlight(s), s.readers[r].snap, s.lastSeq)
  }

  ghost predicate SnapshotsOK(snapshots: seq<nat>, floor: nat, lastSeq: nat) {
    && (forall i :: 0 <= i < |snapshots| ==> floor <= snapshots[i] <= lastSeq)
    && (forall i, j :: 0 <= i < j < |snapshots| ==> snapshots[i] <= snapshots[j])
  }

  // ----- the background job -----

  function JobOf(bg: Bg): Option<Job> {
    match bg
    case Compacting(job) => Some(job)
    case Building(_, outer) => outer
    case Committing(_, _, FlushDone(outer)) => outer
    case Committing(_, _, CompactDone(job)) => Some(job)
    case _ => None
  }

  function PlanOf(bg: Bg): Option<Plan> {
    if bg.Committing? && bg.what.MoveDone? then Some(bg.what.plan)
    else if JobOf(bg).Some? then Some(JobOf(bg).value.plan) else None
  }

  ghost predicate PlansOK(bg: Bg, version: Version, snapshots: seq<nat>, lastSeq: nat) {
    PlanOf(bg).Some? ==>
      var p := PlanOf(bg).value;
      && PlanOK(version, p) && p.smallest <= lastSeq
      && forall i :: 0 <= i < |snapshots| ==> p.smallest <= snapshots[i]
  }

  /** A flush in progress has an immutable memtable to flush. */
  ghost predicate FlushingOK(bg: Bg, imm: Option<nat>, version: Version) {
    && (bg.Building? ==> imm.Some? && NumbersBelow(version, bg.number))
    && (bg.Committing? && bg.what.FlushDone? ==> imm.Some?)
  }

  ghost predicate AddsFlushed(version: Version, edit: Manifest, flushed: set<Entry>) {
    if flushed == {} then edit.version == version
    else exists n, level :: NumbersBelow(version, n) && FlushLevelOK(version, level, flushed)
                            && edit.version == AddTable(version, n, level, flushed)
  }

  /** The edit on its way to the MANIFEST is the current version with one change made. */
  ghost predicate EditOK(bg: Bg, version: Version, flushed: set<Entry>, logNum: nat, versLog: nat,
                         floor: nat, cutImm: nat, cutMem: nat, lastSeq: nat) {
    bg.Committing? ==>
      var edit := bg.edit;
      && floor <= edit.lastSeq <= lastSeq && cutImm <= edit.lastSeq
      && match bg.what
         case FlushDone(_) => edit.log == logNum && AddsFlushed(version, edit, flushed) && cutMem <= edit.lastSeq
         case CompactDone(job) =>
           edit.log == versLog && CompactionResult(version, job.plan, job.outs)
           && edit.version == Replace(version, job.plan, job.outs) && job.plan.smallest <= edit.lastSeq
         case MoveDone(p) => edit.log == versLog && TrivialMoveOK(version, p) && edit.version == MoveDown(version, p)
  }

  // ----- files -----

  /** Table files some thread is still writing. */
  predicate Reserves(bg: Bg, n: nat) {
    || (bg.Building? && n == bg.number)
    || (!(bg.Committing? && bg.what.CompactDone?) && JobOf(bg).Some? && n in JobOf(bg).value.outs)
  }

  /** Table files that someone reads, or will read once an edit is installed. */
  ghost predicate Uses(s: State, n: nat) {
    || n in s.version
    || n in ReaderFiles(s.readers)
    || n in s.disk.manifest.version
    || (s.bg.Committing? && n in s.bg.edit.version)
  }

  ghost predicate NumbersOK(s: State) {
    && (forall n: nat :: Uses(s, n) ==> n < s.nextFile && !Reserves(s.bg, n))
    && (forall n: nat :: Reserves(s.bg, n) ==> n < s.nextFile)
    && (JobOf(s.bg).Some? ==> JobOf(s.bg).value.outs.Keys <= s.pending)
    && (s.bg.Building? ==> s.bg.number in s.pending)
    && (s.bg.Building? && s.bg.outer.Some? ==> s.bg.number !in s.bg.outer.value.outs)
  }

  ghost predicate OnDisk(tables: map<nat, set<Entry>>, v: Version) {
    forall n :: n in v ==> n in tables && tables[n] == v[n].entries
  }

  ghost predicate FilesOK(s: State) {
    && OnDisk(s.disk.tables, s.version)
    && OnDisk(s.disk.tables, s.disk.manifest.version)
    && (forall r :: r in s.readers ==> OnDisk(s.disk.tables, s.readers[r].version))
    && (s.bg.Committing? ==> OnDisk(s.disk.tables, s.bg.edit.version))
    && (JobOf(s.bg).Some? ==> forall n :: n in JobOf(s.bg).value.outs ==>
          n in s.disk.tables && s.disk.tables[n] == JobOf(s.bg).value.outs[n])
  }

  ghost predicate ManifestOK(m: Manifest, bg: Bg, version: Version, versLog: nat, floor: nat, cutImm: nat,
                             nextFile: nat) {
    && NumbersBelow(m.version, m.nextFile) && m.log < m.nextFile <= nextFile
    && (bg.Committing? ==>
          NumbersBelow(bg.edit.version, bg.edit.nextFile) && bg.edit.log < bg.edit.nextFile <= nextFile)
    && if bg.Committing? && bg.persisted then m == bg.edit
       else m.version == version && m.log == versLog && floor <= m.lastSeq && cutImm <= m.lastSeq
  }

  // ----- the log -----

  /** Records in the order their sequence numbers were given out, all within (lo, hi]. */
  ghost predicate Ascends(records: seq<Record>, lo: nat, hi: nat) {
    && (forall i :: 0 <= i < |records| ==> lo < records[i].base && records[i].base + |records[i].ops| <= hi + 1)
    && (forall i, j :: 0 <= i < j < |records| ==> records[i].base + |records[i].ops| <= records[j].base)
  }

  /** Sequence numbers the group now being logged has put into the log. */
  function LoggedTop(lastSeq: nat, phase: Phase): nat {
    lastSeq + (if phase.Logging? && phase.logged then |GroupOps(phase.members)|
               else if phase.Failed? && phase.badSync then |GroupOps(phase.members)| else 0)
  }

  ghost predicate LogsOK(logs: map<nat, seq<Record>>, imm: Option<nat>, immEntries: set<Entry>, memEntries: set<Entry>,
                         unapplied: set<Entry>, logNum: nat, versLog: nat, cutImm: nat, cutMem: nat, top: nat) {
    && logNum in logs && versLog in logs
    && (forall n :: n in logs && n >= versLog ==> n == versLog || n == logNum)
    && RecordEntries(logs[logNum]) == memEntries + unapplied
    && Ascends(logs[logNum], cutMem, top)
    && (imm.None? ==> versLog == logNum && cutImm == cutMem)
    && (imm.Some? ==> versLog < logNum && RecordEntries(logs[versLog]) == immEntries
                      && Ascends(logs[versLog], cutImm, cutMem))
  }

  /** A write that failed after it was logged stops all later writes. */
  ghost predicate LostOK(s: State) {
    && (s.lost != {} ==> !s.phase.Logging? && (s.bgError || (s.phase.Failed? && s.phase.badSync)))
    && (forall e :: e in s.lost ==> e.seqno <= LoggedTop(s.lastSeq, s.phase))
    && (forall a, b :: a in s.hist && b in s.lost ==> a.seqno != b.seqno)
  }

  ghost predicate LogNumbersOK(logs: map<nat, seq<Record>>, nextFile: nat) {
    forall n :: n in logs ==> n < nextFile
  }

  // ----- scheduling -----

  ghost predicate ScheduledOK(s: State) {
    !s.bg.Idle? || s.shutdown || s.bgError || !HasWork(s)
  }

  // ----- groups -----

  ghost function Completed(groups: seq<Group>): seq<Writer> {
    if groups == [] then [] else Completed(groups[..|groups| - 1]) + groups[|groups| - 1].members
  }

  /** Groups take adjacent ranges of sequence numbers, from `seqno + 1` on. */
  ghost predicate Chained(groups: seq<Group>, start: nat, end: nat) {
    if groups == [] then start == end
    else
      var g := groups[|groups| - 1];
      start < g.base && g.base + |g.ops| == end + 1 && Chained(groups[..|groups| - 1], start, g.base - 1)
  }

  ghost function Applied(groups: seq<Group>): set<Entry> {
    set g, e | g in groups && g.ok && e in EntriesAt(g.base, g.ops) :: e
  }

  ghost predicate GroupOK(g: Group, durable: set<Entry>) {
    && g.members != []
    && (g.ok ==> g.ops == GroupOps(g.members))
    && (g.ok && (exists w :: w in g.members && w.sync && w.batch.Some?) ==> EntriesAt(g.base, g.ops) <= durable)
  }

  /** A sequence number that no group straddles. */
  ghost predicate Boundary(groups: seq<Group>, x: nat) {
    forall g :: g in groups ==> x < g.base || g.base + |g.ops| <= x + 1
  }

  ghost predicate GroupsOK(s: State) {
    && s.arrivals == Completed(s.groups) + s.writers
    && Chained(s.groups, s.seqAtOpen, s.lastSeq)
    && s.hist == s.histAtOpen + Applied(s.groups)
    && (forall h :: h in s.histAtOpen ==> h.seqno <= s.seqAtOpen)
    && (forall g :: g in s.groups ==> GroupOK(g, s.durable) && g.base + |g.ops| <= s.lastSeq + 1)
    && (s.phase.Logging? && s.phase.synced ==>
          EntriesAt(s.lastSeq + 1, GroupOps(s.phase.members)) <= s.durable)
  }

  ghost predicate BoundariesOK(s: State) {
    && (forall i :: 0 <= i < |s.snapshots| ==> Boundary(s.groups, s.snapshots[i]))
    && (forall r :: r in s.readers ==> Boundary(s.groups, s.readers[r].snap))
  }

  // ----- all of it -----

  ghost predicate ViewInv(s: State) {
    && MemtablesOK(s.memtables, s.mem, s.imm, s.hasImm)
    && LayersOK(Current(s), s.cutImm, s.cutMem, Top(s))
    && HistoryOK(All(Current(s)), s.hist, InFlight(s), s.floor, s.lastSeq)
    && DroppedOK(All(Current(s)), s.hist, s.cutImm)
    && InFlight(s) <= Current(s).mem
    && s.cutMem <= s.lastSeq
  }

  ghost predicate JobInv(s: State) {
    && SnapshotsOK(s.snapshots, s.floor, s.lastSeq)
    && PlansOK(s.bg, s.version, s.snapshots, s.lastSeq)
    && FlushingOK(s.bg, s.imm, s.version)
    && EditOK(s.bg, s.version, ImmEntries(s.memtables, s.imm), s.logNum, s.versLog, s.floor, s.cutImm, s.cutMem,
              s.lastSeq)
  }

  ghost predicate DiskInv(s: State) {
    && NumbersOK(s) && FilesOK(s)
    && ManifestOK(s.disk.manifest, s.bg, s.version, s.versLog, s.floor, s.cutImm, s.nextFile)
  }

  ghost predicate LogInv(s: State) {
    && LogsOK(s.disk.logs, s.imm, ImmEntries(s.memtables, s.imm), Current(s).mem, Unapplied(s), s.logNum, s.versLog,
              s.cutImm, s.cutMem, LoggedTop(s.lastSeq, s.phase))
    && LostOK(s) && LogNumbersOK(s.disk.logs, s.nextFile)
  }

  ghost predicate QueueInv(s: State) {
    PhaseOK(s.phase, s.writers) && GroupsOK(s) && BoundariesOK(s)
  }

  ghost predicate Core(s: State) {
    ViewInv(s) && ReadersOK(s) && JobInv(s) && DiskInv(s) && LogInv(s) && QueueInv(s)
  }

  ghost predicate Inv(s: State) {
    Core(s) && ScheduledOK(s)
  }
}
