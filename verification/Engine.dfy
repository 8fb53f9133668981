/** The database engine as a state machine.

    One action is one stretch of code run with the mutex held, or one effect a thread has while
    it has released the mutex (appending to the log, inserting into the memtable, writing a
    table file, writing the MANIFEST).  Any enabled action may come next, so a run of the
    machine is an interleaving of writers, readers and the background thread, with crashes.
 */
module Engine {
  import opened Options
  import opened Entries
  import opened Versions
  import opened VersionEdits
  import opened Writers

  // ----- state -----

  datatype Record = Record(base: nat, ops: seq<Op>)

  /** What the MANIFEST says: the tables, the oldest log still needed, and two counters. */
  datatype Manifest = Manifest(version: Version, log: nat, lastSeq: nat, nextFile: nat)

  datatype Disk = Disk(tables: map<nat, set<Entry>>, logs: map<nat, seq<Record>>, manifest: Manifest)

  /** A Get in progress, with the memtables and the version it has pinned. */
  datatype Reader = Reader(mem: nat, imm: Option<nat>, version: Version, snap: nat, key: Key)

  /** What the writer at the head of the queue is doing while it has released the mutex. */
  datatype Phase =
    | Waiting
    | Logging(members: seq<Writer>, logged: bool, synced: bool, inserted: nat)
    | Failed(members: seq<Writer>, badSync: bool)

  /** A group of writers that has left the queue. */
  datatype Group = Group(base: nat, members: seq<Writer>, ops: seq<Op>, ok: bool)

  /** A running compaction; `byRequest` records that a manual compaction asked for it. */
  datatype Job = Job(plan: Plan, outs: map<nat, set<Entry>>, byRequest: bool)

  datatype What = FlushDone(outer: Option<Job>) | CompactDone(job: Job) | MoveDone(plan: Plan)

  /** The background thread. */
  datatype Bg =
    | Idle
    | Queued
    | Building(number: nat, outer: Option<Job>)
    | Compacting(job: Job)
    | Committing(edit: Manifest, persisted: bool, what: What)

  /** A memtable filled and flushed while logs are replayed: a run of records, and the number of
      the table it becomes. */
  datatype Chunk = Chunk(number: nat, records: seq<Record>)

  /** The process: open, dead, or somewhere in the recovery that opens the database again. */
  datatype Boot =
    | Up
    | Down
    | Replaying(chunks: seq<Chunk>)
    | LogMade(chunks: seq<Chunk>, newLog: nat)
    | Written

  datatype State = State(
    memtables: map<nat, set<Entry>>,   // every memtable some thread may still hold
    mem: nat,
    imm: Option<nat>,
    hasImm: bool,
    version: Version,
    logNum: nat,                       // logfile_number_
    versLog: nat,                      // versions_->LogNumber()
    nextFile: nat,
    lastSeq: nat,
    snapshots: seq<nat>,
    readers: map<nat, Reader>,
    pending: set<nat>,                 // pending_outputs_
    writers: seq<Writer>,
    phase: Phase,
    bg: Bg,
    manual: bool,
    otherWork: bool,                   // NeedsCompaction for a reason other than level 0
    bgError: bool,
    shutdown: bool,
    disk: Disk,
    // what happened so far; the engine does not keep these
    hist: set<Entry>,                  // every entry of every published group
    lost: set<Entry>,                  // logged, but reported as failed
    floor: nat,                        // no reader may ask below this any more
    cutMem: nat,                       // lastSeq when `mem` was created
    cutImm: nat,                       // lastSeq when `imm` was created
    seqAtOpen: nat,                    // lastSeq when the database was opened
    histAtOpen: set<Entry>,            // hist when the database was opened
    arrivals: seq<Writer>,             // since the database was opened
    groups: seq<Group>,                // since the database was opened
    durable: set<Entry>,               // logged before some Sync of the log
    boot: Boot)

  function ImmEntries(memtables: map<nat, set<Entry>>, imm: Option<nat>): set<Entry> {
    if imm.Some? && imm.value in memtables then memtables[imm.value] else {}
  }

  function ViewOf(memtables: map<nat, set<Entry>>, mem: nat, imm: Option<nat>, version: Version): View {
    View(if mem in memtables then memtables[mem] else {}, ImmEntries(memtables, imm), version)
  }

  function Current(s: State): View {
    ViewOf(s.memtables, s.mem, s.imm, s.version)
  }

  function Pinned(s: State, r: Reader): View {
    ViewOf(s.memtables, r.mem, r.imm, r.version)
  }

  ghost function RecordEntries(records: seq<Record>): set<Entry> {
    set r, e | r in records && e in EntriesAt(r.base, r.ops) :: e
  }

  function Inserted(s: State): nat {
    if s.phase.Logging? then s.phase.inserted else 0
  }

  /** The largest sequence number any entry may carry. */
  function Top(s: State): nat {
    s.lastSeq + Inserted(s)
  }

  /** Entries that are in the current log but not yet, or never, part of the history. */
  ghost function Unapplied(s: State): set<Entry> {
    s.lost + if s.phase.Logging? && s.phase.logged then EntriesAt(s.lastSeq + 1, GroupOps(s.phase.members)) else {}
  }

  ghost function InFlight(s: State): set<Entry> {
    if s.phase.Logging? && s.phase.inserted <= |GroupOps(s.phase.members)| then
      EntriesAt(s.lastSeq + 1, GroupOps(s.phase.members)[..s.phase.inserted])
    else {}
  }

  // ----- scheduling -----

  ghost function Level0Files(v: Version): set<nat> {
    set n | n in v && v[n].level == 0
  }

  ghost predicate NeedsCompaction(s: State) {
    |Level0Files(s.version)| >= L0_COMPACTION_TRIGGER || s.otherWork
  }

  ghost predicate HasWork(s: State) {
    s.imm.Some? || s.manual || NeedsCompaction(s)
  }

  ghost function MaybeSchedule(s: State): State {
    if s.bg.Idle? && !s.shutdown && !s.bgError && HasWork(s) then s.(bg := Queued) else s
  }

  /** The end of BackgroundCall. */
  ghost function EndJob(s: State): State {
    MaybeSchedule(s.(bg := Idle))
  }

  // ----- file garbage collection -----

  ghost function ReaderFiles(readers: map<nat, Reader>): set<nat> {
    set r, n | r in readers && n in readers[r].version :: n
  }

  ghost function Live(s: State): set<nat> {
    s.pending + s.version.Keys + ReaderFiles(s.readers)
  }

  ghost function Collect(s: State): State {
    if s.bgError then s
    else s.(disk := s.disk.(tables := map n | n in s.disk.tables && n in Live(s) :: s.disk.tables[n],
                            logs := map n | n in s.disk.logs && n >= s.versLog :: s.disk.logs[n]))
  }

  // ----- writers -----

  function Enqueue(s: State, w: Writer): State {
    s.(writers := s.writers + [w], arrivals := s.arrivals + [w])
  }

  ghost predicate AtHead(s: State) {
    s.writers != [] && s.phase.Waiting?
  }

  /** MakeRoomForWrite's last branch: start a new log and a new memtable. */
  ghost predicate CanSwitch(s: State) {
    AtHead(s) && !s.bgError && s.imm.None? && |Level0Files(s.version)| < L0_STOP
  }

  ghost function Switch(s: State): State {
    MaybeSchedule(s.(disk := s.disk.(logs := s.disk.logs[s.nextFile := []]),
                     logNum := s.nextFile, nextFile := s.nextFile + 1,
                     imm := Some(s.mem), hasImm := true,
                     mem := s.mem + 1, memtables := s.memtables[s.mem + 1 := {}],
                     cutMem := s.lastSeq))
  }

  /** What others leave alone while the head of the queue waits for room. */
  predicate PausedBy(s: State, t: State) {
    && t.mem == s.mem && t.memtables == s.memtables && t.logNum == s.logNum && t.lastSeq == s.lastSeq
    && t.phase == s.phase && s.writers <= t.writers && (t.imm == s.imm || t.imm == None)
    && s.nextFile <= t.nextFile && (s.bgError ==> t.bgError)
  }

  ghost predicate CanBeginGroup(s: State, n: nat) {
    AtHead(s) && !s.bgError && IsGroup(s.writers, n)
  }

  function BeginGroup(s: State, n: nat): State
    requires n <= |s.writers|
  {
    s.(phase := Logging(s.writers[..n], false, false, 0))
  }

  ghost predicate CanAppendLog(s: State) {
    s.phase.Logging? && !s.phase.logged && s.logNum in s.disk.logs
  }

  ghost function AppendLog(s: State): State
    requires CanAppendLog(s)
  {
    var r := Record(s.lastSeq + 1, GroupOps(s.phase.members));
    s.(disk := s.disk.(logs := s.disk.logs[s.logNum := s.disk.logs[s.logNum] + [r]]),
       phase := s.phase.(logged := true))
  }

  /** AddRecord reports an error; nothing reached the log. */
  ghost function AppendLogFails(s: State): State
    requires CanAppendLog(s)
  {
    s.(phase := Failed(s.phase.members, false))
  }

  ghost predicate CanSyncLog(s: State) {
    && s.phase.Logging? && s.phase.logged && !s.phase.synced && s.phase.inserted == 0
    && s.phase.members != [] && s.phase.members[0].sync && s.logNum in s.disk.logs
  }

  ghost function SyncLog(s: State): State
    requires CanSyncLog(s)
  {
    s.(phase := s.phase.(synced := true), durable := s.durable + RecordEntries(s.disk.logs[s.logNum]))
  }

  /** Sync reports an error: the record is in the log, but its group fails. */
  ghost function SyncLogFails(s: State): State
    requires CanSyncLog(s)
  {
    s.(phase := Failed(s.phase.members, true), lost := Unapplied(s))
  }

  ghost predicate CanInsert(s: State) {
    && s.phase.Logging? && s.phase.logged && s.phase.members != []
    && (s.phase.members[0].sync ==> s.phase.synced)
    && s.phase.inserted < |GroupOps(s.phase.members)| && s.mem in s.memtables
  }

  ghost function Insert(s: State): State
    requires CanInsert(s)
  {
    var i := s.phase.inserted;
    var e := EntryAt(s.lastSeq + 1 + i, GroupOps(s.phase.members)[i]);
    s.(memtables := s.memtables[s.mem := s.memtables[s.mem] + {e}], phase := s.phase.(inserted := i + 1))
  }

  ghost predicate CanPublish(s: State) {
    && s.phase.Logging? && s.phase.logged && s.phase.members != []
    && (s.phase.members[0].sync ==> s.phase.synced)
    && s.phase.inserted == |GroupOps(s.phase.members)|
    && |s.phase.members| <= |s.writers|
  }

  /** The group leaves the queue; all of it shares the leader's status. */
  function Pop(s: State, n: nat, ops: seq<Op>, ok: bool): State
    requires n <= |s.writers|
  {
    s.(groups := s.groups + [Group(s.lastSeq + 1, s.writers[..n], ops, ok)],
       writers := s.writers[n..], phase := Waiting, lastSeq := s.lastSeq + |ops|)
  }

  ghost function Publish(s: State): State
    requires CanPublish(s)
  {
    var ops := GroupOps(s.phase.members);
    Pop(s, |s.phase.members|, ops, true).(hist := s.hist + EntriesAt(s.lastSeq + 1, ops))
  }

  ghost predicate CanFinishFailed(s: State) {
    s.phase.Failed? && |s.phase.members| <= |s.writers|
  }

  /** A failed group uses up its sequence numbers; a failed Sync stops all later writes. */
  function FinishFailed(s: State): State
    requires s.phase.Failed? && |s.phase.members| <= |s.writers|
  {
    Pop(s, |s.phase.members|, GroupOps(s.phase.members), false).(bgError := s.bgError || s.phase.badSync)
  }

  /** The head writer leaves alone: MakeRoomForWrite failed, or it carried no batch. */
  ghost predicate CanLeaveAlone(s: State, ok: bool) {
    AtHead(s) && (ok ==> s.writers[0].batch.None? && !s.bgError)
  }

  function LeaveAlone(s: State, ok: bool): State
    requires s.writers != []
  {
    Pop(s, 1, [], ok)
  }

  // ----- readers -----

  function TakeSnapshot(s: State): State {
    s.(snapshots := s.snapshots + [s.lastSeq])
  }

  function ReleaseSnapshot(s: State, i: nat): State
    requires i < |s.snapshots|
  {
    s.(snapshots := s.snapshots[..i] + s.snapshots[i + 1..])
  }

  /** Where a read may be anchored: at a live snapshot, or at the latest published write. */
  ghost predicate CanStartGet(s: State, id: nat, snap: nat) {
    id !in s.readers && (snap in s.snapshots || snap == s.lastSeq)
  }

  function StartGet(s: State, id: nat, key: Key, snap: nat): State {
    s.(readers := s.readers[id := Reader(s.mem, s.imm, s.version, snap, key)])
  }

  /** The answer a Get in progress would give now. */
  ghost function GetAnswer(s: State, id: nat): Answer
    requires id in s.readers
  {
    var r := s.readers[id];
    Get(Pinned(s, r), r.key, r.snap, s.nextFile)
  }

  ghost function FinishGet(s: State, id: nat, charge: bool): State {
    MaybeSchedule(s.(readers := s.readers - {id}, otherWork := s.otherWork || charge))
  }

  // ----- requests from outside -----

  ghost function RequestManual(s: State): State {
    MaybeSchedule(s.(manual := true))
  }

  function CancelManual(s: State): State {
    s.(manual := false)
  }

  function Shutdown(s: State): State {
    s.(shutdown := true)
  }

  // ----- the background thread -----

  ghost predicate CanStartFlush(s: State) {
    s.imm.Some? && ((s.bg.Queued? && !s.shutdown && !s.bgError) || s.bg.Compacting?)
  }

  /** WriteLevel0Table up to the point where it releases the mutex. */
  function StartFlush(s: State): State {
    s.(nextFile := s.nextFile + 1, pending := s.pending + {s.nextFile},
       bg := Building(s.nextFile, if s.bg.Compacting? then Some(s.bg.job) else None))
  }

  ghost predicate CanFinishBuild(s: State, level: nat) {
    s.bg.Building? && FlushLevelOK(s.version, level, ImmEntries(s.memtables, s.imm))
  }

  /** BuildTable is done, the mutex is taken again and the edit handed to LogAndApply.  An empty
      memtable leaves no table behind. */
  ghost function FinishBuild(s: State, level: nat): State
    requires s.bg.Building?
  {
    var flushed, n := ImmEntries(s.memtables, s.imm), s.bg.number;
    var v := if flushed == {} then s.version else AddTable(s.version, n, level, flushed);
    s.(disk := if flushed == {} then s.disk else s.disk.(tables := s.disk.tables[n := flushed]),
       pending := s.pending - {n},
       bg := Committing(Manifest(v, s.logNum, s.lastSeq, s.nextFile), false, FlushDone(s.bg.outer)))
  }

  ghost function Resume(s: State, outer: Option<Job>): State {
    if outer.Some? then s.(bg := Compacting(outer.value)) else EndJob(s)
  }

  ghost function BuildFails(s: State): State
    requires s.bg.Building?
  {
    Resume(s.(bgError := true, pending := s.pending - {s.bg.number}), s.bg.outer)
  }

  ghost predicate CanPersist(s: State) {
    s.bg.Committing? && !s.bg.persisted
  }

  function Persist(s: State): State
    requires s.bg.Committing?
  {
    s.(disk := s.disk.(manifest := s.bg.edit), bg := s.bg.(persisted := true))
  }

  /** The edit's effect on what is being read, on the log number and on the history's floor. */
  ghost function Commit(s: State): State
    requires s.bg.Committing?
  {
    var what := s.bg.what;
    s.(version := s.bg.edit.version, versLog := s.bg.edit.log,
       imm := if what.FlushDone? then None else s.imm,
       hasImm := !what.FlushDone? && s.hasImm,
       cutImm := if what.FlushDone? then s.cutMem else s.cutImm,
       floor := if what.CompactDone? && s.floor < what.job.plan.smallest then what.job.plan.smallest else s.floor)
  }

  /** A compaction that was interrupted by a flush goes on; any other job is over. */
  function NextBg(what: What): Bg {
    if what.FlushDone? && what.outer.Some? then Compacting(what.outer.value) else Idle
  }

  ghost function Committed(s: State, otherWork: bool): State
    requires s.bg.Committing?
  {
    var done := s.bg.what.CompactDone?;
    Commit(s).(otherWork := otherWork, bg := NextBg(s.bg.what),
               pending := s.pending - (if done then s.bg.what.job.outs.Keys else {}),
               manual := s.manual && !(done && s.bg.what.job.byRequest))
  }

  /** LogAndApply has the mutex back: the edit takes effect, obsolete files go (a trivial move
      leaves them for later), and the background thread goes on or ends its job. */
  ghost function Install(s: State, otherWork: bool): State
    requires s.bg.Committing?
  {
    var t := Committed(s, otherWork);
    MaybeSchedule(if s.bg.what.MoveDone? then t else Collect(t))
  }

  /** LogAndApply reports an error before the edit reached the MANIFEST. */
  ghost function CommitFails(s: State): State
    requires s.bg.Committing?
  {
    var t := s.(bgError := true);
    match s.bg.what
    case FlushDone(outer) => Resume(t, outer)
    case CompactDone(job) => EndJob(t.(pending := t.pending - job.outs.Keys, manual := t.manual && !job.byRequest))
    case MoveDone(_) => EndJob(t)
  }

  function SmallestSnapshot(s: State): nat {
    if s.snapshots == [] then s.lastSeq else s.snapshots[0]
  }

  /** BackgroundCall found the engine shutting down, in error, or without work.  Only a manual
      request that has nothing to compact is taken back. */
  ghost predicate CanGiveUp(s: State) {
    s.bg.Queued? && (s.shutdown || s.bgError || (s.imm.None? && (s.manual || !NeedsCompaction(s))))
  }

  ghost function GiveUp(s: State): State {
    EndJob(s.(manual := s.manual && (s.shutdown || s.bgError)))
  }

  ghost predicate CanCompact(s: State, p: Plan) {
    && s.bg.Queued? && !s.shutdown && !s.bgError && s.imm.None? && HasWork(s)
    && PlanOK(s.version, p) && p.smallest == SmallestSnapshot(s)
  }

  function StartCompaction(s: State, p: Plan): State {
    s.(bg := Compacting(Job(p, map[], s.manual)))
  }

  ghost predicate CanMove(s: State, p: Plan) {
    CanCompact(s, p) && !s.manual && TrivialMoveOK(s.version, p)
  }

  function StartMove(s: State, p: Plan): State {
    s.(bg := Committing(Manifest(MoveDown(s.version, p), s.versLog, s.lastSeq, s.nextFile), false, MoveDone(p)))
  }

  function OpenOutput(s: State): State
    requires s.bg.Compacting?
  {
    var n := s.nextFile;
    s.(nextFile := n + 1, pending := s.pending + {n}, disk := s.disk.(tables := s.disk.tables[n := {}]),
       bg := Compacting(s.bg.job.(outs := s.bg.job.outs[n := {}])))
  }

  ghost predicate CanWriteOutput(s: State, n: nat) {
    s.bg.Compacting? && n in s.bg.job.outs
  }

  function WriteOutput(s: State, n: nat, content: set<Entry>): State
    requires s.bg.Compacting?
  {
    s.(disk := s.disk.(tables := s.disk.tables[n := content]),
       bg := Compacting(s.bg.job.(outs := s.bg.job.outs[n := content])))
  }

  /** The loop is done: its files hold exactly what the drop rules retain. */
  ghost predicate CanCommitCompaction(s: State) {
    s.bg.Compacting? && CompactionResult(s.version, s.bg.job.plan, s.bg.job.outs)
  }

  function CommitCompaction(s: State): State
    requires s.bg.Compacting?
  {
    var edit := Manifest(Replace(s.version, s.bg.job.plan, s.bg.job.outs), s.versLog, s.lastSeq, s.nextFile);
    s.(bg := Committing(edit, false, CompactDone(s.bg.job)))
  }

  ghost function AbortCompaction(s: State): State
    requires s.bg.Compacting?
  {
    EndJob(s.(bgError := true, pending := s.pending - s.bg.job.outs.Keys, manual := s.manual && !s.bg.job.byRequest))
  }
}
