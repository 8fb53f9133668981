/** A crash of the process at any moment, and the recovery that DB::Open performs after it.

    What was appended to the log or written to a file stays.  Recovery reads the MANIFEST,
    replays every log it still needs in ascending order of number, turns the replayed records
    into level-0 tables, makes a new log, and commits all of it with one edit.  Each of these is
    an action of its own, and the process may die between any two of them; giving up because of
    an error leaves the disk as dying does.
 */
module Recovery {
  import opened Options
  import opened Entries
  import opened Versions
  import opened VersionEdits
  import opened Writers
  import opened Engine
  import opened Invariant
  import opened Frames
  import opened WriterSteps
  import opened BackgroundSteps
  import opened InstallSteps
  import opened Durability

  // ----- what recovery computes -----

  function Records(chunks: seq<Chunk>): seq<Record> {
    if chunks == [] then [] else Records(chunks[..|chunks| - 1]) + chunks[|chunks| - 1].records
  }

  /** WriteLevel0Table adds no file to the edit when the memtable was empty. */
  ghost function AddChunk(v: Version, c: Chunk): Version {
    if RecordEntries(c.records) == {} then v else AddTable(v, c.number, 0, RecordEntries(c.records))
  }

  ghost function AddChunks(v: Version, chunks: seq<Chunk>): Version {
    if chunks == [] then v else AddChunk(AddChunks(v, chunks[..|chunks| - 1]), chunks[|chunks| - 1])
  }

  /** `max_sequence`: the largest sequence number a replayed record accounts for. */
  function MaxSequence(records: seq<Record>): nat {
    if records == [] then 0
    else
      var r, m := records[|records| - 1], MaxSequence(records[..|records| - 1]);
      if r.base + |r.ops| - 1 > m then r.base + |r.ops| - 1 else m
  }

  function LastSequence(disk: Disk, chunks: seq<Chunk>): nat {
    var top := MaxSequence(Records(chunks));
    if disk.manifest.lastSeq < top then top else disk.manifest.lastSeq
  }

  /** Table numbers are taken in ascending order, above the MANIFEST's counter. */
  ghost predicate NumberedFrom(chunks: seq<Chunk>, lo: nat) {
    && (forall i :: 0 <= i < |chunks| ==> lo <= chunks[i].number)
    && (forall i, j :: 0 <= i < j < |chunks| ==> chunks[i].number < chunks[j].number)
  }

  ghost predicate Numbered(chunks: seq<Chunk>, lo: nat, hi: nat) {
    NumberedFrom(chunks, lo) && forall i :: 0 <= i < |chunks| ==> chunks[i].number < hi
  }

  /** `chunks` are the records of all the logs still needed, cut up anyhow. */
  ghost predicate Replays(disk: Disk, chunks: seq<Chunk>, newLog: nat) {
    && Records(chunks) == RecordsFrom(disk.logs, disk.manifest.log, newLog)
    && Numbered(chunks, disk.manifest.nextFile + 1, newLog) && disk.manifest.nextFile < newLog
  }

  ghost predicate CanReplay(disk: Disk, chunks: seq<Chunk>, newLog: nat) {
    Replays(disk, chunks, newLog) && forall n :: n in disk.logs ==> n < newLog
  }

  // ----- the process dies, and comes back -----

  /** Memory is gone. */
  function Off(disk: Disk, hist: set<Entry>, floor: nat): State {
    State(map[0 := {}], 0, None, false, map[], 0, 0, 1, 0, [], map[], {}, [], Waiting, Idle, false, false, false, false,
          disk, hist, {}, floor, 0, 0, 0, {}, [], [], {}, Down)
  }

  ghost function Crash(s: State, left: Disk): State {
    Off(left, s.hist + Unapplied(s), PersistedFloor(s))
  }

  function BeginReplay(s: State): State {
    s.(boot := Replaying([]))
  }

  /** The next memtable goes on where the last one stopped. */
  ghost predicate CanBuildChunk(s: State, c: Chunk) {
    && s.boot.Replaying? && NumberedFrom(s.boot.chunks + [c], s.disk.manifest.nextFile + 1)
    && exists hi: nat :: Records(s.boot.chunks + [c]) <= RecordsFrom(s.disk.logs, s.disk.manifest.log, hi)
  }

  ghost function BuildChunk(s: State, c: Chunk): State
    requires s.boot.Replaying?
  {
    var E := RecordEntries(c.records);
    s.(disk := if E == {} then s.disk else s.disk.(tables := s.disk.tables[c.number := E]),
       boot := Replaying(s.boot.chunks + [c]))
  }

  ghost predicate CanMakeLog(s: State, newLog: nat) {
    s.boot.Replaying? && CanReplay(s.disk, s.boot.chunks, newLog)
  }

  function MakeLog(s: State, newLog: nat): State
    requires s.boot.Replaying?
  {
    s.(disk := s.disk.(logs := s.disk.logs[newLog := []]), boot := LogMade(s.boot.chunks, newLog))
  }

  /** The manifest once the edit of a finished replay is in it. */
  ghost function Reopened(disk: Disk, chunks: seq<Chunk>, newLog: nat): Manifest {
    Manifest(AddChunks(disk.manifest.version, chunks), newLog, LastSequence(disk, chunks), newLog + 1)
  }

  ghost function CommitOpen(s: State): State
    requires s.boot.LogMade?
  {
    s.(disk := s.disk.(manifest := Reopened(s.disk, s.boot.chunks, s.boot.newLog)), boot := Written)
  }

  /** The engine as the MANIFEST says, with an empty memtable. */
  function UpOf(disk: Disk, otherWork: bool, hist: set<Entry>, floor: nat): State {
    var m := disk.manifest;
    State(map[0 := {}], 0, None, false, m.version, m.log, m.log, m.nextFile, m.lastSeq, [], map[], {}, [], Waiting,
          Idle, false, otherWork, false, false, disk,
          hist, {}, floor, m.lastSeq, m.lastSeq, m.lastSeq, hist, [], [], {}, Up)
  }

  /** DB::Open collects garbage and lets background work begin. */
  ghost function Open(s: State, otherWork: bool): State {
    MaybeSchedule(Collect(UpOf(s.disk, otherWork, s.hist, s.floor)))
  }

  // ----- what holds while the database is not open -----

  ghost predicate Blank(s: State) {
    && s.snapshots == [] && s.readers == map[] && s.groups == [] && s.phase.Waiting? && s.bg.Idle? && s.lost == {}
  }

  ghost predicate Built(disk: Disk, chunks: seq<Chunk>) {
    OnDisk(disk.tables, AddChunks(disk.manifest.version, chunks))
  }

  ghost predicate BootInv(s: State) {
    match s.boot
    case Up => Inv(s)
    case Down => Blank(s) && Sound(s.disk, s.hist, s.floor)
    case Replaying(chunks) =>
      && Blank(s) && Sound(s.disk, s.hist, s.floor) && Built(s.disk, chunks)
      && NumberedFrom(chunks, s.disk.manifest.nextFile + 1)
    case LogMade(chunks, newLog) =>
      && Blank(s) && Sound(s.disk, s.hist, s.floor) && Built(s.disk, chunks) && Replays(s.disk, chunks, newLog)
      && newLog in s.disk.logs && s.disk.logs[newLog] == [] && forall n :: n in s.disk.logs ==> n <= newLog
    case Written => Blank(s) && Core(UpOf(s.disk, false, s.hist, s.floor))
  }

  // ----- splitting the replay -----

  function End(records: seq<Record>, lo: nat): int {
    if records == [] then lo else records[|records| - 1].base + |records[|records| - 1].ops| - 1
  }

  /** Splitting an ascending run of records splits the range of sequence numbers. */
  lemma AscendsSplit(a: seq<Record>, b: seq<Record>, lo: nat, top: nat)
    requires Ascends(a + b, lo, top)
    ensures lo <= End(a, lo) && (lo <= top ==> End(a, lo) <= top)
    ensures Ascends(a, lo, End(a, lo)) && Ascends(b, End(a, lo), top)
  {
    var ab := a + b;
    forall i | 0 <= i < |a| ensures ab[i] == a[i] {}
    forall i | 0 <= i < |b| ensures ab[|a| + i] == b[i] {}
  }

  /** The recovered LastSequence is a bound for every replayed entry. */
  lemma {:induction false} MaxSequenceBounds(records: seq<Record>)
    ensures forall e :: e in RecordEntries(records) ==> e.seqno <= MaxSequence(records)
  {
    if records != [] {
      var last := |records| - 1;
      var r := records[last];
      MaxSequenceBounds(records[..last]);
      assert records == records[..last] + [r];
      RecordEntriesAppend(records[..last], r);
      EntriesAtRange(r.base, r.ops);
    }
  }

  // ----- the rebuilt version -----

  lemma AddChunkKeepsOrder(v: Version, c: Chunk, lo: nat, hi: nat)
    requires VersionOrdered(v) && NumbersBelow(v, c.number) && BelowAll(v, lo) && Ascends(c.records, lo, hi) && lo <= hi
    ensures var v' := AddChunk(v, c);
      && VersionOrdered(v') && NumbersBelow(v', c.number + 1) && BelowAll(v', hi)
      && Contents(v') == Contents(v) + RecordEntries(c.records)
  {
    var E := RecordEntries(c.records);
    RecordsAreUnique(c.records, lo, hi);
    if E != {} {
      FlushKeepsOrder(v, c.number, 0, E);
      FlushContents(v, c.number, 0, E);
    } else {
      assert Contents(v) == Contents(v) + E;
    }
  }

  lemma NumberedFront(chunks: seq<Chunk>, lo: nat, hi: nat)
    requires Numbered(chunks, lo, hi) && chunks != []
    ensures lo <= chunks[|chunks| - 1].number < hi
    ensures Numbered(chunks[..|chunks| - 1], lo, chunks[|chunks| - 1].number)
  {
  }

  /** Level-0 tables made from ascending records, numbered in the same order, keep the per-key
      order of the layers. */
  lemma {:induction false} AddChunksKeepsOrder(v: Version, chunks: seq<Chunk>, lo: nat, top: nat, bound: nat, hi: nat)
    requires VersionOrdered(v) && BelowAll(v, lo) && lo <= top && Ascends(Records(chunks), lo, top)
    requires NumbersBelow(v, bound) && Numbered(chunks, bound, hi) && bound <= hi
    ensures VersionOrdered(AddChunks(v, chunks)) && NumbersBelow(AddChunks(v, chunks), hi)
    ensures BelowAll(AddChunks(v, chunks), top)
    ensures Contents(AddChunks(v, chunks)) == Contents(v) + RecordEntries(Records(chunks))
    decreases |chunks|
  {
    hide Ascends, VersionOrdered, Numbered, RecordEntries;
    if chunks == [] {
      NoEntries();
    } else {
      var c, front := chunks[|chunks| - 1], chunks[..|chunks| - 1];
      var mid := End(Records(front), lo);
      NumberedFront(chunks, bound, hi);
      AscendsSplit(Records(front), c.records, lo, top);
      AddChunksKeepsOrder(v, front, lo, mid, bound, c.number);
      AddChunkKeepsOrder(AddChunks(v, front), c, mid, top);
      RecordEntriesConcat(Records(front), c.records);
    }
  }

  // ----- each step -----

  lemma CoreIsUp(disk: Disk, otherWork: bool, hist: set<Entry>, floor: nat)
    requires Core(UpOf(disk, false, hist, floor))
    ensures Core(UpOf(disk, otherWork, hist, floor))
  {
    hide Core;
    CoreFrame(UpOf(disk, false, hist, floor), UpOf(disk, otherWork, hist, floor));
  }

  /** In every state, open or not, the disk suffices for what was published and logged. */
  lemma BootIsSound(s: State)
    requires BootInv(s)
    ensures Sound(s.disk, s.hist + Unapplied(s), PersistedFloor(s))
  {
    hide Core, Sound, Replays, Built;
    if s.boot.Up? {
      CrashIsSound(s);
    } else {
      assert Unapplied(s) == {} && PersistedFloor(s) == s.floor && s.hist + {} == s.hist;
      if s.boot.Written? {
        var u := UpOf(s.disk, false, s.hist, s.floor);
        CrashIsSound(u);
        assert Unapplied(u) == {};
      }
    }
  }

  lemma CrashKeeps(s: State, left: Disk)
    requires BootInv(s) && Spares(s.disk, left)
    ensures BootInv(Crash(s, left))
  {
    hide BootInv, Sound, Spares, Off;
    BootIsSound(s);
    SparesKeepsSound(s.disk, left, s.hist + Unapplied(s), PersistedFloor(s));
    OffKeeps(left, s.hist + Unapplied(s), PersistedFloor(s));
  }

  lemma OffKeeps(disk: Disk, hist: set<Entry>, floor: nat)
    requires Sound(disk, hist, floor)
    ensures BootInv(Off(disk, hist, floor))
  {
    hide Sound;
  }

  lemma BeginReplayKeeps(s: State)
    requires BootInv(s) && s.boot.Down?
    ensures BootInv(BeginReplay(s))
  {
    hide Sound, OnDisk;
    SoundFacts(s.disk, s.hist, s.floor);
    assert AddChunks(s.disk.manifest.version, []) == s.disk.manifest.version;
  }

  /** A table at a number the MANIFEST does not know leaves its tables alone. */
  lemma OrphanIsSpared(disk: Disk, hist: set<Entry>, floor: nat, n: nat, E: set<Entry>)
    requires Sound(disk, hist, floor) && n >= disk.manifest.nextFile
    ensures Spares(disk, disk.(tables := disk.tables[n := E]))
  {
    hide StandsFor, LogsAscend, VersionOrdered, OnDisk;
    var lo: nat, top: nat :| SoundAt(disk, hist, floor, lo, top);
  }

  lemma SoundFacts(disk: Disk, hist: set<Entry>, floor: nat)
    requires Sound(disk, hist, floor)
    ensures NumbersBelow(disk.manifest.version, disk.manifest.nextFile) && disk.manifest.log < disk.manifest.nextFile
    ensures OnDisk(disk.tables, disk.manifest.version)
  {
  }

  lemma BuildChunkKeeps(s: State, c: Chunk)
    requires BootInv(s) && CanBuildChunk(s, c)
    ensures BootInv(BuildChunk(s, c))
  {
    hide Sound, OnDisk, Spares, Records, NumberedFrom, Numbered, NumbersBelow, RecordEntries, RecordsFrom;
    var chunks, v, lo := s.boot.chunks, s.disk.manifest.version, s.disk.manifest.nextFile + 1;
    var t, E := BuildChunk(s, c), RecordEntries(c.records);
    assert (chunks + [c])[..|chunks|] == chunks;
    LastNumber(chunks, c, lo);
    if E != {} {
      OrphanIsSpared(s.disk, s.hist, s.floor, c.number, E);
      SparesKeepsSound(s.disk, t.disk, s.hist, s.floor);
      OnDiskAdded(s.disk.tables, AddChunks(v, chunks), c.number, 0, E);
    }
  }

  lemma LastNumber(chunks: seq<Chunk>, c: Chunk, lo: nat)
    requires NumberedFrom(chunks + [c], lo)
    ensures c.number >= lo
  {
    assert (chunks + [c])[|chunks|] == c;
  }

  lemma MakeLogKeeps(s: State, newLog: nat)
    requires BootInv(s) && CanMakeLog(s, newLog)
    ensures BootInv(MakeLog(s, newLog))
  {
    hide Sound, AddChunks, Records, Numbered, OnDisk;
    var t := MakeLog(s, newLog);
    assert Spares(s.disk, t.disk);
    SparesKeepsSound(s.disk, t.disk, s.hist, s.floor);
    SameRecords(s.disk.logs, t.disk.logs, s.disk.manifest.log, newLog);
  }

  // ----- the commit -----

  /** What the rebuilt version contains. */
  lemma RebuiltVersion(disk: Disk, hist: set<Entry>, floor: nat, lo: nat, top: nat, chunks: seq<Chunk>, newLog: nat)
    requires SoundAt(disk, hist, floor, lo, top) && Replays(disk, chunks, newLog)
    requires newLog in disk.logs && disk.logs[newLog] == [] && forall n :: n in disk.logs ==> n <= newLog
    ensures Ascends(Records(chunks), lo, top)
    ensures var v := AddChunks(disk.manifest.version, chunks);
      && VersionOrdered(v) && NumbersBelow(v, newLog) && Contents(v) == Stored(disk)
      && forall e :: e in Contents(v) ==> e.seqno <= LastSequence(disk, chunks)
  {
    hide Ascends, StandsFor, VersionOrdered, OnDisk, RecordEntries, Numbered, Tabled, Logged;
    var m := disk.manifest;
    RangeSnoc(disk.logs, m.log, newLog);
    assert Records(chunks) + [] == Records(chunks);
    assert PastLogs(disk.logs, m.log, newLog + 1);
    RecordsAreLogged(disk.logs, m.log, newLog + 1);
    AddChunksKeepsOrder(m.version, chunks, lo, top, m.nextFile + 1, newLog);
    TablesHold(disk);
    MaxSequenceBounds(Records(chunks));
  }

  lemma ReopenedView(t: State, E: set<Entry>)
    requires t.memtables == map[0 := {}] && t.mem == 0 && t.imm == None && !t.hasImm && t.phase.Waiting?
    requires VersionOrdered(t.version) && Contents(t.version) == E && t.cutImm == t.cutMem == t.lastSeq
    requires (forall e :: e in E ==> e.seqno <= t.lastSeq) && t.floor <= t.lastSeq
    requires exists lo: nat :: lo <= t.lastSeq && StandsFor(E, t.hist, t.floor, lo)
    ensures ViewInv(t)
  {
    hide VersionOrdered;
    assert Current(t).mem == {} && Current(t).imm == {} && All(Current(t)) == E;
    assert Cover(E, t.hist, t.floor, t.lastSeq);
  }

  lemma ReopenedDisk(t: State)
    requires t.bg.Idle? && t.readers == map[]
    requires t.disk.manifest == Manifest(t.version, t.versLog, t.lastSeq, t.nextFile) && t.versLog < t.nextFile
    requires OnDisk(t.disk.tables, t.version) && NumbersBelow(t.version, t.nextFile)
    requires t.floor <= t.lastSeq && t.cutImm <= t.lastSeq
    ensures DiskInv(t)
  {
    assert ReaderFiles(t.readers) == {};
  }

  lemma ReopenedRest(disk: Disk, hist: set<Entry>, floor: nat)
    requires ViewInv(UpOf(disk, false, hist, floor))
    requires disk.manifest.log in disk.logs && disk.logs[disk.manifest.log] == []
    requires disk.manifest.nextFile == disk.manifest.log + 1 && forall n :: n in disk.logs ==> n <= disk.manifest.log
    ensures var t := UpOf(disk, false, hist, floor);
      ReadersOK(t) && JobInv(t) && LogInv(t) && QueueInv(t)
  {
    var t := UpOf(disk, false, hist, floor);
    HistoryUnique(t);
    CutsAscend(t);
    hide ViewInv;
    NoEntries();
    assert Current(t).mem == {};
    assert Applied([]) == {};
    assert t.hist == t.histAtOpen + Applied(t.groups);
  }

  /** With the edit on the MANIFEST, the engine it describes is a good one. */
  lemma CommitOpenKeeps(s: State)
    requires BootInv(s) && s.boot.LogMade?
    ensures BootInv(CommitOpen(s))
  {
    hide StandsFor, LogsAscend, VersionOrdered, OnDisk, Ascends, AddChunks, Records, Stored, MaxSequence, ViewInv,
         ReadersOK, JobInv, DiskInv, LogInv, QueueInv, Numbered, RecordsFrom;
    var t, chunks, newLog := CommitOpen(s), s.boot.chunks, s.boot.newLog;
    var lo: nat, top: nat :| SoundAt(s.disk, s.hist, s.floor, lo, top);
    RebuiltVersion(s.disk, s.hist, s.floor, lo, top, chunks, newLog);
    var u := UpOf(t.disk, false, t.hist, t.floor);
    ReopenedView(u, Stored(s.disk));
    ReopenedDisk(u);
    ReopenedRest(t.disk, t.hist, t.floor);
  }

  lemma UpIsIdle(disk: Disk, otherWork: bool, hist: set<Entry>, floor: nat)
    ensures UpOf(disk, otherWork, hist, floor).bg.Idle?
  {
  }

  lemma HousekeepingIsUp(s: State)
    ensures MaybeSchedule(s).boot == s.boot && Collect(s).boot == s.boot
  {
    hide HasWork, Live;
  }

  lemma OpenKeeps(s: State, otherWork: bool)
    requires BootInv(s) && s.boot.Written?
    ensures BootInv(Open(s, otherWork)) && Open(s, otherWork).boot.Up?
  {
    CoreIsUp(s.disk, otherWork, s.hist, s.floor);
    UpIsIdle(s.disk, otherWork, s.hist, s.floor);
    var u := UpOf(s.disk, otherWork, s.hist, s.floor);
    assert u.boot.Up?;
    hide Core, UpOf, Collect, MaybeSchedule, Inv;
    CollectKeeps(u);
    ScheduleKeeps(Collect(u));
    HousekeepingIsUp(u);
    HousekeepingIsUp(Collect(u));
  }

  // ----- recovery can always go on -----

  /** The logs can always be replayed, for example into a single table. */
  lemma ReplayExists(disk: Disk, hist: set<Entry>, floor: nat, bound: nat) returns (c: Chunk, newLog: nat)
    requires Sound(disk, hist, floor) && forall n :: n in disk.logs ==> n < bound
    ensures CanReplay(disk, [c], newLog)
  {
    hide Sound;
    newLog := bound + disk.manifest.nextFile + 2;
    var records := RecordsFrom(disk.logs, disk.manifest.log, newLog);
    c := Chunk(disk.manifest.nextFile + 1, records);
    assert [c][..0] == [] && Records([]) == [] && Records([c]) == [] + records == records;
  }
}
