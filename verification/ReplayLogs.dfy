/** Recover and RecoverLogFile: finding the logs that are still needed and replaying them in
    order into level-0 tables.  What they produce is a replay in the sense of Recovery. */
module ReplayLogs {
  import opened Options
  import opened Entries
  import opened Engine
  import opened FileName
  import opened Versions
  import opened Invariant
  import opened Durability
  import opened Recovery
  import opened Actions
  import opened Runs
  import opened Opening
  import opened ObsoleteFiles

  // ----- helpers on the specification -----

  function Max(a: nat, b: nat): nat {
    if a < b then b else a
  }

  lemma RecordsAppend(chunks: seq<Chunk>, c: Chunk)
    ensures Records(chunks + [c]) == Records(chunks) + c.records
  {
    assert (chunks + [c])[..|chunks|] == chunks;
  }

  lemma {:induction false} MaxSequenceConcat(a: seq<Record>, b: seq<Record>)
    ensures MaxSequence(a + b) == Max(MaxSequence(a), MaxSequence(b))
    decreases |b|
  {
    if b == [] {
      assert a + b == a;
    } else {
      var last := |b| - 1;
      MaxSequenceConcat(a, b[..last]);
      assert (a + b)[..|a + b| - 1] == a + b[..last];
    }
  }

  lemma MaxSequenceAppend(a: seq<Record>, r: Record)
    ensures MaxSequence(a + [r]) ==
            if r.base + |r.ops| - 1 > MaxSequence(a) then r.base + |r.ops| - 1 else MaxSequence(a)
  {
    assert (a + [r])[..|a + [r]| - 1] == a;
  }

  ghost predicate Ascending(ns: seq<nat>) {
    forall i, j :: 0 <= i < j < |ns| ==> ns[i] < ns[j]
  }

  function LogAt(logs: map<nat, seq<Record>>, n: nat): seq<Record> {
    if n in logs then logs[n] else []
  }

  /** The records of the listed logs, one log after the other.  A log that cannot be opened counts
      as empty. */
  function Listed(logs: map<nat, seq<Record>>, ns: seq<nat>): seq<Record> {
    if ns == [] then [] else Listed(logs, ns[..|ns| - 1]) + LogAt(logs, ns[|ns| - 1])
  }

  lemma ButLast(ns: seq<nat>, front: seq<nat>)
    requires Ascending(ns) && ns != [] && front == ns[..|ns| - 1]
    ensures Ascending(front) && forall n :: n in ns ==> n <= ns[|ns| - 1]
    ensures forall n :: n in front <==> n in ns && n != ns[|ns| - 1]
  {
    var last := |ns| - 1;
    assert ns == front + [ns[last]];
    forall n | n in front ensures n != ns[last] {
      var i :| 0 <= i < last && front[i] == n;
      assert ns[i] < ns[last];
    }
  }

  lemma FrontIsRange(logs: map<nat, seq<Record>>, ns: seq<nat>, front: seq<nat>, lo: nat, last: nat)
    requires Ascending(ns) && ns != [] && front == ns[..|ns| - 1] && ns[|ns| - 1] == last
    requires forall n :: n in ns <==> n in logs && lo <= n <= last
    ensures Ascending(front)
    ensures forall n :: n in front <==> n in logs && lo <= n < last
  {
    ButLast(ns, front);
  }

  /** Going through an ascending list of exactly the logs in a range is going through the range. */
  lemma {:induction false} ListedIsRange(logs: map<nat, seq<Record>>, ns: seq<nat>, lo: nat, hi: nat)
    requires Ascending(ns) && lo <= hi
    requires forall n :: n in ns <==> n in logs && lo <= n < hi
    ensures Listed(logs, ns) == RecordsFrom(logs, lo, hi)
    decreases hi - lo
  {
    if ns == [] {
      NoRecords(logs, lo, hi);
    } else {
      hide Ascending, RecordsFrom;
      var last, front := ns[|ns| - 1], ns[..|ns| - 1];
      ButLast(ns, front);
      assert last in ns;
      RangeSnoc(logs, lo, hi - 1);
      if last == hi - 1 {
        assert forall n :: n in ns <==> n in logs && lo <= n <= last;
        FrontIsRange(logs, ns, front, lo, last);
        ListedIsRange(logs, front, lo, last);
      } else {
        assert hi - 1 !in ns;
        assert forall n :: n in ns <==> n in logs && lo <= n < hi - 1;
        ListedIsRange(logs, ns, lo, hi - 1);
      }
    }
  }

  // ----- the recovering database -----

  function Held(mem: Option<seq<Record>>): seq<Record> {
    if mem.Some? then mem.value else []
  }

  lemma MaxSequenceOfNone()
    ensures MaxSequence([]) == 0
  {
  }

  lemma RoomToNumber(chunks: seq<Chunk>, lo: nat, hi: nat, more: nat)
    requires Numbered(chunks, lo, hi) && hi <= more
    ensures Numbered(chunks, lo, more)
  {
  }

  lemma NothingListed(logs: map<nat, seq<Record>>, ns: seq<nat>)
    ensures Listed(logs, ns[..0]) == [] && MaxSequence([]) == 0 && Records([]) == []
    ensures forall lo: nat, hi: nat :: Numbered([], lo, hi)
  {
  }

  lemma ListedOneMore(logs: map<nat, seq<Record>>, ns: seq<nat>, i: nat)
    requires i < |ns|
    ensures Listed(logs, ns[..i + 1]) == Listed(logs, ns[..i]) + LogAt(logs, ns[i])
  {
    assert ns[..i + 1][..i] == ns[..i];
  }

  class Opener {
    var nextFile: nat                      // the VersionSet's file number counter
    var lastSequence: nat
    var chunks: seq<Chunk>                 // the tables the edit adds so far
    var saveManifest: bool
    const usage: seq<Record> -> nat        // ApproximateMemoryUsage of a memtable
    const writeBufferSize: nat
    const builds: nat -> bool              // whether building the table of this number succeeds
    const paranoid: bool                   // whether a log that cannot be opened is an error

    constructor (nextFile: nat, lastSequence: nat, usage: seq<Record> -> nat, writeBufferSize: nat, builds: nat -> bool,
                 paranoid: bool)
      ensures this.nextFile == nextFile && this.lastSequence == lastSequence && chunks == [] && !saveManifest
      ensures this.usage == usage && this.writeBufferSize == writeBufferSize && this.builds == builds
      ensures this.paranoid == paranoid
    {
      this.nextFile, this.lastSequence, this.chunks, this.saveManifest := nextFile, lastSequence, [], false;
      this.usage, this.writeBufferSize, this.builds, this.paranoid := usage, writeBufferSize, builds, paranoid;
    }

    ghost predicate Full(mem: seq<Record>) {
      usage(mem) > writeBufferSize
    }

    /** A memtable that was not full before its last record. */
    ghost predicate NotOverfull(mem: seq<Record>) {
      mem != [] && forall m :: 0 < m < |mem| ==> !Full(mem[..m])
    }

    /** The tables from `n` on hold memtables that had become full, the last one excepted. */
    ghost predicate FlushedWhenFull(cs: seq<Chunk>, n: nat) {
      && (forall c :: n <= c < |cs| ==> NotOverfull(cs[c].records))
      && forall c :: n <= c < |cs| - 1 ==> Full(cs[c].records)
    }

    ghost predicate AllFull(cs: seq<Chunk>, n: nat) {
      forall c :: n <= c < |cs| ==> NotOverfull(cs[c].records) && Full(cs[c].records)
    }

    lemma NothingNew(cs: seq<Chunk>)
      ensures AllFull(cs, |cs|)
    {
    }

    lemma MemGrows(mem: seq<Record>, r: Record)
      requires mem == [] || (NotOverfull(mem) && !Full(mem))
      ensures NotOverfull(mem + [r])
    {
      forall m | 0 < m <= |mem| ensures !Full((mem + [r])[..m]) {
        assert (mem + [r])[..m] == if m < |mem| then mem[..m] else mem;
      }
    }

    lemma MoreChunks(before: seq<Chunk>, cs: seq<Chunk>, c: Chunk)
      requires before <= cs && AllFull(cs, |before|)
      ensures FlushedWhenFull(cs, |before|) && before <= cs + [c]
      ensures NotOverfull(c.records) ==> FlushedWhenFull(cs + [c], |before|)
      ensures NotOverfull(c.records) && Full(c.records) ==> AllFull(cs + [c], |before|)
    {
    }

    method WriteLevel0Table(mem: seq<Record>, ghost lo: nat) returns (ok: bool)
      requires Numbered(chunks, lo, nextFile) && lo <= nextFile
      modifies this`nextFile, this`chunks
      ensures nextFile == old(nextFile) + 1 && ok == builds(old(nextFile))
      ensures chunks == if ok then old(chunks) + [Chunk(old(nextFile), mem)] else old(chunks)
      ensures Numbered(chunks, lo, nextFile)
      ensures ok ==> Records(chunks) == old(Records(chunks)) + mem
    {
      var number := nextFile;
      nextFile := nextFile + 1;
      ok := builds(number);
      if ok {
        RecordsAppend(chunks, Chunk(number, mem));
        chunks := chunks + [Chunk(number, mem)];
      }
    }

    /** Replays one log.  Every record of it ends up in exactly one table, in order, and a table is
        written exactly when the memtable has outgrown the write buffer or the log has ended. */
    method RecoverLogFile(log: seq<Record>, max: nat, ghost lo: nat) returns (ok: bool, max': nat)
      requires Numbered(chunks, lo, nextFile) && lo <= nextFile
      modifies this`nextFile, this`chunks, this`saveManifest
      ensures old(nextFile) <= nextFile && Numbered(chunks, lo, nextFile)
      ensures ok ==> Records(chunks) == old(Records(chunks)) + log
      ensures old(chunks) <= chunks && (ok ==> FlushedWhenFull(chunks, |old(chunks)|))
      ensures ok ==> max' == Max(max, MaxSequence(log)) && saveManifest == (old(saveManifest) || log != [])
      ensures !ok ==> exists number :: old(nextFile) <= number < nextFile && !builds(number)
    {
      hide Numbered, Records, MaxSequence, NotOverfull, AllFull, FlushedWhenFull;
      var mem: Option<seq<Record>> := None;
      ok, max' := true, max;
      ghost var before := Records(chunks);
      assert log[..0] == [] && MaxSequence([]) == 0 by {
        MaxSequenceOfNone();
      }
      NothingNew(chunks);
      for i := 0 to |log|
        invariant ok && old(nextFile) <= nextFile && Numbered(chunks, lo, nextFile)
        invariant Records(chunks) + Held(mem) == before + log[..i]
        invariant max' == Max(max, MaxSequence(log[..i]))
        invariant old(chunks) <= chunks && AllFull(chunks, |old(chunks)|)
        invariant mem.Some? ==> NotOverfull(mem.value) && !Full(mem.value)
        invariant mem.None? && i > 0 ==> saveManifest
        invariant old(saveManifest) ==> saveManifest
        invariant i == 0 ==> saveManifest == old(saveManifest)
        invariant mem.Some? ==> i > 0
      {
        var record := log[i];
        assert log[..i + 1] == log[..i] + [record];
        MaxSequenceAppend(log[..i], record);
        if mem.None? {
          mem := Some([]);
        }
        assert Records(chunks) + (mem.value + [record]) == (Records(chunks) + mem.value) + [record];
        assert (before + log[..i]) + [record] == before + log[..i + 1];
        MemGrows(mem.value, record);
        mem := Some(mem.value + [record]);
        MoreChunks(old(chunks), chunks, Chunk(nextFile, mem.value));
        if record.base + |record.ops| - 1 > max' {
          max' := record.base + |record.ops| - 1;
        }
        if usage(mem.value) > writeBufferSize {
          saveManifest := true;
          ok := WriteLevel0Table(mem.value, lo);
          mem := None;
          if !ok {
            return;
          }
        }
      }
      assert log[..|log|] == log;
      MoreChunks(old(chunks), chunks, Chunk(nextFile, Held(mem)));
      if mem.Some? {
        saveManifest := true;
        ok := WriteLevel0Table(mem.value, lo);
      }
    }

    method MarkFileNumberUsed(number: nat)
      modifies this`nextFile
      ensures nextFile == Max(old(nextFile), number + 1)
    {
      if nextFile <= number {
        nextFile := number + 1;
      }
    }

    /** Replays the listed logs, oldest first. */
    method ReplayAll(logs: map<nat, seq<Record>>, ns: seq<nat>, ghost lo: nat) returns (ok: bool)
      requires chunks == [] && lo <= nextFile
      modifies this
      ensures lo <= nextFile && Numbered(chunks, lo, nextFile)
      ensures ok ==> Records(chunks) == Listed(logs, ns)
      ensures ok ==> lastSequence == Max(old(lastSequence), MaxSequence(Listed(logs, ns)))
      ensures ok ==> forall n :: n in ns ==> n < nextFile
      ensures ok && paranoid ==> forall n :: n in ns ==> n in logs
      ensures !ok ==> (exists number :: !builds(number)) || (paranoid && exists n :: n in ns && n !in logs)
    {
      hide Numbered, Listed, Records, MaxSequence;
      var max := 0;
      ok := true;
      NothingListed(logs, ns);
      for i := 0 to |ns|
        invariant ok && lo <= nextFile && Numbered(chunks, lo, nextFile)
        invariant Records(chunks) == Listed(logs, ns[..i]) && max == MaxSequence(Listed(logs, ns[..i]))
        invariant lastSequence == old(lastSequence)
        invariant forall j :: 0 <= j < i ==> ns[j] < nextFile && (paranoid ==> ns[j] in logs)
      {
        ListedOneMore(logs, ns, i);
        MaxSequenceConcat(Listed(logs, ns[..i]), LogAt(logs, ns[i]));
        if ns[i] in logs {
          ok, max := RecoverLogFile(logs[ns[i]], max, lo);
        } else if paranoid {
          ok := false;
        } else {
          MaxSequenceOfNone();
        }
        if !ok {
          return;
        }
        ghost var before := nextFile;
        MarkFileNumberUsed(ns[i]);
        RoomToNumber(chunks, lo, before, nextFile);
      }
      assert ns[..|ns|] == ns;
      if lastSequence < max {
        lastSequence := max;
      }
    }
  }

  // ----- finding the logs -----

  /** Some file of the database carries this number; of what type does not matter. */
  ghost predicate Present(children: seq<string>, number: nat) {
    exists name: string, t: FileType :: name in children && Names(name, number, t)
  }

  ghost predicate HasLogName(children: seq<string>, number: nat) {
    exists name: string :: name in children && Names(name, number, LogFile)
  }

  /** No log is listed under two names (such as 000005.log and 5.log). */
  ghost predicate OneNameEach(children: seq<string>) {
    forall i, j, n: nat ::
      (0 <= i < |children| && 0 <= j < |children| && Names(children[i], n, LogFile) && Names(children[j], n, LogFile))
      ==> i == j
  }

  lemma NotListedYet(children: seq<string>, i: nat, number: nat)
    requires i < |children| && Names(children[i], number, LogFile)
    ensures OneNameEach(children) ==> !HasLogName(children[..i], number)
  {
    hide Names;
    if HasLogName(children[..i], number) {
      var name :| name in children[..i] && Names(name, number, LogFile);
      var j :| 0 <= j < i && children[..i][j] == name;
      assert Names(children[j], number, LogFile);
    }
  }

  /** Live numbers that no file of the database carries. */
  ghost function MissingOf(children: seq<string>, live: set<nat>): set<nat> {
    set n | n in live && !Present(children, n)
  }

  ghost predicate ToReplay(children: seq<string>, minLog: nat, prevLog: nat, n: nat) {
    HasLogName(children, n) && (n >= minLog || n == prevLog)
  }

  /** Goes through the directory once: which live tables have no file, and which logs to replay. */
  method FindLogs(children: seq<string>, live: set<nat>, minLog: nat, prevLog: nat)
    returns (missing: set<nat>, logs: seq<nat>)
    ensures missing == MissingOf(children, live)
    ensures forall n: nat :: n in logs <==> ToReplay(children, minLog, prevLog, n)
    ensures OneNameEach(children) ==> forall i, j :: 0 <= i < j < |logs| ==> logs[i] != logs[j]
  {
    missing, logs := live, [];
    for i := 0 to |children|
      invariant forall n :: n in missing <==> n in live && !Present(children[..i], n)
      invariant forall n: nat :: n in logs <==> HasLogName(children[..i], n) && (n >= minLog || n == prevLog)
      invariant OneNameEach(children) ==> forall j, k :: 0 <= j < k < |logs| ==> logs[j] != logs[k]
    {
      var ok, number, t := ParseFileName(children[i]);
      if ok && t == LogFile {
        NotListedYet(children, i, number);
      }
      assert children[..i + 1] == children[..i] + [children[i]];
      OneMore(children[..i], children[i], ok, number, t);
      if ok {
        missing := missing - {number};
        if t == LogFile && (number >= minLog || number == prevLog) {
          logs := logs + [number];
        }
      }
    }
    assert children[..|children|] == children;
  }

  lemma OneMore(children: seq<string>, name: string, ok: bool, number: nat, t: FileType)
    requires ok ==> Names(name, number, t)
    requires !ok ==> forall n: nat, u: FileType :: !Names(name, n, u)
    ensures forall n :: Present(children + [name], n) <==> Present(children, n) || (ok && n == number)
    ensures forall n :: HasLogName(children + [name], n) <==>
                        HasLogName(children, n) || (ok && n == number && t == LogFile)
  {
    hide Names;
    var more := children + [name];
    assert name in more && forall c :: c in more <==> c in children || c == name;
    forall n: nat, u: FileType | Names(name, n, u) ensures ok && n == number && u == t {
      NameIsUnambiguous(name, number, t, n, u);
    }
    forall n ensures Present(more, n) <==> Present(children, n) || (ok && n == number) {
      if Present(children, n) {
        var c: string, u: FileType :| c in children && Names(c, n, u);
        assert c in more;
      }
    }
    forall n ensures HasLogName(more, n) <==> HasLogName(children, n) || (ok && n == number && t == LogFile) {
      if HasLogName(children, n) {
        var c: string :| c in children && Names(c, n, LogFile);
        assert c in more;
      }
    }
  }

  ghost predicate HasTableName(children: seq<string>, number: nat) {
    exists name: string :: name in children && Names(name, number, TableFile)
  }

  /** The scan looks at numbers only: here the table is absent, and no file is reported missing,
      since a log stands in for it. */
  lemma WrongTypeStandsIn()
    ensures MissingOf(["000005.log"], {5}) == {} && !HasTableName(["000005.log"], 5)
  {
    var name := "000005.log";
    assert name[..6] == "000005" && name[6..] == ".log";
    ValueOfFive();
    assert Splits(name, 6, 5, ".log");
    assert IsNumbered(name, 5, ".log") && Names(name, 5, LogFile);
    assert name in ["000005.log"];
    if Names(name, 5, TableFile) {
      NameIsUnambiguous(name, 5, LogFile, 5, TableFile);
    }
  }

  /** The scan finds exactly the tables that are absent if and only if no file of another type
      carries the number of an absent one. */
  lemma ScanIsExact(children: seq<string>, live: set<nat>)
    ensures MissingOf(children, live) == (set n | n in live && !HasTableName(children, n))
            <==> forall name: string, n, t: FileType ::
                   name in children && n in live && t != TableFile && Names(name, n, t) ==> HasTableName(children, n)
  {
    hide Names;
    forall n ensures HasTableName(children, n) ==> Present(children, n) {
    }
    if MissingOf(children, live) == (set n | n in live && !HasTableName(children, n)) {
      forall name: string, n, t: FileType | name in children && n in live && t != TableFile && Names(name, n, t)
        ensures HasTableName(children, n)
      {
        assert Present(children, n) && n !in MissingOf(children, live);
      }
    }
  }

  lemma ValueOfFive()
    ensures AllDigits("000005") && FileName.Value("000005") == 5
  {
    assert Decimal(5) == "5" && Padded(5) == Zeros(5) + "5" && Zeros(5) == "00000";
    assert Padded(5) == "000005";
    PaddedIsRight(5);
  }

  predicate NonDecreasing(ns: seq<nat>) {
    forall i, j :: 0 <= i < j < |ns| ==> ns[i] <= ns[j]
  }

  method InsertSorted(ns: seq<nat>, n: nat) returns (r: seq<nat>)
    requires NonDecreasing(ns)
    ensures NonDecreasing(r) && multiset(r) == multiset(ns) + multiset{n}
  {
    var p := |ns|;
    while p > 0 && ns[p - 1] > n
      invariant 0 <= p <= |ns|
      invariant forall k :: p <= k < |ns| ==> n < ns[k]
    {
      p := p - 1;
    }
    r := ns[..p] + [n] + ns[p..];
    InsertedCounts(ns, p, n);
    InsertedInOrder(ns, p, n);
  }

  lemma InsertedCounts(ns: seq<nat>, p: nat, n: nat)
    requires p <= |ns|
    ensures multiset(ns[..p] + [n] + ns[p..]) == multiset(ns) + multiset{n}
  {
    assert ns == ns[..p] + ns[p..];
  }

  lemma InsertedInOrder(ns: seq<nat>, p: nat, n: nat)
    requires p <= |ns| && NonDecreasing(ns)
    requires (p > 0 ==> ns[p - 1] <= n) && forall k :: p <= k < |ns| ==> n < ns[k]
    ensures NonDecreasing(ns[..p] + [n] + ns[p..])
  {
    var r := ns[..p] + [n] + ns[p..];
    assert forall k :: 0 <= k < p ==> r[k] == ns[k] <= n;
    assert forall k :: p < k < |r| ==> r[k] == ns[k - 1];
  }

  /** std::sort, which the logs go through before the replay. */
  method Sort(ns: seq<nat>) returns (sorted: seq<nat>)
    ensures multiset(sorted) == multiset(ns) && NonDecreasing(sorted)
  {
    sorted := [];
    for i := 0 to |ns|
      invariant multiset(sorted) == multiset(ns[..i]) && NonDecreasing(sorted)
    {
      assert ns[..i + 1] == ns[..i] + [ns[i]];
      sorted := InsertSorted(sorted, ns[i]);
    }
    assert ns[..|ns|] == ns;
  }

  /** The directory lists exactly the logs on disk, each under one name. */
  ghost predicate ListsLogs(children: seq<string>, disk: Disk) {
    && OneNameEach(children)
    && forall n :: HasLogName(children, n) <==> n in disk.logs
  }

  ghost predicate Replayable(children: seq<string>, disk: Disk, prevLog: nat) {
    ListsLogs(children, disk) && prevLog !in disk.logs && disk.manifest.log < disk.manifest.nextFile
  }

  lemma SortedIsAscending(ns: seq<nat>, sorted: seq<nat>)
    requires multiset(sorted) == multiset(ns) && NonDecreasing(sorted)
    requires forall i, j :: 0 <= i < j < |ns| ==> ns[i] != ns[j]
    ensures Ascending(sorted) && forall n :: n in sorted <==> n in ns
  {
    forall n ensures n in sorted <==> n in ns {
      assert n in multiset(sorted) <==> n in multiset(ns);
    }
    forall i, j | 0 <= i < j < |sorted| ensures sorted[i] != sorted[j] {
      if sorted[i] == sorted[j] {
        Twice(sorted, i, j);
        Once(ns, sorted[i]);
      }
    }
  }

  lemma Twice(ns: seq<nat>, i: nat, j: nat)
    requires i < j < |ns| && ns[i] == ns[j]
    ensures multiset(ns)[ns[i]] >= 2
  {
    assert ns == ns[..i] + [ns[i]] + ns[i + 1..j] + [ns[j]] + ns[j + 1..];
  }

  lemma {:induction false} Once(ns: seq<nat>, n: nat)
    requires forall i, j :: 0 <= i < j < |ns| ==> ns[i] != ns[j]
    ensures multiset(ns)[n] <= 1
  {
    if ns != [] {
      var last := |ns| - 1;
      Once(ns[..last], n);
      assert ns == ns[..last] + [ns[last]];
      if n == ns[last] {
        assert n !in ns[..last];
        assert n !in multiset(ns[..last]);
      }
    }
  }

  datatype Outcome = Recovered(newLog: nat) | MissingFiles(numbers: set<nat>) | BuildFailed | Unreadable

  /** Recover, and the allocation of the new log's number that follows it in DB::Open.  `ns` are
      the logs in the order in which they were replayed. */
  method Recover(opener: Opener, disk: Disk, children: seq<string>, live: set<nat>, prevLog: nat)
    returns (r: Outcome, ns: seq<nat>)
    requires opener.chunks == [] && !opener.saveManifest
    requires opener.nextFile == disk.manifest.nextFile + 1 && opener.lastSequence == disk.manifest.lastSeq
    modifies opener
    ensures r.MissingFiles? <==> MissingOf(children, live) != {}
    ensures r.MissingFiles? ==> r.numbers == MissingOf(children, live)
    ensures r.BuildFailed? ==> exists number :: !opener.builds(number)
    ensures r.Unreadable? ==>
      opener.paranoid && exists n :: ToReplay(children, disk.manifest.log, prevLog, n) && n !in disk.logs
    ensures !r.MissingFiles? ==>
      NonDecreasing(ns) && forall n :: n in ns <==> ToReplay(children, disk.manifest.log, prevLog, n)
    ensures r.Recovered? ==>
      && Records(opener.chunks) == Listed(disk.logs, ns)
      && opener.lastSequence == LastSequence(disk, opener.chunks)
      && Numbered(opener.chunks, disk.manifest.nextFile + 1, r.newLog)
      && (forall n :: n in ns ==> n < r.newLog) && opener.nextFile == r.newLog + 1
    // a directory that lists the logs once each is replayed as the state machine does it
    ensures r.Recovered? && Replayable(children, disk, prevLog) ==> CanReplay(disk, opener.chunks, r.newLog)
  {
    hide Names, CanReplay, MaxSequence, Numbered, Listed, Records, ToReplay;
    ns := [];
    var missing, logs := FindLogs(children, live, disk.manifest.log, prevLog);
    if missing != {} {
      return MissingFiles(missing), [];
    }
    ns := Sort(logs);
    SameNumbers(logs, ns);
    var ok := opener.ReplayAll(disk.logs, ns, disk.manifest.nextFile + 1);
    if !ok {
      r := if opener.paranoid && exists n :: n in ns && n !in disk.logs then Unreadable else BuildFailed;
      return;
    }
    var newLog := opener.nextFile;
    opener.nextFile := newLog + 1;
    r := Recovered(newLog);
    if Replayable(children, disk, prevLog) {
      SortedIsAscending(logs, ns);
      NeededLogs(children, disk, prevLog, ns);
      ReplayedIsReplay(disk, ns, opener.chunks, newLog);
    }
  }

  lemma SameNumbers(ns: seq<nat>, sorted: seq<nat>)
    requires multiset(sorted) == multiset(ns)
    ensures forall n :: n in sorted <==> n in ns
  {
    forall n ensures n in sorted <==> n in ns {
      assert n in multiset(sorted) <==> n in multiset(ns);
    }
  }

  lemma NeededLogs(children: seq<string>, disk: Disk, prevLog: nat, ns: seq<nat>)
    requires ListsLogs(children, disk) && prevLog !in disk.logs
    requires forall n :: n in ns <==> ToReplay(children, disk.manifest.log, prevLog, n)
    ensures forall n :: n in ns <==> n in disk.logs && disk.manifest.log <= n
  {
    hide HasLogName, OneNameEach;
    forall n: nat ensures n in ns <==> n in disk.logs && disk.manifest.log <= n {
      assert HasLogName(children, n) <==> n in disk.logs;
    }
  }

  lemma ReplayedIsReplay(disk: Disk, ns: seq<nat>, chunks: seq<Chunk>, newLog: nat)
    requires disk.manifest.log < disk.manifest.nextFile
    requires Ascending(ns) && forall n :: n in ns <==> n in disk.logs && disk.manifest.log <= n
    requires disk.manifest.nextFile + 1 <= newLog && Numbered(chunks, disk.manifest.nextFile + 1, newLog)
    requires forall n :: n in ns ==> n < newLog
    requires Records(chunks) == Listed(disk.logs, ns)
    ensures CanReplay(disk, chunks, newLog)
  {
    ListedIsRange(disk.logs, ns, disk.manifest.log, newLog);
  }

  // ----- the directory recovery finds -----

  /** A listing of a directory that shows the disk lists the logs once each, and nothing for the
      previous log number, which is 0 in every database this version writes. */
  lemma ShowsLists(children: seq<string>, db: string, disk: Disk)
    requires Shows((set c | c in children), db, disk)
    requires forall i, j :: 0 <= i < j < |children| ==> children[i] != children[j]
    ensures ListsLogs(children, disk) && 0 !in disk.logs
  {
    hide Names, Strip, Padded, HasTable;
    forall i, j, n: nat | 0 <= i < |children| && 0 <= j < |children| && Names(children[i], n, LogFile)
                          && Names(children[j], n, LogFile)
      ensures i == j
    {
      assert children[i] == Strip(db, LogFileName(db, n)) == children[j];
    }
    forall n: nat ensures HasLogName(children, n) <==> n in disk.logs {
      if HasLogName(children, n) {
        var name: string :| name in children && Names(name, n, LogFile);
        assert name in (set c | c in children);
        LogNumberFits(name, n);
      }
      if n in disk.logs {
        PrintedNamesParse(db, n);
        assert Strip(db, LogFileName(db, n)) in children;
      }
    }
  }

  lemma LogNumberFits(name: string, n: nat)
    requires Names(name, n, LogFile)
    ensures n <= MAX_UINT64
  {
  }

  lemma ShowsTables(children: seq<string>, db: string, disk: Disk, live: set<nat>)
    requires Shows((set c | c in children), db, disk) && forall n :: n in live ==> n in disk.tables
    ensures MissingOf(children, live) == {}
  {
    hide Names, Strip, Padded, HasLog;
    forall n | n in live ensures Present(children, n) {
      assert HasTable((set c | c in children), db, n);
      PrintedNamesParse(db, n);
      assert Names(Strip(db, TableFileName(db, n)), n, TableFile);
      assert Names(Strip(db, SSTTableFileName(db, n)), n, TableFile);
    }
  }

  /** Whenever the process dies, recovery finds every table of the MANIFEST, and replays the logs
      as the state machine does. */
  lemma RecoveryFindsItsFiles(states: seq<State>, actions: seq<Action>, i: nat, children: seq<string>, db: string)
    requires IsRun(states, actions) && i < |states|
    requires Shows((set c | c in children), db, states[i].disk)
    requires forall j, k :: 0 <= j < k < |children| ==> children[j] != children[k]
    ensures Replayable(children, states[i].disk, 0)
    ensures MissingOf(children, states[i].disk.manifest.version.Keys) == {}
  {
    hide IsRun, BootInv, Sound, Shows, ListsLogs, MissingOf, Unapplied, PersistedFloor;
    var s := states[i];
    RunKeeps(states, actions, i);
    BootIsSound(s);
    SoundFacts(s.disk, s.hist + Unapplied(s), PersistedFloor(s));
    ShowsLists(children, db, s.disk);
    ShowsTables(children, db, s.disk, s.disk.manifest.version.Keys);
  }

  // ----- the whole of DB::Open -----

  lemma RunFindsItsFiles(states: seq<State>, actions: seq<Action>, s: State, children: seq<string>, db: string)
    requires LeadsTo(states, actions, s) && Shows((set c | c in children), db, s.disk)
    requires forall j, k :: 0 <= j < k < |children| ==> children[j] != children[k]
    ensures Replayable(children, s.disk, 0) && MissingOf(children, s.disk.manifest.version.Keys) == {}
    ensures forall n :: ToReplay(children, s.disk.manifest.log, 0, n) ==> n in s.disk.logs
  {
    hide IsNew, Step, Shows, MissingOf, HasLogName;
    RecoveryFindsItsFiles(states, actions, |actions|, children, db);
  }

  /** Recovery of a database that died in any run, from a directory that shows its disk: unless a
      table cannot be built, the loops end with an open database, and what they did is what the
      state machine does: one DoBuildChunk for each table, DoMakeLog, DoCommitOpen and DoOpen. */
  method OpenDatabase(opener: Opener, disk: Disk, children: seq<string>, otherWork: bool, ghost db: string,
                      ghost states: seq<State>, ghost actions: seq<Action>, ghost s: State)
    returns (r: Outcome, ghost states': seq<State>, ghost t: State)
    requires LeadsTo(states, actions, s) && s.boot == Replaying([]) && s.disk == disk
    requires Shows((set c | c in children), db, disk)
    requires forall j, k :: 0 <= j < k < |children| ==> children[j] != children[k]
    requires opener.chunks == [] && !opener.saveManifest
    requires opener.nextFile == disk.manifest.nextFile + 1 && opener.lastSequence == disk.manifest.lastSeq
    modifies opener
    ensures r.Recovered? || (r.BuildFailed? && exists number :: !opener.builds(number))
    ensures r.Recovered? ==>
      && LeadsTo(states', actions + Reopening(opener.chunks, r.newLog, otherWork), t) && states <= states'
      && OpenedFrom(s, opener.chunks, r.newLog, t)
      && t.lastSeq == opener.lastSequence && t.nextFile == opener.nextFile
  {
    hide LeadsTo, Shows, CanReplay, Replayable, MissingOf, ToReplay, Numbered, Records, Listed, LastSequence, AddChunks,
         Reopening;
    RunFindsItsFiles(states, actions, s, children, db);
    var ns;
    r, ns := Recover(opener, disk, children, disk.manifest.version.Keys, 0);
    states', t := states, s;
    if r.Recovered? {
      states', t := ReplayOpens(states, actions, s, opener.chunks, r.newLog, otherWork);
    }
  }
}
