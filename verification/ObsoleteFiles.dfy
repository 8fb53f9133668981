/** DeleteObsoleteFiles, name by name: which files of the directory go, and that this is what the
    state machine calls Collect. */
module ObsoleteFiles {
  import opened FileName
  import opened Options
  import opened Entries
  import opened Engine

  /** What the engine knows when it decides about a file. */
  datatype Needs = Needs(live: set<nat>, log: nat, prevLog: nat, manifest: nat)

  predicate Needed(needs: Needs, number: nat, t: FileType) {
    match t
    case LogFile => number >= needs.log || number == needs.prevLog
    case DescriptorFile => number >= needs.manifest
    case TableFile => number in needs.live
    case TempFile => number in needs.live
    case CurrentFile => true
    case DbLockFile => true
    case InfoLogFile => true
  }

  /** A name stays unless it belongs to a file of the database that is not needed. */
  ghost predicate Stays(needs: Needs, name: string) {
    forall number: nat, t: FileType :: Names(name, number, t) ==> Needed(needs, number, t)
  }

  ghost function Remaining(needs: Needs, names: set<string>): set<string> {
    set name | name in names && Stays(needs, name)
  }

  class Collector {
    var names: set<string>          // the directory
    var cached: set<nat>            // numbers the table cache holds open
    var pending: set<nat>           // pending_outputs_
    var versions: set<nat>          // AddLiveFiles: the tables of every version still in use
    var log: nat
    var prevLog: nat
    var manifest: nat
    var bgError: bool

    constructor (names: set<string>, pending: set<nat>, versions: set<nat>, log: nat, prevLog: nat, manifest: nat)
      ensures this.names == names && this.pending == pending && this.versions == versions
      ensures this.log == log && this.prevLog == prevLog && this.manifest == manifest
      ensures !bgError && cached == {}
    {
      this.names, this.pending, this.versions := names, pending, versions;
      this.log, this.prevLog, this.manifest := log, prevLog, manifest;
      this.bgError, this.cached := false, {};
    }

    ghost function What(): Needs
      reads this
    {
      Needs(pending + versions, log, prevLog, manifest)
    }

    /** One name of the directory. */
    method DeleteIfObsolete(name: string, live: set<nat>)
      requires live == pending + versions
      modifies this`names, this`cached
      ensures names == if Stays(What(), name) then old(names) else old(names) - {name}
      ensures forall n :: n in cached <==> n in old(cached) && !(n !in live && Names(name, n, TableFile))
    {
      hide Names, Stays;
      var ok, number, t := ParseFileName(name);
      var keep := true;
      if ok {
        match t {
          case LogFile => keep := number >= log || number == prevLog;
          case DescriptorFile => keep := number >= manifest;
          case TableFile => keep := number in live;
          case TempFile => keep := number in live;
          case CurrentFile => keep := true;
          case DbLockFile => keep := true;
          case InfoLogFile => keep := true;
        }
        OneOwner(What(), name, number, t);
        if !keep {
          if t == TableFile {
            cached := cached - {number};
          }
          names := names - {name};
        }
      } else {
        NoOwner(What(), name);
      }
    }

    /** `children` is what listing the directory returned.  A table that goes leaves the table cache
        as well. */
    method DeleteObsoleteFiles(children: seq<string>)
      modifies this`names, this`cached
      ensures bgError ==> names == old(names) && cached == old(cached)
      ensures !bgError ==>
        forall name :: name in names <==> name in old(names) && (name in children ==> Stays(What(), name))
      ensures !bgError ==>
        forall n :: n in cached <==> n in old(cached) && (n in pending + versions || !ListsTable(children, n))
    {
      if bgError {
        return;
      }
      hide Names, Stays;
      var live := pending + versions;
      for i := 0 to |children|
        invariant forall name :: name in names <==>
                    name in old(names) && (name in children[..i] ==> Stays(What(), name))
        invariant forall n :: n in cached <==> n in old(cached) && (n in live || !ListsTable(children[..i], n))
      {
        DeleteIfObsolete(children[i], live);
        assert children[..i + 1] == children[..i] + [children[i]];
      }
    }
  }

  ghost predicate ListsTable(children: seq<string>, number: nat) {
    exists name :: name in children && Names(name, number, TableFile)
  }

  lemma NoOwner(needs: Needs, name: string)
    requires forall n: nat, t: FileType :: !Names(name, n, t)
    ensures Stays(needs, name)
  {
  }

  /** A name that means one file stays exactly when that file is needed. */
  lemma OneOwner(needs: Needs, name: string, number: nat, t: FileType)
    requires Names(name, number, t)
    ensures Stays(needs, name) <==> Needed(needs, number, t)
    ensures forall n: nat, u: FileType :: Names(name, n, u) ==> n == number && u == t
  {
    hide Names;
    forall n: nat, u: FileType | Names(name, n, u) ensures n == number && u == t {
      NameIsUnambiguous(name, number, t, n, u);
    }
  }

  // ----- the directory and the state machine's disk -----

  ghost predicate HasTable(names: set<string>, db: string, n: nat) {
    Strip(db, TableFileName(db, n)) in names || Strip(db, SSTTableFileName(db, n)) in names
  }

  ghost predicate HasLog(names: set<string>, db: string, n: nat) {
    Strip(db, LogFileName(db, n)) in names
  }

  /** The directory holds the disk's tables and logs, under their names, and no other log. */
  ghost predicate Shows(names: set<string>, db: string, disk: Disk) {
    && (forall n :: n in disk.tables || n in disk.logs ==> 0 < n <= MAX_UINT64)
    && (forall n :: 0 < n <= MAX_UINT64 ==> (n in disk.tables <==> HasTable(names, db, n)))
    && (forall n :: 0 < n <= MAX_UINT64 ==> (n in disk.logs <==> HasLog(names, db, n)))
    && (forall name: string, n: nat :: name in names && Names(name, n, LogFile) ==>
          0 < n && name == Strip(db, LogFileName(db, n)))
  }

  lemma PrintedStays(needs: Needs, db: string, n: nat)
    requires 0 < n <= MAX_UINT64
    ensures Stays(needs, Strip(db, TableFileName(db, n))) <==> n in needs.live
    ensures Stays(needs, Strip(db, SSTTableFileName(db, n))) <==> n in needs.live
    ensures Stays(needs, Strip(db, LogFileName(db, n))) <==> n >= needs.log || n == needs.prevLog
  {
    hide Names, Stays, Strip;
    PrintedNamesParse(db, n);
    OneOwner(needs, Strip(db, TableFileName(db, n)), n, TableFile);
    OneOwner(needs, Strip(db, SSTTableFileName(db, n)), n, TableFile);
    OneOwner(needs, Strip(db, LogFileName(db, n)), n, LogFile);
  }

  /** Deleting files by name does to the directory what Collect does to the abstract disk: with
      the numbers the engine holds, exactly the live tables and the logs still needed remain. */
  lemma RemainingShowsCollect(names: set<string>, db: string, s: State, manifest: nat)
    requires !s.bgError && Shows(names, db, s.disk)
    ensures Shows(Remaining(Needs(Live(s), s.versLog, 0, manifest), names), db, Collect(s).disk)
  {
    hide Live, Stays, Strip, TableFileName, SSTTableFileName, LogFileName, Names;
    var needs := Needs(Live(s), s.versLog, 0, manifest);
    var after, disk := Remaining(needs, names), Collect(s).disk;
    forall n | 0 < n <= MAX_UINT64
      ensures (n in disk.tables <==> HasTable(after, db, n)) && (n in disk.logs <==> HasLog(after, db, n))
    {
      PrintedStays(needs, db, n);
    }
  }

  /** A printed table or log name occurs in a directory with one more printed name exactly if it
      did before or is that name. */
  lemma OneMoreName(names: set<string>, db: string, n: nat, t: FileType, name: string)
    requires 0 < n <= MAX_UINT64 && Names(name, n, t)
    ensures forall m :: 0 < m <= MAX_UINT64 && (m != n || t != LogFile) ==>
      (HasLog(names + {name}, db, m) <==> HasLog(names, db, m))
    ensures forall m :: 0 < m <= MAX_UINT64 && (m != n || t != TableFile) ==>
      (HasTable(names + {name}, db, m) <==> HasTable(names, db, m))
  {
    hide Names, Strip, Padded;
    forall m | 0 < m <= MAX_UINT64
      ensures name == Strip(db, LogFileName(db, m)) ==> m == n && t == LogFile
      ensures name == Strip(db, TableFileName(db, m)) ==> m == n && t == TableFile
      ensures name == Strip(db, SSTTableFileName(db, m)) ==> m == n && t == TableFile
    {
      PrintedNamesParse(db, m);
      if name == Strip(db, LogFileName(db, m)) {
        NameIsUnambiguous(name, n, t, m, LogFile);
      }
      if name == Strip(db, TableFileName(db, m)) || name == Strip(db, SSTTableFileName(db, m)) {
        NameIsUnambiguous(name, n, t, m, TableFile);
      }
    }
  }

  /** Making a log, or appending to it, and the directory entry it gets. */
  lemma LogShows(names: set<string>, db: string, disk: Disk, n: nat, content: seq<Record>)
    requires Shows(names, db, disk) && 0 < n <= MAX_UINT64
    ensures Shows(names + {Strip(db, LogFileName(db, n))}, db, disk.(logs := disk.logs[n := content]))
  {
    hide Names, Strip, Padded;
    var name := Strip(db, LogFileName(db, n));
    PrintedNamesParse(db, n);
    OneMoreName(names, db, n, LogFile, name);
    forall c: string, m: nat | c in names + {name} && Names(c, m, LogFile)
      ensures 0 < m && c == Strip(db, LogFileName(db, m))
    {
      if c == name {
        NameIsUnambiguous(name, n, LogFile, m, LogFile);
      }
    }
  }

  /** Writing a table, whatever was there under its number. */
  lemma TableShows(names: set<string>, db: string, disk: Disk, n: nat, content: set<Entry>)
    requires Shows(names, db, disk) && 0 < n <= MAX_UINT64
    ensures Shows(names + {Strip(db, TableFileName(db, n))}, db, disk.(tables := disk.tables[n := content]))
  {
    hide Names, Strip, Padded;
    var name := Strip(db, TableFileName(db, n));
    PrintedNamesParse(db, n);
    OneMoreName(names, db, n, TableFile, name);
    forall c: string, m: nat | c in names + {name} && Names(c, m, LogFile)
      ensures 0 < m && c == Strip(db, LogFileName(db, m))
    {
      if c == name {
        NameIsUnambiguous(name, n, TableFile, m, LogFile);
      }
    }
  }

  /** File numbers the file system's names can carry. */
  ghost predicate InRange(disk: Disk) {
    forall n :: n in disk.tables || n in disk.logs ==> 0 < n <= MAX_UINT64
  }

  ghost function DirectoryOf(db: string, disk: Disk): set<string> {
    (set n | n in disk.logs :: Strip(db, LogFileName(db, n)))
    + (set n | n in disk.tables :: Strip(db, TableFileName(db, n)))
  }

  lemma SameFile(db: string, p: Printer, m: nat, q: Printer, n: nat)
    requires 0 < m <= MAX_UINT64 && 0 < n <= MAX_UINT64 && p != Descriptor && q != Descriptor
    ensures |db| + 1 <= |Print(p, db, m)| && |db| + 1 <= |Print(q, db, n)|
    ensures Strip(db, Print(p, db, m)) == Strip(db, Print(q, db, n)) ==> p == q && m == n
  {
    hide Padded;
    PrintedNamesDiffer(db, p, m, q, n);
    assert Print(p, db, m)[..|db| + 1] == Print(q, db, n)[..|db| + 1] == db + "/";
    assert Print(p, db, m) == (db + "/") + Strip(db, Print(p, db, m));
    assert Print(q, db, n) == (db + "/") + Strip(db, Print(q, db, n));
  }

  /** Every disk whose numbers are in range has a directory that shows it. */
  lemma DirectoryShows(db: string, disk: Disk)
    requires InRange(disk)
    ensures Shows(DirectoryOf(db, disk), db, disk)
  {
    hide Names, Strip, Padded;
    var names := DirectoryOf(db, disk);
    forall n | 0 < n <= MAX_UINT64
      ensures (n in disk.tables <==> HasTable(names, db, n)) && (n in disk.logs <==> HasLog(names, db, n))
    {
      forall m | m in disk.logs || m in disk.tables
        ensures Strip(db, LogFileName(db, m)) == Strip(db, LogFileName(db, n)) ==> m == n
        ensures Strip(db, TableFileName(db, m)) == Strip(db, TableFileName(db, n)) ==> m == n
        ensures Strip(db, TableFileName(db, m)) != Strip(db, LogFileName(db, n))
        ensures Strip(db, LogFileName(db, m)) != Strip(db, TableFileName(db, n))
        ensures Strip(db, LogFileName(db, m)) != Strip(db, SSTTableFileName(db, n))
        ensures Strip(db, TableFileName(db, m)) != Strip(db, SSTTableFileName(db, n))
      {
        SameFile(db, Log, m, Log, n);
        SameFile(db, Ldb, m, Ldb, n);
        SameFile(db, Ldb, m, Log, n);
        SameFile(db, Log, m, Ldb, n);
        SameFile(db, Log, m, Sst, n);
        SameFile(db, Ldb, m, Sst, n);
      }
    }
    forall c: string, m: nat | c in names && Names(c, m, LogFile)
      ensures 0 < m && c == Strip(db, LogFileName(db, m))
    {
      OnlyLogs(db, disk, c, m);
    }
  }

  lemma OnlyLogs(db: string, disk: Disk, c: string, m: nat)
    requires InRange(disk) && c in DirectoryOf(db, disk) && Names(c, m, LogFile)
    ensures 0 < m && c == Strip(db, LogFileName(db, m))
  {
    hide Names, Strip, Padded;
    if n :| n in disk.logs && c == Strip(db, LogFileName(db, n)) {
      PrintedNamesParse(db, n);
      NameIsUnambiguous(c, n, LogFile, m, LogFile);
    } else {
      var n :| n in disk.tables && c == Strip(db, TableFileName(db, n));
      PrintedNamesParse(db, n);
      NameIsUnambiguous(c, n, TableFile, m, LogFile);
    }
  }
}
