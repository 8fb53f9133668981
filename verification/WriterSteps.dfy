/** Every action of the write path keeps the invariant. */
module WriterSteps {
  import opened Options
  import opened Entries
  import opened Versions
  import opened VersionEdits
  import opened Writers
  import opened Engine
  import opened Invariant
  import opened Frames

  // ----- sets of entries and records -----

  lemma EmptyBatch(base: nat)
    ensures EntriesAt(base, []) == {}
  {
  }

  lemma EntriesAtRange(base: nat, ops: seq<Op>)
    ensures UniqueSeq(EntriesAt(base, ops))
    ensures forall e :: e in EntriesAt(base, ops) ==> base <= e.seqno < base + |ops|
  {
  }

  lemma PrefixOfBatch(base: nat, ops: seq<Op>, i: nat)
    requires i <= |ops|
    ensures EntriesAt(base, ops[..i]) <= EntriesAt(base, ops)
    ensures i == |ops| ==> EntriesAt(base, ops[..i]) == EntriesAt(base, ops)
  {
    forall e | e in EntriesAt(base, ops[..i]) ensures e in EntriesAt(base, ops) {
      var j :| 0 <= j < i && e == EntryAt(base + j, ops[..i][j]);
      assert ops[..i][j] == ops[j];
    }
    assert i == |ops| ==> ops[..i] == ops;
  }

  lemma RecordEntriesAppend(records: seq<Record>, r: Record)
    ensures RecordEntries(records + [r]) == RecordEntries(records) + EntriesAt(r.base, r.ops)
  {
    var A, B := RecordEntries(records + [r]), RecordEntries(records) + EntriesAt(r.base, r.ops);
    forall e | e in A ensures e in B {
      var q :| q in records + [r] && e in EntriesAt(q.base, q.ops);
      assert q in records || q == r;
    }
    forall e | e in B ensures e in A {
      if e in RecordEntries(records) {
        var q :| q in records && e in EntriesAt(q.base, q.ops);
        assert q in records + [r];
      } else {
        assert r in records + [r];
      }
    }
  }

  lemma CompletedAppend(groups: seq<Group>, g: Group)
    ensures Completed(groups + [g]) == Completed(groups) + g.members
  {
    assert (groups + [g])[..|groups|] == groups;
  }

  lemma AppliedAppend(groups: seq<Group>, g: Group)
    ensures Applied(groups + [g]) == Applied(groups) + if g.ok then EntriesAt(g.base, g.ops) else {}
  {
    var A, B := Applied(groups + [g]), Applied(groups) + if g.ok then EntriesAt(g.base, g.ops) else {};
    forall e | e in A ensures e in B {
      var q :| q in groups + [g] && q.ok && e in EntriesAt(q.base, q.ops);
      assert q in groups || q == g;
    }
    forall e | e in B ensures e in A {
      if e in Applied(groups) {
        var q :| q in groups && q.ok && e in EntriesAt(q.base, q.ops);
        assert q in groups + [g];
      } else {
        assert g in groups + [g];
      }
    }
  }

  lemma ChainedAppend(groups: seq<Group>, start: nat, g: Group)
    requires start <= g.base - 1 && Chained(groups, start, g.base - 1)
    ensures Chained(groups + [g], start, g.base - 1 + |g.ops|)
  {
    assert (groups + [g])[..|groups|] == groups;
  }

  lemma {:induction false} ChainedStart(groups: seq<Group>, start: nat, end: nat)
    requires Chained(groups, start, end)
    ensures start <= end
  {
  }

  // ----- joining the queue -----

  lemma EnqueueQueue(s: State, w: Writer)
    requires QueueInv(s)
    ensures QueueInv(Enqueue(s, w))
  {
    var t := Enqueue(s, w);
    assert t.arrivals == Completed(t.groups) + t.writers;
  }

  lemma EnqueueKeeps(s: State, w: Writer)
    requires Inv(s)
    ensures Inv(Enqueue(s, w))
  {
    hide ViewInv, ReadersOK, JobInv, DiskInv, LogInv, QueueInv;
    var t := Enqueue(s, w);
    ViewFrame(s, t);
    ReadersFrame(s, t);
    JobFrame(s, t);
    DiskFrame(s, t);
    LogFrame(s, t);
    EnqueueQueue(s, w);
  }

  // ----- switching memtables -----

  ghost function Switched(s: State): State {
    s.(disk := s.disk.(logs := s.disk.logs[s.nextFile := []]),
       logNum := s.nextFile, nextFile := s.nextFile + 1,
       imm := Some(s.mem), hasImm := true,
       mem := s.mem + 1, memtables := s.memtables[s.mem + 1 := {}],
       cutMem := s.lastSeq)
  }

  lemma SwitchView(s: State)
    requires ViewInv(s) && AtHead(s) && s.imm.None? && s.cutImm == s.cutMem
    ensures ViewInv(Switched(s))
  {
    var t := Switched(s);
    assert Current(t) == View({}, Current(s).mem, s.version);
    assert All(Current(t)) == All(Current(s));
  }

  lemma SwitchReaders(s: State)
    requires ReadersOK(s) && AtHead(s) && MemtablesOK(s.memtables, s.mem, s.imm, s.hasImm)
    ensures ReadersOK(Switched(s))
  {
    var t := Switched(s);
    forall r | r in t.readers
      ensures ReaderOK(Pinned(t, t.readers[r]), t.hist, InFlight(t), t.readers[r].snap, t.lastSeq)
    {
      assert ReaderOK(Pinned(s, s.readers[r]), s.hist, InFlight(s), s.readers[r].snap, s.lastSeq);
      assert Pinned(t, t.readers[r]) == Pinned(s, s.readers[r]);
    }
  }

  lemma SwitchJob(s: State)
    requires JobInv(s) && s.imm.None?
    ensures JobInv(Switched(s))
  {
  }

  lemma SwitchLog(s: State)
    requires LogInv(s) && AtHead(s) && !s.bgError && s.imm.None? && s.mem in s.memtables
    ensures LogInv(Switched(s)) && s.cutImm == s.cutMem
  {
    var t := Switched(s);
    assert RecordEntries([]) == {};
    assert s.lost == {};
    assert Current(t).mem == {} && ImmEntries(t.memtables, t.imm) == Current(s).mem;
  }

  lemma SwitchMemtable(s: State)
    requires MemtablesOK(s.memtables, s.mem, s.imm, s.hasImm)
    ensures s.mem in s.memtables
  {
  }

  lemma SwitchKeeps(s: State)
    requires Inv(s) && CanSwitch(s)
    ensures Inv(Switch(s))
  {
    hide ViewInv, ReadersOK, JobInv, DiskInv, LogInv, QueueInv, MemtablesOK, Level0Files;
    var t := Switched(s);
    ViewFacts(s);
    SwitchMemtable(s);
    SwitchLog(s);
    SwitchView(s);
    SwitchReaders(s);
    SwitchJob(s);
    DiskFrame(s, t);
    QueueFrame(s, t);
    ScheduleKeeps(t);
  }

  // ----- building a group and logging it -----

  lemma BeginGroupQueue(s: State, n: nat)
    requires QueueInv(s) && CanBeginGroup(s, n)
    ensures QueueInv(BeginGroup(s, n))
  {
    forall w | w in s.writers[..n] && w.sync ensures s.writers[0].sync {
      var i :| 0 <= i < n && s.writers[i] == w;
      NoSyncRidesWithoutSync(s.writers, n, i);
    }
  }

  lemma BeginGroupLog(s: State, n: nat)
    requires LogInv(s) && CanBeginGroup(s, n)
    ensures LogInv(BeginGroup(s, n))
  {
    assert Unapplied(BeginGroup(s, n)) == Unapplied(s);
  }

  lemma BeginGroupKeeps(s: State, n: nat)
    requires Inv(s) && CanBeginGroup(s, n)
    ensures Inv(BeginGroup(s, n))
  {
    hide ViewInv, ReadersOK, JobInv, DiskInv, LogInv, QueueInv;
    var t := BeginGroup(s, n);
    EmptyBatch(s.lastSeq + 1);
    assert GroupOps(t.phase.members)[..0] == [];
    ViewFrame(s, t);
    ReadersFrame(s, t);
    JobFrame(s, t);
    DiskFrame(s, t);
    BeginGroupLog(s, n);
    BeginGroupQueue(s, n);
  }

  /** The flight only depends on how far insertion has got. */
  lemma GroundedFlight(s: State)
    requires Inserted(s) == 0
    ensures InFlight(s) == {}
  {
    if s.phase.Logging? {
      EmptyBatch(s.lastSeq + 1);
      assert GroupOps(s.phase.members)[..0] == [];
    }
  }

  lemma AscendsAppend(records: seq<Record>, r: Record, lo: nat, hi: nat, top: nat)
    requires Ascends(records, lo, hi) && lo <= hi < r.base && r.base + |r.ops| <= top + 1 && hi <= top
    ensures Ascends(records + [r], lo, top)
  {
  }

  lemma AppendLogLog(s: State)
    requires LogInv(s) && CanAppendLog(s) && s.cutMem <= s.lastSeq
    ensures LogInv(AppendLog(s))
  {
    hide LogsOK, EntriesAt, GroupOps;
    var t := AppendLog(s);
    var r := Record(s.lastSeq + 1, GroupOps(s.phase.members));
    assert s.lost == {} && LoggedTop(t.lastSeq, t.phase) == s.lastSeq + |r.ops|;
    assert Unapplied(t) == Unapplied(s) + EntriesAt(r.base, r.ops);
    LogGrows(s, r, Unapplied(s));
  }

  /** One more record at the end of the current log. */
  lemma LogGrows(s: State, r: Record, unapplied: set<Entry>)
    requires r.base == s.lastSeq + 1 && s.cutMem <= s.lastSeq && s.logNum in s.disk.logs
    requires LogsOK(s.disk.logs, s.imm, ImmEntries(s.memtables, s.imm), Current(s).mem, unapplied, s.logNum, s.versLog,
                    s.cutImm, s.cutMem, s.lastSeq)
    ensures LogsOK(s.disk.logs[s.logNum := s.disk.logs[s.logNum] + [r]], s.imm, ImmEntries(s.memtables, s.imm),
                   Current(s).mem, unapplied + EntriesAt(r.base, r.ops), s.logNum, s.versLog, s.cutImm, s.cutMem,
                   s.lastSeq + |r.ops|)
  {
    hide Ascends, RecordEntries, EntriesAt, Current, ImmEntries;
    RecordEntriesAppend(s.disk.logs[s.logNum], r);
    AscendsAppend(s.disk.logs[s.logNum], r, s.cutMem, s.lastSeq, s.lastSeq + |r.ops|);
  }

  lemma AppendLogKeeps(s: State)
    requires Inv(s) && CanAppendLog(s)
    ensures Inv(AppendLog(s))
  {
    hide ViewInv, ReadersOK, JobInv, DiskInv, LogInv, QueueInv, PhaseOK, MemtablesOK;
    var t := AppendLog(s);
    ViewFacts(s);
    QueueFacts(s);
    assert InFlight(t) == InFlight(s);
    ViewFrame(s, t);
    ReadersFrame(s, t);
    JobFrame(s, t);
    DiskFrame(s, t);
    AppendLogLog(s);
    AppendLogQueue(s, t);
  }

  lemma AppendLogQueue(s: State, t: State)
    requires QueueInv(s) && CanAppendLog(s) && t == AppendLog(s)
    ensures QueueInv(t)
  {
  }

  lemma AppendLogFailsKeeps(s: State)
    requires Inv(s) && CanAppendLog(s)
    ensures Inv(AppendLogFails(s))
  {
    hide ViewInv, ReadersOK, JobInv, DiskInv, LogInv, QueueInv;
    var t := AppendLogFails(s);
    QueueFacts(s);
    GroundedFlight(s);
    GroundedFlight(t);
    ViewFrame(s, t);
    ReadersFrame(s, t);
    JobFrame(s, t);
    DiskFrame(s, t);
    AppendLogFailsRest(s);
  }

  lemma AppendLogFailsRest(s: State)
    requires LogInv(s) && QueueInv(s) && CanAppendLog(s)
    ensures LogInv(AppendLogFails(s)) && QueueInv(AppendLogFails(s))
  {
    assert Unapplied(AppendLogFails(s)) == Unapplied(s);
  }

  // ----- syncing the log -----

  lemma UnappliedIsLogged(s: State)
    requires LogInv(s)
    ensures s.logNum in s.disk.logs && Unapplied(s) <= RecordEntries(s.disk.logs[s.logNum])
  {
    hide Ascends, LostOK;
  }

  lemma DurableGrows(g: Group, before: set<Entry>, after: set<Entry>)
    requires GroupOK(g, before) && before <= after
    ensures GroupOK(g, after)
  {
  }

  lemma SyncLogGroups(s: State)
    requires GroupsOK(s) && CanSyncLog(s)
    requires EntriesAt(s.lastSeq + 1, GroupOps(s.phase.members)) <= RecordEntries(s.disk.logs[s.logNum])
    ensures GroupsOK(SyncLog(s))
  {
    hide Chained, RecordEntries, EntriesAt, GroupOps, GroupOK, Completed, Applied;
    var t := SyncLog(s);
    forall g | g in t.groups ensures GroupOK(g, t.durable) {
      DurableGrows(g, s.durable, t.durable);
    }
  }

  lemma SyncLogQueue(s: State)
    requires QueueInv(s) && LogInv(s) && CanSyncLog(s)
    ensures QueueInv(SyncLog(s))
  {
    hide LogInv, RecordEntries, EntriesAt, GroupOps, Unapplied, GroupsOK, Boundary;
    UnappliedIsLogged(s);
    GroupIsUnapplied(s);
    SyncLogGroups(s);
  }

  lemma GroupIsUnapplied(s: State)
    requires s.phase.Logging? && s.phase.logged
    ensures EntriesAt(s.lastSeq + 1, GroupOps(s.phase.members)) <= Unapplied(s)
  {
    hide EntriesAt, GroupOps;
  }

  lemma SyncLogKeeps(s: State)
    requires Inv(s) && CanSyncLog(s)
    ensures Inv(SyncLog(s))
  {
    hide ViewInv, ReadersOK, JobInv, DiskInv, LogInv, QueueInv;
    var t := SyncLog(s);
    assert InFlight(t) == InFlight(s);
    ViewFrame(s, t);
    ReadersFrame(s, t);
    JobFrame(s, t);
    DiskFrame(s, t);
    SyncLogLog(s);
    SyncLogQueue(s);
  }

  /** The log's part of the invariant, when nothing it speaks of changes. */
  lemma LogSame(s: State, t: State)
    requires LogInv(s) && LostOK(t) && t.disk.logs == s.disk.logs && t.imm == s.imm
    requires ImmEntries(t.memtables, t.imm) == ImmEntries(s.memtables, s.imm) && Current(t).mem == Current(s).mem
    requires Unapplied(t) == Unapplied(s) && t.logNum == s.logNum && t.versLog == s.versLog
    requires t.cutImm == s.cutImm && t.cutMem == s.cutMem && s.nextFile <= t.nextFile
    requires LoggedTop(t.lastSeq, t.phase) == LoggedTop(s.lastSeq, s.phase)
    ensures LogInv(t)
  {
    hide LogsOK, LostOK, Unapplied, Current, ImmEntries, LoggedTop;
  }

  lemma SyncLogLog(s: State)
    requires LogInv(s) && CanSyncLog(s)
    ensures LogInv(SyncLog(s))
  {
    hide LogsOK, RecordEntries, EntriesAt, LogNumbersOK;
    var t := SyncLog(s);
    assert Unapplied(t) == Unapplied(s) && LoggedTop(t.lastSeq, t.phase) == LoggedTop(s.lastSeq, s.phase);
    LogSame(s, t);
  }

  lemma SyncLogFailsKeeps(s: State)
    requires Inv(s) && CanSyncLog(s)
    ensures Inv(SyncLogFails(s))
  {
    hide ViewInv, ReadersOK, JobInv, DiskInv, LogInv, QueueInv, MemtablesOK;
    var t := SyncLogFails(s);
    ViewFacts(s);
    GroundedFlight(s);
    GroundedFlight(t);
    ViewFrame(s, t);
    ReadersFrame(s, t);
    JobFrame(s, t);
    DiskFrame(s, t);
    SyncLogFailsRest(s);
  }

  lemma SyncLogFailsRest(s: State)
    requires LogInv(s) && QueueInv(s) && CanSyncLog(s)
    requires forall h :: h in s.hist ==> h.seqno <= s.lastSeq
    ensures LogInv(SyncLogFails(s)) && QueueInv(SyncLogFails(s))
  {
    hide LogsOK, LostOK, LogNumbersOK, GroupsOK, BoundariesOK, EntriesAt, GroupOps;
    var t := SyncLogFails(s);
    SyncLogFailsLost(s);
    assert Unapplied(t) == Unapplied(s) && LoggedTop(t.lastSeq, t.phase) == LoggedTop(s.lastSeq, s.phase);
    LogSame(s, t);
    SyncLogFailsGroups(s);
  }

  /** What the group has logged counts as lost now, and is newer than the history. */
  lemma SyncLogFailsLost(s: State)
    requires LostOK(s) && CanSyncLog(s) && forall h :: h in s.hist ==> h.seqno <= s.lastSeq
    ensures LostOK(SyncLogFails(s))
  {
    hide EntriesAt, GroupOps;
    EntriesAtRange(s.lastSeq + 1, GroupOps(s.phase.members));
  }

  lemma SyncLogFailsGroups(s: State)
    requires GroupsOK(s) && BoundariesOK(s) && CanSyncLog(s)
    ensures GroupsOK(SyncLogFails(s)) && BoundariesOK(SyncLogFails(s))
  {
    hide GroupOK, Boundary, Completed, Applied, Chained, EntriesAt, GroupOps;
  }

  // ----- inserting into the memtable -----

  lemma InsertFlight(s: State)
    requires CanInsert(s) && PhaseOK(s.phase, s.writers)
    ensures var e := EntryAt(Top(s) + 1, GroupOps(s.phase.members)[s.phase.inserted]);
            InFlight(Insert(s)) == InFlight(s) + {e} && Top(Insert(s)) == e.seqno
  {
    EntriesAtGrows(s.lastSeq + 1, GroupOps(s.phase.members), s.phase.inserted);
  }

  /** A new entry newer than everything a view holds changes nothing below it. */
  lemma GrowView(w: View, hist: set<Entry>, e: Entry, lo: nat, hi: nat)
    requires Cover(All(w), hist, lo, hi) && lo <= hi < e.seqno
    ensures Cover(All(w.(mem := w.mem + {e})), hist, lo, hi)
  {
    var w' := w.(mem := w.mem + {e});
    assert All(w') == All(w) + {e};
    forall h | h in hist && h !in All(w') && h.seqno <= hi
      ensures Shadowed(hist, h, lo) || BareTombstone(All(w'), h, lo)
    {
      assert Shadowed(hist, h, lo) || BareTombstone(All(w), h, lo);
    }
  }

  lemma InsertView(s: State)
    requires ViewInv(s) && CanInsert(s) && PhaseOK(s.phase, s.writers)
    ensures ViewInv(Insert(s))
  {
    hide EntriesAt, GroupOps, VersionOrdered, Shadowed, BareTombstone;
    var t := Insert(s);
    var e := EntryAt(Top(s) + 1, GroupOps(s.phase.members)[s.phase.inserted]);
    InsertFlight(s);
    assert Current(t) == Current(s).(mem := Current(s).mem + {e});
    assert All(Current(t)) == All(Current(s)) + {e};
    GrowView(Current(s), s.hist, e, s.floor, s.lastSeq);
  }

  lemma InsertReader(s: State, r: Reader, e: Entry)
    requires ReaderOK(Pinned(s, r), s.hist, InFlight(s), r.snap, s.lastSeq)
    requires CanInsert(s) && PhaseOK(s.phase, s.writers) && r.mem in s.memtables
    requires r.imm.Some? ==> r.imm.value in s.memtables && r.imm.value < r.mem <= s.mem
    requires e == EntryAt(Top(s) + 1, GroupOps(s.phase.members)[s.phase.inserted])
    requires forall x :: x in s.hist + InFlight(s) ==> x.seqno < e.seqno
    ensures ReaderOK(Pinned(Insert(s), r), s.hist, InFlight(s) + {e}, r.snap, s.lastSeq)
  {
    var w, w' := Pinned(s, r), Pinned(Insert(s), r);
    if r.mem == s.mem {
      assert w' == w.(mem := w.mem + {e});
      GrowView(w, s.hist, e, r.snap, r.snap);
      assert All(w') == All(w) + {e};
      GrownIsOrdered(w, e);
    } else {
      assert w' == w;
    }
  }

  lemma GrownIsOrdered(w: View, e: Entry)
    requires Ordered(w) && forall x :: x in All(w) ==> x.seqno < e.seqno
    ensures Ordered(w.(mem := w.mem + {e}))
  {
  }

  lemma FlightIsAbove(s: State)
    requires PhaseOK(s.phase, s.writers)
    ensures forall x :: x in InFlight(s) ==> s.lastSeq < x.seqno <= Top(s)
    ensures UniqueSeq(InFlight(s))
  {
    if s.phase.Logging? {
      EntriesAtRange(s.lastSeq + 1, GroupOps(s.phase.members)[..s.phase.inserted]);
    }
  }

  lemma InsertReaders(s: State)
    requires ReadersOK(s) && CanInsert(s) && PhaseOK(s.phase, s.writers)
    requires forall h :: h in s.hist ==> h.seqno <= s.lastSeq
    ensures ReadersOK(Insert(s))
  {
    var t := Insert(s);
    var e := EntryAt(Top(s) + 1, GroupOps(s.phase.members)[s.phase.inserted]);
    InsertFlight(s);
    FlightIsAbove(s);
    forall r | r in t.readers
      ensures ReaderOK(Pinned(t, t.readers[r]), t.hist, InFlight(t), t.readers[r].snap, t.lastSeq)
    {
      InsertReader(s, s.readers[r], e);
    }
  }

  lemma InsertJob(s: State)
    requires JobInv(s) && CanInsert(s) && MemtablesOK(s.memtables, s.mem, s.imm, s.hasImm)
    ensures JobInv(Insert(s))
  {
    assert ImmEntries(Insert(s).memtables, s.imm) == ImmEntries(s.memtables, s.imm);
  }

  lemma InsertLog(s: State)
    requires LogInv(s) && CanInsert(s) && PhaseOK(s.phase, s.writers)
    requires MemtablesOK(s.memtables, s.mem, s.imm, s.hasImm)
    ensures LogInv(Insert(s))
  {
    hide LogsOK, RecordEntries, EntriesAt, GroupOps, Unapplied;
    var t := Insert(s);
    assert ImmEntries(t.memtables, t.imm) == ImmEntries(s.memtables, s.imm);
    InsertUnapplied(s);
    MemoryGrows(s, t, Unapplied(s), LoggedTop(s.lastSeq, s.phase));
  }

  /** Inserting what was logged does not change what log and memtable together hold. */
  lemma MemoryGrows(s: State, t: State, unapplied: set<Entry>, top: nat)
    requires Current(t).mem + unapplied == Current(s).mem + unapplied
    requires LogsOK(s.disk.logs, s.imm, ImmEntries(s.memtables, s.imm), Current(s).mem, unapplied, s.logNum, s.versLog,
                    s.cutImm, s.cutMem, top)
    ensures LogsOK(s.disk.logs, s.imm, ImmEntries(s.memtables, s.imm), Current(t).mem, unapplied, s.logNum, s.versLog,
                   s.cutImm, s.cutMem, top)
  {
    hide Ascends, RecordEntries, Current, ImmEntries;
  }

  /** What is inserted was logged before. */
  lemma InsertUnapplied(s: State)
    requires CanInsert(s)
    ensures Unapplied(Insert(s)) == Unapplied(s)
    ensures Current(Insert(s)).mem + Unapplied(Insert(s)) == Current(s).mem + Unapplied(s)
  {
    var ops := GroupOps(s.phase.members);
    assert EntryAt(s.lastSeq + 1 + s.phase.inserted, ops[s.phase.inserted]) in EntriesAt(s.lastSeq + 1, ops);
  }

  lemma InsertQueue(s: State)
    requires QueueInv(s) && CanInsert(s)
    ensures QueueInv(Insert(s))
  {
  }

  lemma InsertKeeps(s: State)
    requires Inv(s) && CanInsert(s)
    ensures Inv(Insert(s))
  {
    hide ViewInv, ReadersOK, JobInv, DiskInv, LogInv, QueueInv, PhaseOK, MemtablesOK;
    QueueFacts(s);
    ViewFacts(s);
    InsertView(s);
    InsertReaders(s);
    InsertJob(s);
    InsertLog(s);
    DiskFrame(s, Insert(s));
    InsertQueue(s);
  }

  // ----- leaving the queue -----

  lemma PopGroups(s: State, t: State, g: Group)
    requires GroupsOK(s) && PopLike(s, t, g) && GroupOK(g, s.durable)
    requires t.hist == s.hist + if g.ok then EntriesAt(g.base, g.ops) else {}
    ensures GroupsOK(t)
  {
    hide GroupOK, EntriesAt, Completed, Applied, Chained;
    CompletedAppend(s.groups, g);
    AppliedAppend(s.groups, g);
    ChainedStart(s.groups, s.seqAtOpen, s.lastSeq);
    ChainedAppend(s.groups, s.seqAtOpen, g);
    assert t.arrivals == Completed(t.groups) + t.writers;
    forall q | q in t.groups ensures GroupOK(q, t.durable) && q.base + |q.ops| <= t.lastSeq + 1 {
      assert q in s.groups || q == g;
    }
  }

  /** `t` is `s` after group `g` has left the queue. */
  predicate PopLike(s: State, t: State, g: Group) {
    && s.writers == g.members + t.writers && g.base == s.lastSeq + 1 && t.lastSeq == s.lastSeq + |g.ops|
    && t.groups == s.groups + [g] && t.arrivals == s.arrivals && t.phase.Waiting?
    && t.seqAtOpen == s.seqAtOpen && t.histAtOpen == s.histAtOpen && t.durable == s.durable
    && t.snapshots == s.snapshots && t.readers == s.readers
  }

  lemma PopBoundaries(s: State, t: State, g: Group)
    requires BoundariesOK(s) && PopLike(s, t, g)
    requires forall i :: 0 <= i < |s.snapshots| ==> s.snapshots[i] <= s.lastSeq
    requires forall r :: r in s.readers ==> s.readers[r].snap <= s.lastSeq
    ensures BoundariesOK(t)
  {
    forall x: nat | Boundary(s.groups, x) && x <= s.lastSeq ensures Boundary(t.groups, x) {
      assert forall q :: q in t.groups ==> q in s.groups || q == g;
    }
  }

  lemma PopQueue(s: State, t: State, g: Group)
    requires QueueInv(s) && PopLike(s, t, g) && GroupOK(g, s.durable)
    requires t.hist == s.hist + if g.ok then EntriesAt(g.base, g.ops) else {}
    requires forall i :: 0 <= i < |s.snapshots| ==> s.snapshots[i] <= s.lastSeq
    requires forall r :: r in s.readers ==> s.readers[r].snap <= s.lastSeq
    ensures QueueInv(t)
  {
    hide GroupsOK, BoundariesOK;
    PopGroups(s, t, g);
    PopBoundaries(s, t, g);
  }

  /** LastSequence moves past a group that added nothing. */
  lemma SkipSequence(s: State, t: State)
    requires ViewInv(s) && ReadersOK(s) && JobInv(s) && Inserted(s) == 0 && Inserted(t) == 0
    requires t.lastSeq >= s.lastSeq && SameLayers(s, t.(lastSeq := s.lastSeq))
    requires t.readers == s.readers && t.snapshots == s.snapshots && t.bg == s.bg
    requires t.logNum == s.logNum && t.versLog == s.versLog
    ensures ViewInv(t) && ReadersOK(t) && JobInv(t)
  {
    hide ViewInv, ReadersOK, JobInv;
    GroundedFlight(s);
    GroundedFlight(t);
    SkipView(s, t);
    SkipReaders(s, t);
    SkipJob(s, t);
  }

  lemma SkipView(s: State, t: State)
    requires ViewInv(s) && InFlight(s) == {} && InFlight(t) == {} && Inserted(s) == 0 && Inserted(t) == 0
    requires t.lastSeq >= s.lastSeq && SameLayers(s, t.(lastSeq := s.lastSeq))
    ensures ViewInv(t)
  {
  }

  lemma SkipReaders(s: State, t: State)
    requires ReadersOK(s) && InFlight(s) == {} && InFlight(t) == {}
    requires t.lastSeq >= s.lastSeq && SameLayers(s, t.(lastSeq := s.lastSeq)) && t.readers == s.readers
    ensures ReadersOK(t)
  {
    forall r | r in t.readers
      ensures ReaderOK(Pinned(t, t.readers[r]), t.hist, InFlight(t), t.readers[r].snap, t.lastSeq)
    {
      assert ReaderOK(Pinned(s, s.readers[r]), s.hist, InFlight(s), s.readers[r].snap, s.lastSeq);
    }
  }

  lemma SkipJob(s: State, t: State)
    requires JobInv(s) && t.lastSeq >= s.lastSeq && SameLayers(s, t.(lastSeq := s.lastSeq))
    requires t.snapshots == s.snapshots && t.bg == s.bg && t.logNum == s.logNum && t.versLog == s.versLog
    ensures JobInv(t)
  {
  }

  lemma FinishFailedLog(s: State)
    requires LogInv(s) && QueueInv(s) && CanFinishFailed(s)
    ensures LogInv(FinishFailed(s))
  {
    var t := FinishFailed(s);
    assert Unapplied(t) == Unapplied(s);
    assert Current(t) == Current(s);
    assert LoggedTop(s.lastSeq, s.phase) <= t.lastSeq;
  }

  lemma FinishFailedKeeps(s: State)
    requires Inv(s) && CanFinishFailed(s)
    ensures Inv(FinishFailed(s))
  {
    hide ViewInv, ReadersOK, JobInv, DiskInv, LogInv, QueueInv, PhaseOK;
    var t := FinishFailed(s);
    QueueFacts(s);
    JobFacts(s);
    ReaderFacts(s);
    FailedPrefix(s);
    SkipSequence(s, t);
    DiskFrame(s, t);
    FinishFailedLog(s);
    PopQueue(s, t, Group(s.lastSeq + 1, s.phase.members, GroupOps(s.phase.members), false));
  }

  lemma FailedPrefix(s: State)
    requires PhaseOK(s.phase, s.writers) && !s.phase.Waiting?
    ensures s.phase.members != [] && |s.phase.members| <= |s.writers|
    ensures s.writers[..|s.phase.members|] == s.phase.members
    ensures s.writers == s.phase.members + s.writers[|s.phase.members|..]
  {
  }

  lemma LeaveAloneKeeps(s: State, ok: bool)
    requires Inv(s) && CanLeaveAlone(s, ok)
    ensures Inv(LeaveAlone(s, ok))
  {
    hide ViewInv, ReadersOK, JobInv, DiskInv, LogInv, QueueInv, PhaseOK;
    var t := LeaveAlone(s, ok);
    var g := Group(s.lastSeq + 1, s.writers[..1], [], ok);
    JobFacts(s);
    ReaderFacts(s);
    EmptyBatch(s.lastSeq + 1);
    SkipSequence(s, t);
    DiskFrame(s, t);
    LogFrame(s, t);
    if ok {
      assert s.writers[..1][..0] == [];
      assert GroupOps(s.writers[..1]) == [] + OpsOf(s.writers[0]);
    }
    PopQueue(s, t, g);
  }

  // ----- publishing a group -----

  /** Once all of a group is inserted, publishing turns the flight into history. */
  lemma PublishFlight(s: State)
    requires CanPublish(s)
    ensures InFlight(s) == EntriesAt(s.lastSeq + 1, GroupOps(s.phase.members))
    ensures Publish(s).hist == s.hist + InFlight(s)
    ensures InFlight(Publish(s)) == {} && Top(Publish(s)) == Top(s) == Publish(s).lastSeq
  {
    PrefixOfBatch(s.lastSeq + 1, GroupOps(s.phase.members), s.phase.inserted);
  }

  lemma PublishView(s: State)
    requires ViewInv(s) && CanPublish(s) && PhaseOK(s.phase, s.writers)
    ensures ViewInv(Publish(s))
  {
    var t := Publish(s);
    PublishFlight(s);
    FlightIsAbove(s);
    assert Current(t) == Current(s);
    PublishCover(All(Current(s)), s.hist, InFlight(s), s.floor, s.lastSeq, t.lastSeq);
  }

  lemma PublishCover(E: set<Entry>, hist: set<Entry>, flying: set<Entry>, lo: nat, hi: nat, hi': nat)
    requires Cover(E, hist, lo, hi) && lo <= hi <= hi' && flying <= E <= hist + flying
    requires forall h :: h in hist ==> h.seqno <= hi
    ensures Cover(E, hist + flying, lo, hi')
  {
    forall h | h in hist + flying && h !in E ensures Shadowed(hist + flying, h, lo) || BareTombstone(E, h, lo) {
      if Shadowed(hist, h, lo) {
        var n :| n in hist && n.key == h.key && h.seqno < n.seqno <= lo;
        assert n in hist + flying;
      }
    }
  }

  lemma PublishReaders(s: State)
    requires ReadersOK(s) && CanPublish(s) && PhaseOK(s.phase, s.writers)
    ensures ReadersOK(Publish(s))
  {
    var t := Publish(s);
    PublishFlight(s);
    FlightIsAbove(s);
    forall r | r in t.readers
      ensures ReaderOK(Pinned(t, t.readers[r]), t.hist, InFlight(t), t.readers[r].snap, t.lastSeq)
    {
      assert ReaderOK(Pinned(s, s.readers[r]), s.hist, InFlight(s), s.readers[r].snap, s.lastSeq);
      assert Pinned(t, t.readers[r]) == Pinned(s, s.readers[r]);
      LaterHistory(Pinned(s, s.readers[r]), s.hist, InFlight(s), s.readers[r].snap);
    }
  }

  lemma LaterHistory(w: View, hist: set<Entry>, later: set<Entry>, snap: nat)
    requires Cover(All(w), hist, snap, snap) && forall e :: e in later ==> e.seqno > snap
    ensures Cover(All(w), hist + later, snap, snap)
  {
    forall h | h in hist + later && h !in All(w) && h.seqno <= snap
      ensures Shadowed(hist + later, h, snap) || BareTombstone(All(w), h, snap)
    {
      if Shadowed(hist, h, snap) {
        var n :| n in hist && n.key == h.key && h.seqno < n.seqno <= snap;
        assert n in hist + later;
      }
    }
  }

  lemma PublishJob(s: State)
    requires JobInv(s) && CanPublish(s)
    ensures JobInv(Publish(s))
  {
  }

  /** Logged entries that are in the memtable by now need no separate mention. */
  lemma Absorb(s: State, unapplied: set<Entry>, top: nat)
    requires unapplied <= Current(s).mem
    requires LogsOK(s.disk.logs, s.imm, ImmEntries(s.memtables, s.imm), Current(s).mem, unapplied, s.logNum, s.versLog,
                    s.cutImm, s.cutMem, top)
    ensures LogsOK(s.disk.logs, s.imm, ImmEntries(s.memtables, s.imm), Current(s).mem, {}, s.logNum, s.versLog,
                   s.cutImm, s.cutMem, top)
  {
    hide Ascends;
    assert Current(s).mem + unapplied == Current(s).mem + {};
  }

  lemma PublishLog(s: State)
    requires LogInv(s) && CanPublish(s) && InFlight(s) <= Current(s).mem
    ensures LogInv(Publish(s))
  {
    hide LogsOK, EntriesAt, GroupOps;
    PublishFlight(s);
    assert s.lost == {};
    assert Unapplied(s) == InFlight(s) && Unapplied(Publish(s)) == {};
    Absorb(s, Unapplied(s), LoggedTop(s.lastSeq, s.phase));
  }

  lemma PublishInserted(s: State)
    requires ViewInv(s)
    ensures InFlight(s) <= Current(s).mem
  {
  }

  lemma PublishDurable(s: State)
    requires QueueInv(s) && CanPublish(s)
    ensures (exists w :: w in s.phase.members && w.sync && w.batch.Some?) ==>
              EntriesAt(s.lastSeq + 1, GroupOps(s.phase.members)) <= s.durable
  {
  }

  lemma PublishKeeps(s: State)
    requires Inv(s) && CanPublish(s)
    ensures Inv(Publish(s))
  {
    hide ViewInv, ReadersOK, JobInv, DiskInv, LogInv, QueueInv, PhaseOK;
    var t := Publish(s);
    QueueFacts(s);
    JobFacts(s);
    ReaderFacts(s);
    FailedPrefix(s);
    PublishView(s);
    PublishInserted(s);
    PublishReaders(s);
    PublishJob(s);
    PublishLog(s);
    PublishDurable(s);
    DiskFrame(s, t);
    PopQueue(s, t, Group(s.lastSeq + 1, s.phase.members, GroupOps(s.phase.members), true));
  }
}
