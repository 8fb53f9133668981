/** Each part of the invariant reads only some fields of the state. */
module Frames {
  import opened Options
  import opened Entries
  import opened Versions
  import opened VersionEdits
  import opened Writers
  import opened Engine
  import opened Invariant

  predicate SameLayers(s: State, t: State) {
    && t.memtables == s.memtables && t.mem == s.mem && t.imm == s.imm && t.hasImm == s.hasImm
    && t.version == s.version && t.lastSeq == s.lastSeq && t.hist == s.hist && t.floor == s.floor
    && t.cutMem == s.cutMem && t.cutImm == s.cutImm
  }

  ghost predicate SameFlight(s: State, t: State) {
    InFlight(t) == InFlight(s) && Inserted(t) == Inserted(s)
  }

  /** The background thread has no job in either state, or the same one in both. */
  predicate SameJob(a: Bg, b: Bg) {
    a == b || ((a.Idle? || a.Queued?) && (b.Idle? || b.Queued?))
  }

  lemma ViewFrame(s: State, t: State)
    requires ViewInv(s) && SameLayers(s, t) && SameFlight(s, t)
    ensures ViewInv(t)
  {
  }

  lemma ReadersFrame(s: State, t: State)
    requires ReadersOK(s) && t.memtables == s.memtables && t.mem == s.mem && t.hist == s.hist
    requires t.lastSeq == s.lastSeq && t.readers == s.readers && SameFlight(s, t)
    ensures ReadersOK(t)
  {
    forall r | r in t.readers
      ensures ReaderOK(Pinned(t, t.readers[r]), t.hist, InFlight(t), t.readers[r].snap, t.lastSeq)
    {
      assert ReaderOK(Pinned(s, s.readers[r]), s.hist, InFlight(s), s.readers[r].snap, s.lastSeq);
    }
  }

  lemma JobFrame(s: State, t: State)
    requires JobInv(s) && SameLayers(s, t)
    requires t.snapshots == s.snapshots && SameJob(s.bg, t.bg) && t.logNum == s.logNum && t.versLog == s.versLog
    ensures JobInv(t)
  {
  }

  lemma DiskFrame(s: State, t: State)
    requires DiskInv(s) && t.version == s.version && t.readers == s.readers && SameJob(s.bg, t.bg)
    requires t.disk.tables == s.disk.tables && t.disk.manifest == s.disk.manifest
    requires s.pending <= t.pending && s.nextFile <= t.nextFile
    requires t.versLog == s.versLog && t.floor == s.floor && t.cutImm == s.cutImm
    ensures DiskInv(t)
  {
    forall n ensures (Uses(t, n) <==> Uses(s, n)) && (Reserves(t.bg, n) <==> Reserves(s.bg, n)) {
    }
  }

  lemma LogFrame(s: State, t: State)
    requires LogInv(s) && SameLayers(s, t) && t.phase == s.phase && t.lost == s.lost && t.disk.logs == s.disk.logs
    requires t.logNum == s.logNum && t.versLog == s.versLog && s.nextFile <= t.nextFile && (s.bgError ==> t.bgError)
    ensures LogInv(t)
  {
  }

  lemma QueueFrame(s: State, t: State)
    requires QueueInv(s) && t.arrivals == s.arrivals && t.groups == s.groups && t.writers == s.writers
    requires t.seqAtOpen == s.seqAtOpen && t.histAtOpen == s.histAtOpen && t.lastSeq == s.lastSeq
    requires t.hist == s.hist && t.durable == s.durable && t.phase == s.phase
    requires t.snapshots == s.snapshots && t.readers == s.readers
    ensures QueueInv(t)
  {
  }

  /** A change that none of the parts reads, apart from starting and ending quiet jobs. */
  lemma CoreFrame(s: State, t: State)
    requires Core(s) && SameLayers(s, t) && t.phase == s.phase && t.readers == s.readers
    requires t.snapshots == s.snapshots && SameJob(s.bg, t.bg) && t.logNum == s.logNum && t.versLog == s.versLog
    requires t.disk == s.disk && s.pending <= t.pending && s.nextFile <= t.nextFile
    requires t.lost == s.lost && (s.bgError ==> t.bgError)
    requires t.arrivals == s.arrivals && t.groups == s.groups && t.writers == s.writers
    requires t.seqAtOpen == s.seqAtOpen && t.histAtOpen == s.histAtOpen && t.durable == s.durable
    ensures Core(t)
  {
    hide ViewInv, ReadersOK, JobInv, DiskInv, LogInv, QueueInv;
    ViewFrame(s, t);
    ReadersFrame(s, t);
    JobFrame(s, t);
    DiskFrame(s, t);
    LogFrame(s, t);
    QueueFrame(s, t);
  }

  /** However a mutex-held region got there, ending it with MaybeScheduleCompaction leaves no
      work without a job. */
  lemma ScheduleKeeps(s: State)
    requires Core(s)
    ensures Inv(MaybeSchedule(s))
  {
    hide Core, HasWork;
    var t := MaybeSchedule(s);
    assert t == s || (s.bg.Idle? && t == s.(bg := Queued));
    assert ScheduledOK(t);
    hide MaybeSchedule, ScheduledOK;
    CoreFrame(s, t);
  }

  // ----- facts that the parts share -----

  lemma ViewFacts(s: State)
    requires ViewInv(s)
    ensures MemtablesOK(s.memtables, s.mem, s.imm, s.hasImm) && s.cutMem <= s.lastSeq
    ensures forall h :: h in s.hist ==> h.seqno <= s.lastSeq
  {
  }

  lemma JobFacts(s: State)
    requires JobInv(s)
    ensures forall i :: 0 <= i < |s.snapshots| ==> s.snapshots[i] <= s.lastSeq
  {
  }

  lemma ReaderFacts(s: State)
    requires ReadersOK(s)
    ensures forall r :: r in s.readers ==> s.readers[r].snap <= s.lastSeq
  {
  }

  lemma QueueFacts(s: State)
    requires QueueInv(s)
    ensures PhaseOK(s.phase, s.writers)
  {
  }
}
