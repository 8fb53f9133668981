/** Snapshots, reads and outside requests keep the invariant. */
module ReaderSteps {
  import opened Options
  import opened Entries
  import opened Versions
  import opened VersionEdits
  import opened Writers
  import opened Engine
  import opened Invariant
  import opened Frames

  lemma TakeSnapshotJob(s: State)
    requires JobInv(s) && s.floor <= s.lastSeq
    ensures JobInv(TakeSnapshot(s))
  {
  }

  lemma TakeSnapshotQueue(s: State)
    requires QueueInv(s)
    ensures QueueInv(TakeSnapshot(s))
  {
  }

  lemma TakeSnapshotKeeps(s: State)
    requires Inv(s)
    ensures Inv(TakeSnapshot(s))
  {
    hide ViewInv, ReadersOK, JobInv, DiskInv, LogInv, QueueInv;
    var t := TakeSnapshot(s);
    ViewFrame(s, t);
    ReadersFrame(s, t);
    FloorFact(s);
    TakeSnapshotJob(s);
    DiskFrame(s, t);
    LogFrame(s, t);
    TakeSnapshotQueue(s);
  }

  lemma FloorFact(s: State)
    requires ViewInv(s)
    ensures s.floor <= s.lastSeq
  {
  }

  lemma Without(xs: seq<nat>, i: nat)
    requires i < |xs|
    ensures var ys := xs[..i] + xs[i + 1..];
      && |ys| == |xs| - 1
      && forall j :: 0 <= j < |ys| ==> ys[j] == xs[if j < i then j else j + 1]
  {
  }

  lemma ReleaseSnapshotJob(s: State, i: nat)
    requires JobInv(s) && i < |s.snapshots|
    ensures JobInv(ReleaseSnapshot(s, i))
  {
    hide EditOK, FlushingOK, PlanOK;
    Without(s.snapshots, i);
  }

  lemma ReleaseSnapshotQueue(s: State, i: nat)
    requires QueueInv(s) && i < |s.snapshots|
    ensures QueueInv(ReleaseSnapshot(s, i))
  {
    hide PhaseOK, Boundary;
    Without(s.snapshots, i);
  }

  lemma ReleaseSnapshotKeeps(s: State, i: nat)
    requires Inv(s) && i < |s.snapshots|
    ensures Inv(ReleaseSnapshot(s, i))
  {
    hide ViewInv, ReadersOK, JobInv, DiskInv, LogInv, QueueInv;
    var t := ReleaseSnapshot(s, i);
    ViewFrame(s, t);
    ReadersFrame(s, t);
    DiskFrame(s, t);
    LogFrame(s, t);
    ReleaseSnapshotJob(s, i);
    ReleaseSnapshotQueue(s, i);
  }

  // ----- reads -----

  /** Whatever covers the history for all readers in [lo, hi] covers it for each of them. */
  lemma CoverOne(E: set<Entry>, H: set<Entry>, lo: nat, hi: nat, s: nat)
    requires Cover(E, H, lo, hi) && lo <= s <= hi
    ensures Cover(E, H, s, s)
  {
    forall h | h in H && h !in E && h.seqno <= s ensures Shadowed(H, h, s) || BareTombstone(E, h, s) {
      if Shadowed(H, h, lo) {
        var n :| n in H && n.key == h.key && h.seqno < n.seqno <= lo;
        assert n.seqno <= s;
      }
    }
  }

  lemma LayersAreOrdered(w: View, cutImm: nat, cutMem: nat, top: nat)
    requires LayersOK(w, cutImm, cutMem, top)
    ensures Ordered(w)
  {
  }

  lemma CurrentIsReadable(s: State, snap: nat)
    requires ViewInv(s) && s.floor <= snap <= s.lastSeq
    ensures ReaderOK(Current(s), s.hist, InFlight(s), snap, s.lastSeq)
  {
    LayersAreOrdered(Current(s), s.cutImm, s.cutMem, Top(s));
    CoverOne(All(Current(s)), s.hist, s.floor, s.lastSeq, snap);
  }

  lemma SnapshotRange(s: State, snap: nat)
    requires ViewInv(s) && JobInv(s) && (snap in s.snapshots || snap == s.lastSeq)
    ensures s.floor <= snap <= s.lastSeq
  {
  }

  lemma StartGetReaders(s: State, id: nat, key: Key, snap: nat)
    requires ReadersOK(s) && ReaderOK(Current(s), s.hist, InFlight(s), snap, s.lastSeq)
    requires MemtablesOK(s.memtables, s.mem, s.imm, s.hasImm)
    ensures ReadersOK(StartGet(s, id, key, snap))
  {
    hide ReaderOK;
    var t := StartGet(s, id, key, snap);
    forall r | r in t.readers
      ensures ReaderOK(Pinned(t, t.readers[r]), t.hist, InFlight(t), t.readers[r].snap, t.lastSeq)
    {
      if r == id {
        assert Pinned(t, t.readers[r]) == Current(s);
      } else {
        assert ReaderOK(Pinned(s, s.readers[r]), s.hist, InFlight(s), s.readers[r].snap, s.lastSeq);
      }
    }
  }

  lemma StartGetDisk(s: State, id: nat, key: Key, snap: nat)
    requires DiskInv(s) && id !in s.readers
    ensures DiskInv(StartGet(s, id, key, snap))
  {
    var t := StartGet(s, id, key, snap);
    hide OnDisk;
    forall n | Uses(t, n) ensures Uses(s, n) {
      if n in ReaderFiles(t.readers) {
        var r :| r in t.readers && n in t.readers[r].version;
        assert r != id ==> n in ReaderFiles(s.readers);
      }
    }
  }

  lemma StartGetQueue(s: State, id: nat, key: Key, snap: nat)
    requires QueueInv(s) && (snap in s.snapshots || snap == s.lastSeq)
    ensures QueueInv(StartGet(s, id, key, snap))
  {
    hide PhaseOK;
    assert Boundary(s.groups, snap);
  }

  lemma StartGetKeeps(s: State, id: nat, key: Key, snap: nat)
    requires Inv(s) && CanStartGet(s, id, snap)
    ensures Inv(StartGet(s, id, key, snap))
  {
    hide ViewInv, ReadersOK, JobInv, DiskInv, LogInv, QueueInv, MemtablesOK, ReaderOK;
    var t := StartGet(s, id, key, snap);
    SnapshotRange(s, snap);
    CurrentIsReadable(s, snap);
    ViewFacts(s);
    ViewFrame(s, t);
    StartGetReaders(s, id, key, snap);
    JobFrame(s, t);
    StartGetDisk(s, id, key, snap);
    LogFrame(s, t);
    StartGetQueue(s, id, key, snap);
  }

  lemma FewerReaders(s: State, id: nat, t: State)
    requires ReadersOK(s) && DiskInv(s) && QueueInv(s) && t == s.(readers := s.readers - {id}, otherWork := t.otherWork)
    ensures ReadersOK(t) && DiskInv(t) && QueueInv(t)
  {
    hide ReadersOK, DiskInv, QueueInv;
    FewerReadersOK(s, id, t);
    FewerReadersDisk(s, id, t);
    FewerReadersQueue(s, id, t);
  }

  lemma FewerReadersOK(s: State, id: nat, t: State)
    requires ReadersOK(s) && t == s.(readers := s.readers - {id}, otherWork := t.otherWork)
    ensures ReadersOK(t)
  {
    hide ReaderOK;
    forall r | r in t.readers
      ensures ReaderOK(Pinned(t, t.readers[r]), t.hist, InFlight(t), t.readers[r].snap, t.lastSeq)
    {
      assert ReaderOK(Pinned(s, s.readers[r]), s.hist, InFlight(s), s.readers[r].snap, s.lastSeq);
    }
  }

  lemma FewerReadersDisk(s: State, id: nat, t: State)
    requires DiskInv(s) && t == s.(readers := s.readers - {id}, otherWork := t.otherWork)
    ensures DiskInv(t)
  {
    forall n | n in ReaderFiles(t.readers) ensures n in ReaderFiles(s.readers) {
      var r :| r in t.readers && n in t.readers[r].version;
      assert r in s.readers && s.readers[r] == t.readers[r];
    }
    hide OnDisk;
    forall n ensures Uses(t, n) ==> Uses(s, n) {
    }
  }

  lemma FewerReadersQueue(s: State, id: nat, t: State)
    requires QueueInv(s) && t == s.(readers := s.readers - {id}, otherWork := t.otherWork)
    ensures QueueInv(t)
  {
  }

  lemma FinishGetKeeps(s: State, id: nat, charge: bool)
    requires Inv(s)
    ensures Inv(FinishGet(s, id, charge))
  {
    hide ViewInv, ReadersOK, JobInv, DiskInv, LogInv, QueueInv;
    var t := s.(readers := s.readers - {id}, otherWork := s.otherWork || charge);
    ViewFrame(s, t);
    FewerReaders(s, id, t);
    JobFrame(s, t);
    LogFrame(s, t);
    ScheduleKeeps(t);
  }

  // ----- requests -----

  lemma RequestManualKeeps(s: State)
    requires Inv(s)
    ensures Inv(RequestManual(s))
  {
    hide Core;
    var t := s.(manual := true);
    CoreFrame(s, t);
    ScheduleKeeps(t);
  }

  lemma CancelManualKeeps(s: State)
    requires Inv(s)
    ensures Inv(CancelManual(s))
  {
    hide Core;
    CoreFrame(s, CancelManual(s));
  }

  lemma ShutdownKeeps(s: State)
    requires Inv(s)
    ensures Inv(Shutdown(s))
  {
    hide Core;
    CoreFrame(s, Shutdown(s));
  }
}
