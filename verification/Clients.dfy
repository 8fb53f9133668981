/** What clients of the database can rely on, told in terms of what they did: the snapshots they
    took, the reads they started and the operations they wrote. */
module Clients {
  import opened Options
  import opened Entries
  import opened Versions
  import opened Writers
  import opened Engine
  import opened Invariant
  import opened Recovery
  import opened Actions
  import opened Runs
  import opened Guarantees

  // ----- snapshots -----

  /** To a read above all of a set of entries it makes no difference how far above. */
  lemma ReadAll(E: set<Entry>, k: Key, x: nat, y: nat)
    requires UniqueSeq(E) && forall e :: e in E ==> e.seqno <= x && e.seqno <= y
    ensures Read(E, k, x) == Read(E, k, y)
  {
    if HasMatch(E, k, x) {
      var n := Newest(E, k, x);
      assert IsNewest(E, k, y, n);
      ReadIs(E, k, x, n);
      ReadIs(E, k, y, n);
    } else {
      assert forall e :: e in E && Matches(e, k, y) ==> Matches(e, k, x);
    }
  }

  lemma TakenAtLast(s: State, a: Action, t: State)
    requires Step(s, a, t) && a.DoTakeSnapshot?
    ensures s.boot.Up? && t.snapshots == s.snapshots + [s.lastSeq]
  {
    hide WriterStep, FlushStep, CompactionStep, BootStep;
    NotAReader(s, a, t);
    hide ReaderStep;
    if BootStep(s, a, t) {
      NotABoot(s, a, t);
    } else {
      IsAReader(s, a, t);
    }
  }

  lemma IsAReader(s: State, a: Action, t: State)
    requires ReaderStep(s, a, t) && a.DoTakeSnapshot?
    ensures t.snapshots == s.snapshots + [s.lastSeq]
  {
  }

  lemma NotABoot(s: State, a: Action, t: State)
    requires BootStep(s, a, t)
    ensures !a.DoTakeSnapshot? && !a.DoReleaseSnapshot? && !a.DoStartGet? && !a.DoEnqueue? && !a.DoPublish?
  {
  }

  /** A snapshot sees what was published when it was taken, all of it and nothing else, as long as
      it lives; the snapshots taken before it stay as they were. */
  lemma SnapshotSeesPublished(states: seq<State>, actions: seq<Action>, i: nat, j: nat, k: Key)
    requires IsRun(states, actions) && i < j < |states| && actions[i].DoTakeSnapshot?
    ensures |states[i + 1].snapshots| == |states[i].snapshots| + 1 && states[i].snapshots <= states[i + 1].snapshots
    ensures var x := states[i + 1].snapshots[|states[i].snapshots|];
      && (forall h :: h in states[i].hist ==> h.seqno <= x)
      && ((forall m :: i < m <= j ==> x in states[m].snapshots) ==>
            Get(Current(states[j]), k, x, states[j].nextFile) == Read(states[i].hist, k, states[i].lastSeq))
  {
    hide Step, IsNew, Inv, BootInv, Get, Read;
    var s, t := states[i], states[i + 1];
    TakenAtLast(s, actions[i], t);
    RunKeeps(states, actions, i);
    RunKeeps(states, actions, i + 1);
    InUse(s);
    InUse(t);
    HistoryBelowLast(s);
    HistoryStep(s, actions[i], t);
    UniqueHistory(s);
    UniqueHistory(t);
    var x := t.snapshots[|s.snapshots|];
    if forall m :: i < m <= j ==> x in states[m].snapshots {
      SnapshotIsStable(states, actions, i + 1, j, x, k);
      ReadNow(t, k, x);
      SettledRead(s.hist, t.hist, k, x, s.lastSeq);
      ReadAll(s.hist, k, x, s.lastSeq);
    }
  }

  /** What an open database does to those who use it, in one action short of dying. */
  lemma OneStep(states: seq<State>, actions: seq<Action>, i: nat)
    requires IsRun(states, actions) && i < |actions| && states[i].boot.Up? && !actions[i].DoCrash?
    ensures var s, a, t := states[i], actions[i], states[i + 1];
      t.boot.Up? && SnapshotsMove(s, a, t) && ReadsMove(s, a, t) && QueueMoves(s, a, t)
  {
    hide Step, IsNew, EngineStep, SnapshotsMove, ReadsMove, QueueMoves;
    EngineMoves(states[i], actions[i], states[i + 1]);
    UsersStep(states[i], actions[i], states[i + 1]);
    EngineHistory(states[i], actions[i], states[i + 1]);
  }

  /** Releasing a snapshot takes away that one and no other; nothing else takes any away. */
  lemma SnapshotsLeaveByRelease(states: seq<State>, actions: seq<Action>, i: nat)
    requires IsRun(states, actions) && i < |actions| && states[i].boot.Up? && !actions[i].DoCrash?
    ensures var s, a, t := states[i], actions[i], states[i + 1];
      if a.DoReleaseSnapshot? then
        a.i < |s.snapshots| && multiset(t.snapshots) + multiset{s.snapshots[a.i]} == multiset(s.snapshots)
      else multiset(s.snapshots) <= multiset(t.snapshots)
  {
    hide Step, IsNew, ReadsMove, QueueMoves;
    OneStep(states, actions, i);
    Moved(states[i].snapshots, states[i + 1].snapshots, if actions[i].DoReleaseSnapshot? then actions[i].i else 0);
  }

  lemma Moved(xs: seq<nat>, ys: seq<nat>, i: nat)
    ensures i < |xs| && ys == xs[..i] + xs[i + 1..] ==> multiset(ys) + multiset{xs[i]} == multiset(xs)
    ensures xs <= ys ==> multiset(xs) <= multiset(ys)
  {
    if i < |xs| {
      assert xs == xs[..i] + [xs[i]] + xs[i + 1..];
    }
    if xs <= ys {
      assert ys == xs + ys[|xs|..];
    }
  }

  // ----- reads -----

  lemma {:induction false} ReadGoesOn(states: seq<State>, actions: seq<Action>, i: nat, j: nat, id: nat)
    requires IsRun(states, actions) && i <= j < |states| && states[i].boot.Up? && id in states[i].readers
    requires forall m :: i <= m < j ==> !actions[m].DoCrash? && !(actions[m].DoFinishGet? && actions[m].id == id)
    ensures forall m :: i <= m <= j ==>
              states[m].boot.Up? && id in states[m].readers && states[m].readers[id] == states[i].readers[id]
    decreases j
  {
    hide Step, IsNew, SnapshotsMove, QueueMoves;
    if i < j {
      ReadGoesOn(states, actions, i, j - 1, id);
      OneStep(states, actions, j - 1);
    }
  }

  lemma StartsAGet(s: State, a: Action, t: State)
    requires Step(s, a, t) && a.DoStartGet?
    ensures EngineStep(s, a, t) && s.boot.Up?
  {
    hide WriterStep, FlushStep, CompactionStep, BootStep, ReaderStep;
    if BootStep(s, a, t) {
      NotABoot(s, a, t);
    }
  }

  /** A Get asks for its own key, at the snapshot it was given or else at LastSequence, and until
      it is finished it answers from the history as it was when it started. */
  lemma GetAnswersItsQuestion(states: seq<State>, actions: seq<Action>, i: nat, j: nat)
    requires IsRun(states, actions) && i < j < |states| && actions[i].DoStartGet?
    requires forall m :: i < m < j ==>
               !actions[m].DoCrash? && !(actions[m].DoFinishGet? && actions[m].id == actions[i].id)
    ensures var s, a := states[i], actions[i];
      && (a.snap in s.snapshots || a.snap == s.lastSeq)
      && a.id in states[j].readers && GetAnswer(states[j], a.id) == Read(s.hist, a.key, a.snap)
  {
    hide Step, IsNew, Inv, BootInv, GetAnswer, Read, SnapshotsMove, QueueMoves;
    var s, a, t := states[i], actions[i], states[i + 1];
    StartsAGet(s, a, t);
    OneStep(states, actions, i);
    ReadGoesOn(states, actions, i + 1, j, a.id);
    GetReadsItsBeginning(states, actions, i + 1, j, a.id);
    RunKeeps(states, actions, i);
    RunKeeps(states, actions, i + 1);
    InUse(s);
    InUse(t);
    HistoryStep(s, a, t);
    UniqueHistory(s);
    UniqueHistory(t);
    SettledRead(s.hist, t.hist, a.key, a.snap, s.lastSeq);
  }

  // ----- writes -----

  lemma {:induction false} QueueGoesOnward(states: seq<State>, actions: seq<Action>, i: nat, j: nat)
    requires IsRun(states, actions) && i <= j < |states| && states[i].boot.Up?
    requires forall m :: i <= m < j ==> !actions[m].DoCrash?
    ensures states[i].arrivals <= states[j].arrivals && states[i].groups <= states[j].groups && states[j].boot.Up?
    decreases j
  {
    hide Step, IsNew, SnapshotsMove, ReadsMove;
    if i < j {
      QueueGoesOnward(states, actions, i, j - 1);
      OneStep(states, actions, j - 1);
    }
  }

  /** No writer is forgotten: whoever joined the queue is, until the database dies, among those
      that have left it or those that still wait, at the place it had when it came. */
  lemma WriterIsNotForgotten(states: seq<State>, actions: seq<Action>, i: nat, j: nat)
    requires IsRun(states, actions) && i < j < |states| && actions[i].DoEnqueue?
    requires forall m :: i < m < j ==> !actions[m].DoCrash?
    ensures var all, place := Completed(states[j].groups) + states[j].writers, |states[i].arrivals|;
      place < |all| && all[place] == actions[i].w
  {
    hide Step, IsNew, Inv, BootInv, SnapshotsMove, ReadsMove;
    var s, a, t := states[i], actions[i], states[i + 1];
    JoinsTheQueue(s, a, t);
    OneStep(states, actions, i);
    QueueGoesOnward(states, actions, i + 1, j);
    RunKeeps(states, actions, j);
    InUse(states[j]);
    ArrivalsAccounted(states[j]);
  }

  lemma JoinsTheQueue(s: State, a: Action, t: State)
    requires Step(s, a, t) && a.DoEnqueue?
    ensures s.boot.Up?
  {
    hide WriterStep, FlushStep, CompactionStep, BootStep, ReaderStep;
    if BootStep(s, a, t) {
      NotABoot(s, a, t);
    }
  }

  lemma ArrivalsAccounted(s: State)
    requires Inv(s)
    ensures s.arrivals == Completed(s.groups) + s.writers
  {
    hide ViewInv, JobInv, DiskInv, LogInv, ReadersOK, ScheduledOK, BoundariesOK, PhaseOK, Chained;
  }

  // ----- what a write leaves to be read -----

  /** Operation `p` of the batch of member `w`. */
  predicate IsOp(members: seq<Writer>, w: nat, p: nat) {
    w < |members| && members[w].batch.Some? && p < |members[w].batch.value.ops|
  }

  predicate After(w': nat, p': nat, w: nat, p: nat) {
    w < w' || (w == w' && p < p')
  }

  /** No later operation of the group is on the same key. */
  ghost predicate LastOnItsKey(members: seq<Writer>, w: nat, p: nat)
    requires IsOp(members, w, p)
  {
    forall w': nat, p': nat :: IsOp(members, w', p') && After(w', p', w, p) ==>
      members[w'].batch.value.ops[p'].key != members[w].batch.value.ops[p].key
  }

  ghost predicate Writes(members: seq<Writer>, k: Key) {
    exists w: nat, p: nat :: IsOp(members, w, p) && members[w].batch.value.ops[p].key == k
  }

  /** The place of an operation among all those of its group. */
  function Place(members: seq<Writer>, w: nat, p: nat): nat
    requires w <= |members|
  {
    |GroupOps(members[..w])| + p
  }

  lemma {:induction false} OpAtItsPlace(members: seq<Writer>, w: nat, p: nat)
    requires IsOp(members, w, p)
    ensures Place(members, w, p) < |GroupOps(members)|
    ensures GroupOps(members)[Place(members, w, p)] == members[w].batch.value.ops[p]
    decreases |members|
  {
    var front := members[..|members| - 1];
    if w < |front| {
      assert front[..w] == members[..w];
      OpAtItsPlace(front, w, p);
    }
  }

  lemma {:induction false} PlaceHasOp(members: seq<Writer>, x: nat) returns (w: nat, p: nat)
    requires x < |GroupOps(members)|
    ensures IsOp(members, w, p) && x == Place(members, w, p)
    decreases |members|
  {
    var front := members[..|members| - 1];
    if x < |GroupOps(front)| {
      w, p := PlaceHasOp(front, x);
      assert front[..w] == members[..w];
    } else {
      w, p := |front|, x - |GroupOps(front)|;
    }
  }

  lemma {:induction false} PlacesAscend(members: seq<Writer>, w: nat, p: nat, n: nat)
    requires IsOp(members, w, p) && w < n <= |members|
    ensures Place(members, w, p) < |GroupOps(members[..n])|
    decreases n
  {
    assert members[..n][..n - 1] == members[..n - 1];
    if w < n - 1 {
      PlacesAscend(members, w, p, n - 1);
    }
  }

  lemma {:induction false} GroupsAscend(groups: seq<Group>, start: nat, end: nat, i: nat, j: nat)
    requires Chained(groups, start, end) && i < |groups|
    ensures start < groups[i].base && groups[i].base + |groups[i].ops| <= end + 1
    ensures i < j < |groups| ==> groups[i].base + |groups[i].ops| <= groups[j].base
    decreases |groups|
  {
    var last := |groups| - 1;
    if i < last {
      GroupsAscend(groups[..last], start, groups[last].base - 1, i, if j < last then j else i);
      assert j < last ==> groups[..last][j] == groups[j];
    }
  }

  lemma GroupFacts(s: State, i: nat)
    requires Inv(s) && i < |s.groups|
    ensures Chained(s.groups, s.seqAtOpen, s.lastSeq) && s.hist == s.histAtOpen + Applied(s.groups)
    ensures forall h :: h in s.histAtOpen ==> h.seqno <= s.seqAtOpen
    ensures s.groups[i].ok ==> s.groups[i].ops == GroupOps(s.groups[i].members)
  {
    hide ViewInv, JobInv, DiskInv, LogInv, ReadersOK, ScheduledOK, BoundariesOK, PhaseOK, Chained;
    assert GroupOK(s.groups[i], s.durable);
  }

  /** Where an entry that some group applied comes from. */
  lemma AppliedFrom(s: State, n: Entry) returns (g: nat, w: nat, p: nat)
    requires Inv(s) && n in Applied(s.groups)
    ensures g < |s.groups| && s.groups[g].ok && IsOp(s.groups[g].members, w, p)
    ensures n.key == s.groups[g].members[w].batch.value.ops[p].key
    ensures n.seqno == s.groups[g].base + Place(s.groups[g].members, w, p) < s.groups[g].base + |s.groups[g].ops|
  {
    hide Inv, Place;
    var group :| group in s.groups && group.ok && n in EntriesAt(group.base, group.ops);
    g :| 0 <= g < |s.groups| && s.groups[g] == group;
    var x :| 0 <= x < |group.ops| && n == EntryAt(group.base + x, group.ops[x]);
    GroupFacts(s, g);
    w, p := PlaceHasOp(group.members, x);
    OpAtItsPlace(group.members, w, p);
  }

  lemma WritesIt(members: seq<Writer>, w: nat, p: nat)
    requires IsOp(members, w, p)
    ensures Writes(members, members[w].batch.value.ops[p].key)
  {
  }

  lemma InItsGroup(members: seq<Writer>, w: nat, p: nat, w': nat, p': nat)
    requires IsOp(members, w, p) && IsOp(members, w', p') && LastOnItsKey(members, w, p)
    requires members[w'].batch.value.ops[p'].key == members[w].batch.value.ops[p].key
    ensures Place(members, w', p') <= Place(members, w, p)
  {
    assert !After(w', p', w, p);
    if w' < w {
      PlacesAscend(members, w', p', w);
    }
  }

  /** The entry of an operation is published, and newest on its key if no later operation is. */
  lemma NothingNewer(s: State, g: nat, w: nat, p: nat)
    requires Inv(s) && g < |s.groups| && s.groups[g].ok && IsOp(s.groups[g].members, w, p)
    requires LastOnItsKey(s.groups[g].members, w, p)
    requires var k := s.groups[g].members[w].batch.value.ops[p].key;
      forall h :: g < h < |s.groups| && s.groups[h].ok ==> !Writes(s.groups[h].members, k)
    ensures var op := s.groups[g].members[w].batch.value.ops[p];
      var seqno := s.groups[g].base + Place(s.groups[g].members, w, p);
      && Entry(op.key, seqno, op.kind, op.value) in s.hist
      && forall n :: n in s.hist && n.key == op.key ==> n.seqno <= seqno
  {
    hide Inv, Place, LastOnItsKey;
    var members := s.groups[g].members;
    var op, x := members[w].batch.value.ops[p], Place(members, w, p);
    GroupFacts(s, g);
    OpAtItsPlace(members, w, p);
    var e := EntryAt(s.groups[g].base + x, s.groups[g].ops[x]);
    assert e in EntriesAt(s.groups[g].base, s.groups[g].ops);
    assert e in Applied(s.groups);
    hide Applied, EntriesAt, EntryAt;
    forall n | n in s.hist && n.key == op.key ensures n.seqno <= s.groups[g].base + x {
      GroupsAscend(s.groups, s.seqAtOpen, s.lastSeq, g, g);
      if n in Applied(s.groups) {
        var g', w', p' := AppliedFrom(s, n);
        WritesIt(s.groups[g'].members, w', p');
        if g' < g {
          GroupsAscend(s.groups, s.seqAtOpen, s.lastSeq, g', g);
        } else if g' == g {
          InItsGroup(members, w, p, w', p');
        }
      }
    }
  }

  /** An acknowledged write can be read back: the last operation on its key, counted in the order
      of the groups, of the members of a group and of the operations of a batch, is what a Get
      answers -- its value, or that there is none if it was a deletion -- after any number of
      crashes, until another operation on the key is published. */
  lemma WriteIsReadBack(states: seq<State>, actions: seq<Action>, i: nat, j: nat, g: nat, w: nat, p: nat)
    requires IsRun(states, actions) && i <= j < |states| && states[j].boot.Up?
    requires g < |states[i].groups| && states[i].groups[g].ok && IsOp(states[i].groups[g].members, w, p)
    requires LastOnItsKey(states[i].groups[g].members, w, p)
    requires var k := states[i].groups[g].members[w].batch.value.ops[p].key;
      && (forall h :: g < h < |states[i].groups| && states[i].groups[h].ok ==> !Writes(states[i].groups[h].members, k))
      && (forall n :: n in states[j].hist - states[i].hist ==> n.key != k)
    ensures var op, t := states[i].groups[g].members[w].batch.value.ops[p], states[j];
      Get(Current(t), op.key, t.lastSeq, t.nextFile) == if op.kind == Deletion then NotFound else Found(op.value)
  {
    hide Step, IsNew, Inv, BootInv, Get, Read, Place, LastOnItsKey, Writes;
    var s, t := states[i], states[j];
    RunKeeps(states, actions, i);
    RunKeeps(states, actions, j);
    InUse(s);
    InUse(t);
    NothingNewer(s, g, w, p);
    HistoryGrows(states, actions, i, j);
    HistoryBelowLast(t);
    UniqueHistory(t);
    var op := s.groups[g].members[w].batch.value.ops[p];
    var e := Entry(op.key, s.groups[g].base + Place(s.groups[g].members, w, p), op.kind, op.value);
    assert IsNewest(t.hist, op.key, t.lastSeq, e);
    ReadIs(t.hist, op.key, t.lastSeq, e);
    ReadNow(t, op.key, t.lastSeq);
  }
}
