/** Whole recoveries: a finished replay, however it was cut into tables, leads through the actions
    of the state machine to an open database. */
module Opening {
  import opened Options
  import opened Versions
  import opened Engine
  import opened Invariant
  import opened Durability
  import opened Recovery
  import opened Actions
  import opened Runs

  /** A run that ends in `s`. */
  ghost predicate LeadsTo(states: seq<State>, actions: seq<Action>, s: State) {
    IsRun(states, actions) && states[|actions|] == s
  }

  lemma RunGoesOn(states: seq<State>, actions: seq<Action>, s: State, a: Action, t: State)
    requires LeadsTo(states, actions, s) && Step(s, a, t)
    ensures LeadsTo(states + [t], actions + [a], t)
  {
    hide Step, IsNew;
    var more, acts := states + [t], actions + [a];
    forall i | 0 <= i < |acts| ensures Step(more[i], acts[i], more[i + 1]) {
      if i < |actions| {
        assert more[i] == states[i] && acts[i] == actions[i] && more[i + 1] == states[i + 1];
      } else {
        assert more[i] == states[i] && acts[i] == a && more[i + 1] == t;
      }
    }
  }

  lemma BootStepIsStep(s: State, a: Action, t: State)
    requires BootStep(s, a, t)
    ensures Step(s, a, t)
  {
    hide BootStep, EngineStep;
  }

  // ----- one table after the other -----

  lemma {:induction false} RecordsPrefix(chunks: seq<Chunk>, k: nat)
    requires k <= |chunks|
    ensures Records(chunks[..k]) <= Records(chunks)
    decreases |chunks|
  {
    if k < |chunks| {
      var front := chunks[..|chunks| - 1];
      RecordsPrefix(front, k);
      assert front[..k] == chunks[..k];
    } else {
      assert chunks[..k] == chunks;
    }
  }

  /** Such a replay is what the state machine's recovery can do, one table after the other, and
      then it can make the new log. */
  lemma ReplayTakesTheSteps(s: State, chunks: seq<Chunk>, newLog: nat, k: nat)
    requires k <= |chunks| && s.boot == Replaying(chunks[..k]) && CanReplay(s.disk, chunks, newLog)
    ensures k < |chunks| ==>
      && CanBuildChunk(s, chunks[k])
      && var t := BuildChunk(s, chunks[k]); t.boot == Replaying(chunks[..k + 1]) && CanReplay(t.disk, chunks, newLog)
    ensures k == |chunks| ==> CanMakeLog(s, newLog)
  {
    hide Records, RecordsFrom;
    if k < |chunks| {
      assert chunks[..k] + [chunks[k]] == chunks[..k + 1];
      RecordsPrefix(chunks, k + 1);
      assert Records(chunks[..k + 1]) <= RecordsFrom(s.disk.logs, s.disk.manifest.log, newLog);
    } else {
      assert chunks[..k] == chunks;
    }
  }

  function Builds(chunks: seq<Chunk>): (acts: seq<Action>)
    ensures |acts| == |chunks| && forall i :: 0 <= i < |chunks| ==> acts[i] == DoBuildChunk(chunks[i])
  {
    seq(|chunks|, i requires 0 <= i < |chunks| => DoBuildChunk(chunks[i]))
  }

  /** What DB::Open does once recovery has begun. */
  function Reopening(chunks: seq<Chunk>, newLog: nat, otherWork: bool): seq<Action> {
    Builds(chunks) + [DoMakeLog(newLog)] + [DoCommitOpen] + [DoOpen(otherWork)]
  }

  lemma BuildStep(s: State, c: Chunk)
    requires CanBuildChunk(s, c)
    ensures Step(s, DoBuildChunk(c), BuildChunk(s, c))
    ensures BuildChunk(s, c).hist == s.hist && BuildChunk(s, c).disk.manifest == s.disk.manifest
  {
    hide CanBuildChunk, RecordEntries, Spares, Crash, Open, CommitOpen, EngineStep;
  }

  lemma BuildsMore(chunks: seq<Chunk>, k: nat)
    requires k < |chunks|
    ensures Builds(chunks[..k + 1]) == Builds(chunks[..k]) + [DoBuildChunk(chunks[k])]
  {
  }

  /** Building the first `k` tables of a replay. */
  lemma {:induction false} BuildsRun(states: seq<State>, actions: seq<Action>, s: State, chunks: seq<Chunk>,
                                     newLog: nat, k: nat)
    returns (states': seq<State>, t: State)
    requires LeadsTo(states, actions, s) && k <= |chunks|
    requires s.boot == Replaying([]) && CanReplay(s.disk, chunks, newLog)
    ensures LeadsTo(states', actions + Builds(chunks[..k]), t) && states <= states'
    ensures t.boot == Replaying(chunks[..k]) && CanReplay(t.disk, chunks, newLog)
    ensures t.hist == s.hist && t.disk.manifest == s.disk.manifest
    decreases k
  {
    hide LeadsTo, Step, CanReplay, BuildChunk, CanBuildChunk, CanMakeLog, Builds;
    if k == 0 {
      states', t := states, s;
      NoBuilds(actions, chunks);
    } else {
      var more, u := BuildsRun(states, actions, s, chunks, newLog, k - 1);
      var acts, c := actions + Builds(chunks[..k - 1]), chunks[k - 1];
      ReplayTakesTheSteps(u, chunks, newLog, k - 1);
      BuildStep(u, c);
      states', t := more + [BuildChunk(u, c)], BuildChunk(u, c);
      RunGoesOn(more, acts, u, DoBuildChunk(c), t);
      BuildsMore(chunks, k - 1);
      assert acts + [DoBuildChunk(c)] == actions + Builds(chunks[..k]);
    }
  }

  lemma NoBuilds(actions: seq<Action>, chunks: seq<Chunk>)
    ensures chunks[..0] == [] && actions + Builds(chunks[..0]) == actions
  {
  }

  // ----- the new log, the edit, and the open database -----

  lemma LogStep(s: State, newLog: nat)
    requires CanMakeLog(s, newLog)
    ensures var t := MakeLog(s, newLog);
      && Step(s, DoMakeLog(newLog), t) && t.boot == LogMade(s.boot.chunks, newLog)
      && t.hist == s.hist && t.disk.manifest == s.disk.manifest
  {
    hide EngineStep, CanReplay, CanBuildChunk, BuildChunk, Spares, Crash, Open, CommitOpen;
  }

  lemma CommitStep(s: State)
    requires s.boot.LogMade?
    ensures var t := CommitOpen(s);
      && Step(s, DoCommitOpen, t) && t.boot.Written? && t.hist == s.hist
      && t.disk.manifest == Reopened(s.disk, s.boot.chunks, s.boot.newLog)
  {
    hide EngineStep, CanReplay, CanBuildChunk, BuildChunk, CanMakeLog, MakeLog, Spares, Crash, Open, Reopened;
  }

  lemma OpenStep(s: State, otherWork: bool)
    requires s.boot.Written?
    ensures var t, m := Open(s, otherWork), s.disk.manifest;
      && Step(s, DoOpen(otherWork), t) && t.boot.Up? && t.hist == s.hist
      && t.version == m.version && t.logNum == m.log && t.nextFile == m.nextFile && t.lastSeq == m.lastSeq
  {
    hide EngineStep, CanReplay, CanBuildChunk, BuildChunk, CanMakeLog, MakeLog, Spares, Crash, CommitOpen, HasWork,
         Live;
    BootStepIsStep(s, DoOpen(otherWork), Open(s, otherWork));
  }

  /** `t` is the database opened on top of `s`, whose replay was cut into `chunks`. */
  ghost predicate OpenedFrom(s: State, chunks: seq<Chunk>, newLog: nat, t: State) {
    && t.boot.Up? && t.hist == s.hist && t.version == AddChunks(s.disk.manifest.version, chunks)
    && t.logNum == newLog && t.nextFile == newLog + 1 && t.lastSeq == LastSequence(s.disk, chunks)
  }

  lemma LastSteps(states: seq<State>, actions: seq<Action>, s: State, newLog: nat, otherWork: bool)
    returns (states': seq<State>, t: State)
    requires LeadsTo(states, actions, s) && CanMakeLog(s, newLog)
    ensures LeadsTo(states', actions + [DoMakeLog(newLog)] + [DoCommitOpen] + [DoOpen(otherWork)], t)
    ensures states <= states'
    ensures OpenedFrom(s, s.boot.chunks, newLog, t)
  {
    hide LeadsTo, Step, CanReplay, MakeLog, CommitOpen, Open, MaxSequence, AddChunks, Records;
    LogStep(s, newLog);
    var u := MakeLog(s, newLog);
    RunGoesOn(states, actions, s, DoMakeLog(newLog), u);
    CommitStep(u);
    var v := CommitOpen(u);
    RunGoesOn(states + [u], actions + [DoMakeLog(newLog)], u, DoCommitOpen, v);
    OpenStep(v, otherWork);
    t := Open(v, otherWork);
    RunGoesOn(states + [u] + [v], actions + [DoMakeLog(newLog)] + [DoCommitOpen], v, DoOpen(otherWork), t);
    states' := states + [u] + [v] + [t];
  }

  /** A recovery that has just begun can carry out any replay of its disk, and ends with an open
      database: its version has the replayed tables added, its log is the new one, and its history
      is what it was. */
  lemma ReplayOpens(states: seq<State>, actions: seq<Action>, s: State, chunks: seq<Chunk>, newLog: nat,
                    otherWork: bool)
    returns (states': seq<State>, t: State)
    requires LeadsTo(states, actions, s) && s.boot == Replaying([]) && CanReplay(s.disk, chunks, newLog)
    ensures LeadsTo(states', actions + Reopening(chunks, newLog, otherWork), t) && states <= states'
    ensures OpenedFrom(s, chunks, newLog, t)
  {
    hide LeadsTo, CanReplay, MaxSequence, AddChunks, Records, Reopening, Builds;
    var more, u := BuildsRun(states, actions, s, chunks, newLog, |chunks|);
    assert chunks[..|chunks|] == chunks;
    ReplayTakesTheSteps(u, chunks, newLog, |chunks|);
    states', t := LastSteps(more, actions + Builds(chunks), u, newLog, otherWork);
    SameActions(actions, chunks, newLog, otherWork);
  }

  lemma SameActions(actions: seq<Action>, chunks: seq<Chunk>, newLog: nat, otherWork: bool)
    ensures actions + Builds(chunks) + [DoMakeLog(newLog)] + [DoCommitOpen] + [DoOpen(otherWork)]
            == actions + Reopening(chunks, newLog, otherWork)
  {
  }

  // ----- recovery can always be done -----

  lemma {:induction false} NumbersAreBounded(numbers: set<nat>) returns (bound: nat)
    ensures forall n :: n in numbers ==> n < bound
    decreases numbers
  {
    if numbers == {} {
      bound := 0;
    } else {
      var n :| n in numbers;
      var rest := NumbersAreBounded(numbers - {n});
      bound := if n < rest then rest else n + 1;
      forall m | m in numbers ensures m < bound {
        assert m == n || m in numbers - {n};
      }
    }
  }

  lemma EndIsGood(states: seq<State>, actions: seq<Action>, s: State)
    requires LeadsTo(states, actions, s)
    ensures BootInv(s)
  {
    hide Step, IsNew, BootInv;
    RunKeeps(states, actions, |actions|);
  }

  lemma SomeReplay(s: State) returns (c: Chunk, newLog: nat)
    requires BootInv(s)
    ensures CanReplay(s.disk, [c], newLog)
  {
    hide BootInv, CanReplay, Unapplied, PersistedFloor;
    BootIsSound(s);
    var bound := NumbersAreBounded(s.disk.logs.Keys);
    c, newLog := ReplayExists(s.disk, s.hist + Unapplied(s), PersistedFloor(s), bound);
  }

  /** However the database died, recovery has a way to bring it up again, for example with one
      table that takes all the records. */
  lemma RecoveryIsPossible(states: seq<State>, actions: seq<Action>, s: State)
    returns (states': seq<State>, actions': seq<Action>, t: State)
    requires LeadsTo(states, actions, s) && s.boot.Down?
    ensures LeadsTo(states', actions', t) && states <= states' && actions <= actions'
    ensures t.boot.Up? && t.hist == s.hist
  {
    hide LeadsTo, Step, BootInv, CanReplay, BeginReplay, AddChunks, LastSequence, Reopening;
    EndIsGood(states, actions, s);
    var c, newLog := SomeReplay(s);
    BeginStep(s);
    var u := BeginReplay(s);
    RunGoesOn(states, actions, s, DoBeginReplay, u);
    states', t := ReplayOpens(states + [u], actions + [DoBeginReplay], u, [c], newLog, false);
    actions' := actions + [DoBeginReplay] + Reopening([c], newLog, false);
  }

  lemma BeginStep(s: State)
    requires s.boot.Down?
    ensures var t := BeginReplay(s);
      Step(s, DoBeginReplay, t) && t.boot == Replaying([]) && t.hist == s.hist && t.disk == s.disk
  {
    hide EngineStep, CanReplay, CanBuildChunk, BuildChunk, CanMakeLog, MakeLog, Spares, Crash, CommitOpen, Open;
  }
}
