/** The writer queue and the making of room, tied to the actions of the state machine. */
module WritePath {
  import opened Options
  import opened Entries
  import opened Versions
  import opened VersionEdits
  import opened Writers
  import opened Engine
  import opened Actions
  import opened Runs
  import opened WriteQueue
  import opened WriteRoom

  // ----- the queue -----

  /** The leader of a queue that is the machine's chooses a group the machine may begin with. */
  method Lead(q: Queue, ghost s: State) returns (n: nat, ops: seq<Op>)
    requires q.Valid() && q.Plain() == s.writers && AtHead(s) && !s.bgError && s.writers[0].batch.Some?
    modifies q`tmpBatch
    ensures CanBeginGroup(s, n)
    ensures q.Plain() == BeginGroup(s, n).writers && ops == GroupOps(BeginGroup(s, n).phase.members)
  {
    assert q.slots[0].writer == q.Plain()[0];
    n, ops := q.BuildBatchGroup();
  }

  /** The machine is about to end a group of `n`, with this outcome. */
  ghost predicate CanEnd(s: State, n: nat, ok: bool) {
    if ok then CanPublish(s) && |s.phase.members| == n else CanFinishFailed(s) && |s.phase.members| == n
  }

  ghost function Ended(s: State, n: nat, ok: bool): State
    requires CanEnd(s, n, ok)
  {
    if ok then Publish(s) else FinishFailed(s)
  }

  /** Dismissing the group leaves the machine's queue; the outcome it records is what the members
      are told. */
  method Leave(q: Queue, leader: Slot, last: Slot, ok: bool, ghost n: nat, ghost s: State)
    requires Distinct(q.slots) && q.Plain() == s.writers && CanEnd(s, n, ok)
    requires 0 < n <= |q.slots| && leader == q.slots[0] && last == q.slots[n - 1]
    modifies q, q.slots
    ensures q.Valid() && q.Plain() == Ended(s, n, ok).writers && q.slots == old(q.slots)[n..]
    ensures Ended(s, n, ok).groups == s.groups + [Group(s.lastSeq + 1, s.writers[..n], GroupOps(s.phase.members), ok)]
    ensures forall i :: 0 < i < n ==> old(q.slots)[i].done && old(q.slots)[i].ok == ok
    ensures forall w :: w in old(q.slots)[n..] ==> w.done == old(w.done) && w.ok == old(w.ok)
  {
    hide GroupOps;
    q.Dismiss(leader, last, ok, n);
  }

  // ----- the room -----

  /** While the head of the queue waits for room, nobody but a crash switches memtables or logs
      behind its back: whatever the other threads do amounts to one interlude. */
  lemma {:induction false} OthersPause(states: seq<State>, actions: seq<Action>, i: nat, j: nat)
    returns (w: Interlude)
    requires IsRun(states, actions) && i <= j < |states| && AtHead(states[i])
    requires forall m :: i <= m < j ==> states[m].boot.Up? && !ByHead(actions[m]) && !actions[m].DoCrash?
    ensures Paused(states[i], w, states[j]) && AtHead(states[j])
  {
    hide IsRun, Step, Level0Files;
    OthersLeaveAlone(states, actions, i, j);
    var s, t := states[i], states[j];
    w := Interlude(t.bgError, |Level0Files(t.version)|, s.imm.Some? && t.imm.None?, t.nextFile - s.nextFile);
  }

  lemma {:induction false} OthersLeaveAlone(states: seq<State>, actions: seq<Action>, i: nat, j: nat)
    requires IsRun(states, actions) && i <= j < |states| && AtHead(states[i])
    requires forall m :: i <= m < j ==> states[m].boot.Up? && !ByHead(actions[m]) && !actions[m].DoCrash?
    ensures PausedBy(states[i], states[j])
    decreases j - i
  {
    hide IsNew, Step, EngineStep;
    if i < j {
      EngineMoves(states[i], actions[i], states[i + 1]);
      OtherPauses(states[i], actions[i], states[i + 1]);
      OthersLeaveAlone(states, actions, i + 1, j);
    }
  }
}
