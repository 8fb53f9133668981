/** Making room for a write: back off, wait, or switch to a new memtable and a new log.

    Whenever the writer sleeps or waits, the mutex is free and other threads run.  What they may
    have done in the meantime comes from `world`, one interlude per pause; a call that outlives
    `world` is still waiting.  The room is the state machine's: a call goes through states of the
    machine, each of which other threads or the machine's own switch have made from the last.
 */
module WriteRoom {
  import opened Options
  import opened Versions
  import opened Engine

  /** Other threads may report a background error, change level 0, finish the flush of the
      immutable memtable, and take file numbers.  None of them touches the memtable itself. */
  datatype Interlude = Interlude(error: bool, level0: nat, flushed: bool, filesTaken: nat)

  datatype Outcome = HasRoom | Failed | StillWaiting

  // ----- the state machine around a waiting writer -----

  /** One interlude takes the machine from `s` to `t`. */
  ghost predicate Paused(s: State, w: Interlude, t: State) {
    && PausedBy(s, t)
    && t.bgError == (s.bgError || w.error) && |Level0Files(t.version)| == w.level0
    && t.imm == (if w.flushed then None else s.imm) && t.nextFile == s.nextFile + w.filesTaken
  }

  /** The machine goes from `s` to `t`: others ran, or the memtable was switched. */
  ghost predicate Moves(s: State, t: State) {
    PausedBy(s, t) || (CanSwitch(s) && t == Switch(s))
  }

  ghost predicate IsPath(path: seq<State>) {
    forall i :: 0 <= i < |path| - 1 ==> Moves(path[i], path[i + 1])
  }

  lemma PathGrows(path: seq<State>, t: State)
    requires path != [] && IsPath(path) && Moves(path[|path| - 1], t)
    ensures IsPath(path + [t])
  {
    hide Moves;
    var more := path + [t];
    forall i | 0 <= i < |more| - 1 ensures Moves(more[i], more[i + 1]) {
      assert more[i] == path[i];
      assert i < |path| - 1 ==> more[i + 1] == path[i + 1];
    }
  }

  lemma SwitchMoves(s: State)
    requires CanSwitch(s)
    ensures Moves(s, Switch(s)) && AtHead(Switch(s))
    ensures Switch(s).version == s.version && Switch(s).bgError == s.bgError && Switch(s).logNum == s.nextFile
    ensures Switch(s).mem == s.mem + 1 && Switch(s).imm == Some(s.mem) && Switch(s).nextFile == s.nextFile + 1
  {
    hide HasWork, Level0Files;
  }

  /** `others` says where the machine goes in each pause, from any state it may be in. */
  ghost predicate Fits(world: seq<Interlude>, others: seq<State -> State>) {
    |others| == |world| && forall k, s :: 0 <= k < |world| ==> Paused(s, world[k], others[k](s))
  }

  // ----- what a call has done so far -----

  datatype Gauge = Gauge(bgError: bool, level0: nat, mem: nat, usage: nat, imm: Option<nat>, logNum: nat,
                         nextFile: nat, sleeps: nat, switches: nat)

  function AfterPause(g: Gauge, w: Interlude): Gauge {
    g.(bgError := g.bgError || w.error, level0 := w.level0, imm := if w.flushed then None else g.imm,
       nextFile := g.nextFile + w.filesTaken)
  }

  function AfterSwitch(g: Gauge): Gauge {
    g.(logNum := g.nextFile, nextFile := g.nextFile + 1, imm := Some(g.mem), mem := g.mem + 1, usage := 0,
       switches := g.switches + 1)
  }

  ghost predicate NeverFlushed(world: seq<Interlude>) {
    forall i :: 0 <= i < |world| ==> !world[i].flushed
  }

  ghost predicate NeverBelowStop(world: seq<Interlude>) {
    forall i :: 0 <= i < |world| ==> world[i].level0 >= 12
  }

  /** How a call that began with `was` may have come to `now`. */
  ghost predicate SoFar(was: Gauge, now: Gauge, force0: bool, force: bool, allowDelay: bool, used: nat,
                        world: seq<Interlude>, bufferSize: nat) {
    && used <= |world| && was.nextFile <= now.nextFile
    && (allowDelay ==> now.sleeps == was.sleeps && !force0)
    && now.sleeps <= was.sleeps + (if force0 then 0 else 1)
    && (if now.switches == was.switches
        then force == force0 && now.mem == was.mem && now.usage == was.usage && now.logNum == was.logNum
        else now.switches == was.switches + 1 && !force && now.mem == was.mem + 1 && now.usage == 0
             && was.nextFile <= now.logNum)
    && (!force0 && was.usage <= bufferSize ==> now.switches == was.switches)
    && (was.bgError ==> now.bgError && used == 0 && now.sleeps == was.sleeps && now.switches == was.switches)
    && (used == 0 && now.switches == was.switches ==> now == was && allowDelay == !force0)
    && (!force0 && was.level0 >= L0_SLOWDOWN ==>
          if used > 0 then was.bgError || now.sleeps == was.sleeps + 1 else now.switches == was.switches)
    && (!force0 && was.level0 < L0_SLOWDOWN && was.usage <= bufferSize ==> used == 0)
    && (was.imm.Some? && NeverFlushed(world) ==> now.switches == was.switches && now.imm == was.imm)
    && (was.level0 >= L0_STOP && NeverBelowStop(world) ==> now.switches == was.switches && now.level0 >= L0_STOP)
  }

  // ----- the machine's states along a call -----

  /** The gauge is the one of `s`. */
  ghost predicate Mirrors(g: Gauge, s: State) {
    && g.bgError == s.bgError && g.level0 == |Level0Files(s.version)| && g.mem == s.mem
    && g.imm == s.imm && g.logNum == s.logNum && g.nextFile == s.nextFile
  }

  /** The machine went along `path`, and its last state is the gauge's. */
  ghost predicate Tracks(path: seq<State>, g: Gauge) {
    path != [] && Mirrors(g, path[|path| - 1]) && AtHead(path[|path| - 1]) && IsPath(path)
  }

  lemma PauseTracks(path: seq<State>, g: Gauge, w: Interlude, t: State, sleeps: nat)
    requires Tracks(path, g) && Paused(path[|path| - 1], w, t)
    ensures Tracks(path + [t], AfterPause(g, w).(sleeps := sleeps))
  {
    hide IsPath, Level0Files, CanSwitch;
    PathGrows(path, t);
  }

  lemma SwitchTracks(path: seq<State>, g: Gauge)
    requires Tracks(path, g) && !g.bgError && g.imm.None? && g.level0 < L0_STOP
    ensures CanSwitch(path[|path| - 1]) && Tracks(path + [Switch(path[|path| - 1])], AfterSwitch(g))
  {
    hide IsPath, Moves, Switch, Level0Files;
    SwitchMoves(path[|path| - 1]);
    PathGrows(path, Switch(path[|path| - 1]));
  }

  /** Where the loop may stop, and with what outcome. */
  predicate Stops(now: Gauge, force: bool, allowDelay: bool, used: nat, world: seq<Interlude>, bufferSize: nat,
                  newFileOk: bool, r: Outcome) {
    var delayed, full := allowDelay && now.level0 >= L0_SLOWDOWN, force || now.usage > bufferSize;
    match r
    case HasRoom => !now.bgError && !delayed && !full
    case Failed => now.bgError || (!newFileOk && !delayed && full && now.imm.None? && now.level0 < L0_STOP)
    case StillWaiting =>
      used == |world| && !now.bgError && (delayed || (full && (now.imm.Some? || now.level0 >= L0_STOP)))
  }

  /** What is promised of a call that takes a room from `was` to `now`. */
  ghost predicate Keeps(was: Gauge, now: Gauge, force0: bool, used: nat, world: seq<Interlude>, bufferSize: nat,
                        newFileOk: bool, r: Outcome) {
    && (r.HasRoom? ==> !now.bgError && now.usage <= bufferSize)
    && (r.Failed? ==> now.bgError || !newFileOk)
    && (r.StillWaiting? ==> used == |world|)
    // a call sleeps at most once, and a forced one never does
    && now.sleeps <= was.sleeps + (if force0 then 0 else 1)
    // it switches memtables at most once; a forced one that succeeds has switched
    && was.switches <= now.switches <= was.switches + 1
    && (force0 && r.HasRoom? ==> now.switches == was.switches + 1)
    && (now.switches == was.switches ==> now.mem == was.mem && now.usage == was.usage && now.logNum == was.logNum)
    && (now.switches > was.switches ==> now.mem == was.mem + 1 && now.usage == 0 && was.nextFile <= now.logNum)
    // and it only does so when it must
    && (!force0 && was.usage <= bufferSize ==> now.switches == was.switches)
    // an error is reported at once; with room and few files in level 0 nothing happens at all
    && (was.bgError ==> r.Failed? && used == 0 && now.sleeps == was.sleeps && now.switches == was.switches)
    && (!was.bgError && !force0 && was.level0 < 8 && was.usage <= bufferSize ==>
          r.HasRoom? && used == 0 && now.sleeps == was.sleeps)
    // a crowded level 0 delays every write that is not forced
    && (!was.bgError && !force0 && was.level0 >= 8 && world != [] ==> now.sleeps == was.sleeps + 1)
    // no switch while the previous memtable is being flushed, or while level 0 is full
    && (was.imm.Some? && NeverFlushed(world) ==> now.switches == was.switches)
    && (was.level0 >= 12 && NeverBelowStop(world) ==> now.switches == was.switches)
  }

  /** `path` leads the machine from `s` to a state with the room `now`, by one step for each of
      `pauses` and one for each switch since `was`. */
  ghost predicate Leads(path: seq<State>, s: State, was: Gauge, now: Gauge, pauses: nat) {
    Tracks(path, now) && path[0] == s && |path| == 1 + pauses + (now.switches - was.switches)
  }

  lemma LeadsOn(path: seq<State>, s: State, was: Gauge, now: Gauge, pauses: nat, t: State, now': Gauge)
    requires Leads(path, s, was, now, pauses) && Tracks(path + [t], now')
    ensures now'.switches == now.switches ==> Leads(path + [t], s, was, now', pauses + 1)
    ensures now'.switches == now.switches + 1 ==> Leads(path + [t], s, was, now', pauses)
  {
    hide Tracks;
    assert path != [] by {
      TracksEnd(path, now);
    }
    assert (path + [t])[0] == path[0];
  }

  lemma TracksEnd(path: seq<State>, g: Gauge)
    requires Tracks(path, g)
    ensures path != [] && AtHead(path[|path| - 1]) && Mirrors(g, path[|path| - 1])
  {
  }

  /** The loop's invariant. */
  ghost predicate Course(path: seq<State>, s: State, was: Gauge, now: Gauge, force0: bool, force: bool,
                         allowDelay: bool, used: nat, world: seq<Interlude>, bufferSize: nat) {
    && SoFar(was, now, force0, force, allowDelay, used, world, bufferSize)
    && Leads(path, s, was, now, used)
  }

  lemma CourseStart(s: State, was: Gauge, force0: bool, world: seq<Interlude>, bufferSize: nat)
    requires Mirrors(was, s) && AtHead(s)
    ensures Course([s], s, was, was, force0, force0, !force0, 0, world, bufferSize)
  {
    hide Mirrors, AtHead;
  }

  lemma SleepKeepsCourse(path: seq<State>, s: State, was: Gauge, now: Gauge, force0: bool, force: bool, used: nat,
                         world: seq<Interlude>, bufferSize: nat, others: seq<State -> State>)
    returns (t: State)
    requires Course(path, s, was, now, force0, force, true, used, world, bufferSize) && Fits(world, others)
    requires used < |world| && !now.bgError && now.level0 >= L0_SLOWDOWN
    ensures Course(path + [t], s, was, AfterPause(now, world[used]).(sleeps := now.sleeps + 1), force0, force, false,
                   used + 1, world, bufferSize)
  {
    hide Tracks, Paused;
    TracksEnd(path, now);
    t := others[used](path[|path| - 1]);
    PauseTracks(path, now, world[used], t, now.sleeps + 1);
    LeadsOn(path, s, was, now, used, t, AfterPause(now, world[used]).(sleeps := now.sleeps + 1));
    hide Leads, Fits;
  }

  lemma WaitKeepsCourse(path: seq<State>, s: State, was: Gauge, now: Gauge, force0: bool, force: bool, allowDelay: bool,
                        used: nat, world: seq<Interlude>, bufferSize: nat, others: seq<State -> State>)
    returns (t: State)
    requires Course(path, s, was, now, force0, force, allowDelay, used, world, bufferSize) && Fits(world, others)
    requires used < |world| && !now.bgError && (force || now.usage > bufferSize)
    requires !(allowDelay && now.level0 >= L0_SLOWDOWN) && (now.imm.Some? || now.level0 >= L0_STOP)
    ensures Course(path + [t], s, was, AfterPause(now, world[used]), force0, force, allowDelay, used + 1, world,
                   bufferSize)
  {
    hide Tracks, Paused;
    TracksEnd(path, now);
    t := others[used](path[|path| - 1]);
    PauseTracks(path, now, world[used], t, now.sleeps);
    LeadsOn(path, s, was, now, used, t, AfterPause(now, world[used]));
    hide Leads, Fits;
  }

  lemma SwitchKeepsCourse(path: seq<State>, s: State, was: Gauge, now: Gauge, force0: bool, force: bool,
                          allowDelay: bool, used: nat, world: seq<Interlude>, bufferSize: nat)
    returns (t: State)
    requires Course(path, s, was, now, force0, force, allowDelay, used, world, bufferSize)
    requires !now.bgError && (force || now.usage > bufferSize)
    requires !(allowDelay && now.level0 >= L0_SLOWDOWN) && now.imm.None? && now.level0 < L0_STOP
    ensures Course(path + [t], s, was, AfterSwitch(now), force0, false, allowDelay, used, world, bufferSize)
    ensures now.switches == was.switches
  {
    hide Tracks;
    TracksEnd(path, now);
    SwitchTracks(path, now);
    t := Switch(path[|path| - 1]);
    LeadsOn(path, s, was, now, used, t, AfterSwitch(now));
    hide Leads, CanSwitch, Switch;
  }

  lemma CourseEnds(path: seq<State>, s: State, was: Gauge, now: Gauge, force0: bool, force: bool, allowDelay: bool,
                   used: nat, world: seq<Interlude>, bufferSize: nat, newFileOk: bool, r: Outcome)
    requires Course(path, s, was, now, force0, force, allowDelay, used, world, bufferSize)
    requires Stops(now, force, allowDelay, used, world, bufferSize, newFileOk, r)
    ensures Keeps(was, now, force0, used, world, bufferSize, newFileOk, r) && Leads(path, s, was, now, used)
  {
    hide Leads;
  }

  class Room {
    const bufferSize: nat
    var bgError: bool
    var level0: nat
    var mem: nat             // which memtable is current
    var usage: nat           // its approximate memory usage
    var imm: Option<nat>
    var logNum: nat
    var nextFile: nat
    ghost var flushed: seq<nat>   // memtables whose flush has finished
    ghost var sleeps: nat
    ghost var switches: nat

    /** Every memtable before the current one has been flushed or is the one being flushed, so
        none was overwritten while it waited. */
    ghost predicate Valid()
      reads `imm, `mem, `flushed, `logNum, `nextFile
    {
      && (imm.Some? ==> imm.value < mem)
      && (forall m: nat :: m < mem ==> m in flushed || imm == Some(m))
      && logNum < nextFile
    }

    constructor (bufferSize: nat)
      ensures Valid() && sleeps == 0 && switches == 0 && mem == 0 && imm == None && this.bufferSize == bufferSize
    {
      this.bufferSize := bufferSize;
      bgError, level0, mem, usage, imm, logNum, nextFile := false, 0, 0, 0, None, 1, 2;
      flushed, sleeps, switches := [], 0, 0;
    }

    ghost function Now(): Gauge
      reads this
    {
      Gauge(bgError, level0, mem, usage, imm, logNum, nextFile, sleeps, switches)
    }

    method Pause(w: Interlude)
      requires Valid()
      modifies this`bgError, this`level0, this`imm, this`nextFile, this`flushed
      ensures Valid() && Now() == AfterPause(old(Now()), w) && |old(flushed)| <= |flushed|
    {
      bgError := bgError || w.error;
      level0 := w.level0;
      nextFile := nextFile + w.filesTaken;
      if w.flushed && imm.Some? {
        flushed := flushed + [imm.value];
        imm := None;
      }
    }

    /** The previous memtable has been flushed, so the current one can take its place. */
    method SwitchMemtable()
      requires Valid() && imm.None?
      modifies this`logNum, this`nextFile, this`imm, this`mem, this`usage, this`switches
      ensures Valid() && Now() == AfterSwitch(old(Now())) && switches == old(switches) + 1
    {
      logNum, nextFile := nextFile, nextFile + 1;
      imm := Some(mem);
      mem, usage := mem + 1, 0;
      switches := switches + 1;
    }

    /** Where the room was the machine's before, it is after; `path` are the states of the machine
        that the call goes through. */
    method MakeRoomForWrite(force0: bool, world: seq<Interlude>, newFileOk: bool, ghost s: State,
                            ghost others: seq<State -> State>)
      returns (r: Outcome, used: nat, ghost path: seq<State>)
      requires Valid() && Mirrors(Now(), s) && AtHead(s) && Fits(world, others)
      modifies this
      ensures Valid() && used <= |world|
      ensures Keeps(old(Now()), Now(), force0, used, world, bufferSize, newFileOk, r)
      ensures Leads(path, s, old(Now()), Now(), used)
    {
      hide Valid, Mirrors, AtHead, Fits, Course, Keeps, Leads, AfterPause, AfterSwitch;
      ghost var was := Now();
      var allowDelay, force := !force0, force0;
      used, path, r := 0, [s], StillWaiting;
      CourseStart(s, was, force0, world, bufferSize);
      while true
        invariant Course(path, s, was, Now(), force0, force, allowDelay, used, world, bufferSize)
        invariant Valid() && used <= |world|
        decreases |world| - used, was.switches + 1 - switches
      {
        ghost var now, t := Now(), s;
        if bgError {
          r := Outcome.Failed;
          break;
        } else if allowDelay && level0 >= L0_SLOWDOWN {
          if used == |world| {
            break;
          }
          t := SleepKeepsCourse(path, s, was, now, force0, force, used, world, bufferSize, others);
          Pause(world[used]);
          used, sleeps, allowDelay := used + 1, sleeps + 1, false;
        } else if !force && usage <= bufferSize {
          r := HasRoom;
          break;
        } else if imm.Some? || level0 >= L0_STOP {
          if used == |world| {
            break;
          }
          t := WaitKeepsCourse(path, s, was, now, force0, force, allowDelay, used, world, bufferSize, others);
          Pause(world[used]);
          used := used + 1;
        } else {
          if !newFileOk {
            // the number that was taken for the log is given back
            r := Outcome.Failed;
            break;
          }
          t := SwitchKeepsCourse(path, s, was, now, force0, force, allowDelay, used, world, bufferSize);
          SwitchMemtable();
          force := false;
        }
        path := path + [t];
      }
      CourseEnds(path, s, was, Now(), force0, force, allowDelay, used, world, bufferSize, newFileOk, r);
    }
  }

  lemma {:induction false} SomeFiles(n: nat) returns (v: Version)
    ensures |Level0Files(v)| == n && forall k :: k in v ==> k < n
  {
    if n == 0 {
      v := map[];
      assert Level0Files(v) == {};
    } else {
      var fewer := SomeFiles(n - 1);
      v := fewer[n - 1 := Table(0, {})];
      assert Level0Files(v) == Level0Files(fewer) + {n - 1};
    }
  }

  lemma InterludeHappens(s: State, w: Interlude)
    ensures exists t :: Paused(s, w, t)
  {
    var v := SomeFiles(w.level0);
    var t := s.(bgError := s.bgError || w.error, version := v, imm := if w.flushed then None else s.imm,
                nextFile := s.nextFile + w.filesTaken);
    assert Paused(s, w, t);
  }

  ghost function Interrupted(s: State, w: Interlude): (t: State)
    ensures Paused(s, w, t)
  {
    InterludeHappens(s, w);
    var t :| Paused(s, w, t);
    t
  }

  /** Every sequence of interludes can happen, whatever the machine does in between. */
  lemma InterludesFit(world: seq<Interlude>) returns (others: seq<State -> State>)
    ensures Fits(world, others)
  {
    hide Paused;
    others := seq(|world|, k requires 0 <= k < |world| => (s: State) => Interrupted(s, world[k]));
  }
}
