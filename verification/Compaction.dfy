/** The compaction loop: one pass over the merged input, deciding entry by entry what to drop,
    and cutting what is kept into output files.
 */
module Compaction {
  import opened Options
  import opened Entries
  import opened VersionEdits

  // kMaxSequenceNumber: 56 bits of sequence number
  const MAX_SEQUENCE: nat := 0xFF_FFFF_FFFF_FFFF

  datatype Status = Ok | IOError

  /** One position of the merged input.  A key that does not parse is carried along untouched. */
  datatype Item = Parsed(entry: Entry) | Corrupt(raw: string)

  /** A file produced by the compaction, with the key range recorded for it. */
  datatype Output = Output(number: nat, content: seq<Item>, smallest: Option<Item>, largest: Option<Item>)

  /** Everything the loop asks of the rest of the system, by position in the input or by
      position in the list of output files. */
  datatype Env = Env(
    isBase: Key -> bool,
    stopBefore: nat -> bool,
    full: seq<Item> -> bool,
    shutdownAt: nat,
    number: nat -> nat,
    openStatus: nat -> Status,
    finishStatus: nat -> Status,
    inputStatus: Status)

  /** No file operation fails, the input is read without error, and nobody shuts down. */
  ghost predicate Healthy(env: Env, input: seq<Item>) {
    && (forall i :: env.openStatus(i) == Ok && env.finishStatus(i) == Ok)
    && env.inputStatus == Ok && env.shutdownAt > |input|
  }

  // ----- the decision, as a fold over the input -----

  /** `current_user_key` and `last_sequence_for_key`. */
  datatype Memo = Memo(current: Option<Key>, lastSeq: nat)

  const START := Memo(None, MAX_SEQUENCE)

  function Enter(m: Memo, k: Key): Memo {
    if m.current == Some(k) then m else Memo(Some(k), MAX_SEQUENCE)
  }

  function After(m: Memo, x: Item): Memo {
    if x.Corrupt? then START else Memo(Some(x.entry.key), x.entry.seqno)
  }

  predicate Drops(m: Memo, x: Item, smallest: nat, isBase: Key -> bool) {
    x.Parsed? &&
    (Enter(m, x.entry.key).lastSeq <= smallest ||
     (x.entry.kind == Deletion && x.entry.seqno <= smallest && isBase(x.entry.key)))
  }

  function Retain(m: Memo, input: seq<Item>, smallest: nat, isBase: Key -> bool): seq<Item>
    decreases |input|
  {
    if input == [] then []
    else
      var rest := Retain(After(m, input[0]), input[1..], smallest, isBase);
      if Drops(m, input[0], smallest, isBase) then rest else [input[0]] + rest
  }

  function Flat(outputs: seq<Output>): seq<Item> {
    if outputs == [] then [] else Flat(outputs[..|outputs| - 1]) + outputs[|outputs| - 1].content
  }

  /** A finished file is not empty and records its own first and last key. */
  predicate Complete(o: Output) {
    o.content != [] && o.smallest == Some(o.content[0]) && o.largest == Some(o.content[|o.content| - 1])
  }

  // ----- where the files are cut, as a fold over the input -----

  /** Output files that are finished, and the one a table builder is open for. */
  datatype Files = Files(done: seq<Output>, open: Option<Output>)

  function AllFiles(fs: Files): seq<Output> {
    if fs.open.Some? then fs.done + [fs.open.value] else fs.done
  }

  function CloseFile(fs: Files): Files {
    Files(AllFiles(fs), None)
  }

  function Added(o: Output, x: Item): Output {
    Output(o.number, o.content + [x], if o.content == [] then Some(x) else o.smallest, Some(x))
  }

  /** The file the next entry goes to. */
  function OpenFile(fs: Files, env: Env): Output {
    if fs.open.Some? then fs.open.value else Output(env.number(|fs.done|), [], None, None)
  }

  function PutEntry(fs: Files, x: Item, env: Env): Files {
    var o := Added(OpenFile(fs, env), x);
    if env.full(o.content) then Files(fs.done + [o], None) else Files(fs.done, Some(o))
  }

  function Turn(fs: Files, x: Item, stop: bool, drop: bool, env: Env): Files {
    var was := if stop then CloseFile(fs) else fs;
    if drop then was else PutEntry(was, x, env)
  }

  function MemoAt(input: seq<Item>, n: nat): Memo
    requires n <= |input|
  {
    if n == 0 then START else After(START, input[n - 1])
  }

  function Cutting(input: seq<Item>, n: nat, smallest: nat, env: Env): Files
    requires n <= |input|
  {
    if n == 0 then Files([], None)
    else
      Turn(Cutting(input, n - 1, smallest, env), input[n - 1], env.stopBefore(n - 1),
           Drops(MemoAt(input, n - 1), input[n - 1], smallest, env.isBase), env)
  }

  /** A list of files ends where everything kept from before input position `p` ends. */
  ghost predicate EndsAt(files: seq<Output>, input: seq<Item>, p: nat, smallest: nat, isBase: Key -> bool)
    requires p <= |input|
  {
    Flat(files) == Retain(START, input[..p], smallest, isBase)
  }

  /** No file is full before its last entry. */
  ghost predicate NeverOverfull(files: seq<Output>, env: Env) {
    forall f, m :: 0 <= f < |files| && 0 < m < |files[f].content| ==> !env.full(files[f].content[..m])
  }

  /** Each of the first `k` files is full, or ends just before a position where a stop is due. */
  ghost predicate EndsForAReason(files: seq<Output>, k: nat, input: seq<Item>, smallest: nat, env: Env)
    requires k <= |files|
  {
    forall f :: 0 <= f < k ==>
      env.full(files[f].content) ||
      exists p: nat :: p < |input| && env.stopBefore(p) && EndsAt(files[..f + 1], input, p, smallest, env.isBase)
  }

  /** No file goes on over a position among the first `n` where a stop is due. */
  ghost predicate StopsWhereDue(files: seq<Output>, input: seq<Item>, n: nat, smallest: nat, env: Env)
    requires n <= |input|
  {
    forall p: nat :: p < n && env.stopBefore(p) ==>
      exists f :: 0 <= f <= |files| && EndsAt(files[..f], input, p, smallest, env.isBase)
  }

  // ----- the loop -----

  class CompactionState {
    var outputs: seq<Output>
    var building: bool   // a table builder is open for the last output

    ghost predicate Valid()
      reads this
    {
      && (building ==> outputs != [])
      && forall i :: 0 <= i < |outputs| ==> Complete(outputs[i])
    }

    /** The files are those of the fold, each opened and finished without an error. */
    ghost predicate Holds(fs: Files, env: Env)
      reads this
    {
      && outputs == AllFiles(fs) && (building <==> fs.open.Some?)
      && (forall f :: 0 <= f < |outputs| ==> env.openStatus(f) == Ok)
      && (forall f :: 0 < f <= |fs.done| ==> env.finishStatus(f) == Ok)
    }

    constructor ()
      ensures Valid() && outputs == [] && !building
    {
      outputs, building := [], false;
    }

    method OpenOutput(number: nat, s: Status)
      requires !building
      modifies this
      ensures outputs == old(outputs) + [Output(number, [], None, None)]
      ensures building <==> s.Ok?
    {
      outputs := outputs + [Output(number, [], None, None)];
      building := s.Ok?;
    }

    method Add(x: Item)
      requires building && outputs != []
      modifies this
      ensures building && outputs == WithAdded(old(outputs), x)
    {
      var last := |outputs| - 1;
      var o := outputs[last];
      if o.content == [] {
        o := o.(smallest := Some(x));
      }
      o := o.(largest := Some(x), content := o.content + [x]);
      outputs := outputs[..last] + [o];
    }

    method Append(x: Item, env: Env, ghost fs: Files) returns (s: Status)
      requires Valid() && Holds(fs, env)
      modifies this
      ensures s.Ok? ==> Holds(Files(fs.done, Some(Added(OpenFile(fs, env), x))), env)
      ensures s.Ok? ==> Valid() && building && Flat(outputs) == Flat(old(outputs)) + [x]
      ensures !s.Ok? ==> Flat(outputs) == Flat(old(outputs))
      ensures (forall i :: env.openStatus(i) == Ok) ==> s.Ok?
      ensures (forall i :: 0 <= i < |old(outputs)| ==> old(outputs)[i].number == env.number(i)) ==>
              forall i :: 0 <= i < |outputs| ==> outputs[i].number == env.number(i)
    {
      hide Flat, Complete, Added;
      s := Ok;
      if !building {
        EmptyFile(outputs, env.number(|outputs|));
        s := env.openStatus(|outputs|);
        OpenOutput(env.number(|outputs|), s);
        if !s.Ok? {
          return;
        }
      }
      assert outputs == fs.done + [OpenFile(fs, env)];
      LastGrows(outputs, x);
      Add(x);
    }

    /** Adds one kept entry, opening an output file before it and closing one after it as needed. */
    method Emit(x: Item, env: Env, ghost fs: Files) returns (s: Status)
      requires Valid() && Numbered(env) && Holds(fs, env)
      modifies this
      ensures s.Ok? ==> Holds(PutEntry(fs, x, env), env)
      ensures Numbered(env)
      ensures s.Ok? ==> Valid()
      ensures (forall i :: env.openStatus(i) == Ok && env.finishStatus(i) == Ok) ==> s.Ok?
      ensures Flat(outputs) == Flat(old(outputs)) + [x] || (!s.Ok? && Flat(outputs) == Flat(old(outputs)))
    {
      hide Flat, Complete, Added;
      s := Append(x, env, fs);
      if s.Ok? && env.full(outputs[|outputs| - 1].content) {
        building := false;
        s := env.finishStatus(|outputs|);
      }
    }

    ghost predicate Numbered(env: Env)
      reads this
    {
      forall i :: 0 <= i < |outputs| ==> outputs[i].number == env.number(i)
    }

    method FinishOutput(env: Env) returns (s: Status)
      requires Valid()
      modifies this`building
      ensures !building && s == env.finishStatus(|outputs|)
    {
      building := false;
      s := env.finishStatus(|outputs|);
    }

    /** One turn of the loop: entry `i` is either dropped or moved from what is left to do to
        the end of the output. */
    method HandleEntry(input: seq<Item>, i: nat, smallest: nat, env: Env, memo: Memo, ghost fs: Files)
      returns (s: Status, memo': Memo)
      requires i < |input| && Valid() && Numbered(env) && Holds(fs, env)
      modifies this
      ensures s.Ok? ==>
        Holds(Turn(fs, input[i], env.stopBefore(i), Drops(memo, input[i], smallest, env.isBase), env), env)
      ensures Numbered(env) && (s.Ok? ==> Valid())
      ensures (forall i :: env.openStatus(i) == Ok && env.finishStatus(i) == Ok) ==> s.Ok?
      ensures memo' == After(memo, input[i])
      ensures if Drops(memo, input[i], smallest, env.isBase) then Flat(outputs) == Flat(old(outputs))
              else Flat(outputs) == Flat(old(outputs)) + [input[i]] || (!s.Ok? && Flat(outputs) == Flat(old(outputs)))
    {
      s := Ok;
      if env.stopBefore(i) && building {
        s := FinishOutput(env);
      }
      var drop;
      memo', drop := Decide(memo, input[i], smallest, env.isBase);
      if s.Ok? && !drop {
        s := Emit(input[i], env, if env.stopBefore(i) then CloseFile(fs) else fs);
      }
    }

    /** On success the output files, concatenated, are exactly what the rules retain; on
        failure they hold a prefix of it and nothing else.  It succeeds if nothing goes wrong. */
    method DoCompactionWork(input: seq<Item>, smallest: nat, env: Env) returns (s: Status)
      requires outputs == [] && !building
      modifies this
      ensures s.Ok? ==> Flat(outputs) == Retain(START, input, smallest, env.isBase)
      ensures s.Ok? ==> !building && forall i :: 0 <= i < |outputs| ==> Complete(outputs[i])
      ensures s.Ok? ==> NeverOverfull(outputs, env) && StopsWhereDue(outputs, input, |input|, smallest, env)
      ensures s.Ok? && outputs != [] ==> EndsForAReason(outputs, |outputs| - 1, input, smallest, env)
      ensures s.Ok? ==> env.inputStatus == Ok
      ensures s.Ok? ==> forall f :: 0 <= f < |outputs| ==> env.openStatus(f) == Ok
      ensures s.Ok? ==> forall f :: 0 < f <= |outputs| ==> env.finishStatus(f) == Ok
      ensures exists rest :: Flat(outputs) + rest == Retain(START, input, smallest, env.isBase)
      ensures Numbered(env)
      ensures env.shutdownAt <= |input| ==> !s.Ok?
      ensures Healthy(env, input) ==> s.Ok?
    {
      hide Cutting, Turn, NeverOverfull, EndsForAReason, StopsWhereDue, EndsAt, Drops, Flat, Retain, WellCut, KeptSoFar;
      s := Ok;
      var memo := START;
      var i := 0;
      CuttingStarts(input, smallest, env);
      CutWell(input, 0, smallest, env);
      ItIsSoFar(outputs, input, 0, smallest, env.isBase);
      while s.Ok? && i < |input| && i < env.shutdownAt
        invariant 0 <= i <= |input| && i <= env.shutdownAt
        invariant Numbered(env)
        invariant KeptSoFar(outputs, input, smallest, env.isBase)
        invariant Healthy(env, input) ==> s.Ok?
        invariant s.Ok? ==> Valid() && memo == MemoAt(input, i) && Holds(Cutting(input, i, smallest, env), env)
        decreases |input| - i, s.Ok?
      {
        CuttingGoesOn(input, i, smallest, env);
        CutWell(input, i, smallest, env);
        ghost var before := outputs;
        s, memo := HandleEntry(input, i, smallest, env, memo, Cutting(input, i, smallest, env));
        OneMoreKept(before, outputs, input, i, smallest, env.isBase);
        if s.Ok? {
          i := i + 1;
        }
      }
      CutWell(input, i, smallest, env);
      KeptIsPrefix(outputs, input, smallest, env.isBase);
      AllCut(input, smallest, env);
      if s.Ok? && i >= env.shutdownAt {
        s := IOError;
      }
      if s.Ok? && building {
        s := FinishOutput(env);
      }
      if s.Ok? {
        s := env.inputStatus;
      }
    }
  }

  function WithAdded(files: seq<Output>, x: Item): seq<Output>
    requires files != []
  {
    var last := |files| - 1;
    files[..last] + [Added(files[last], x)]
  }

  lemma EmptyFile(files: seq<Output>, number: nat)
    ensures Flat(files + [Output(number, [], None, None)]) == Flat(files)
  {
    assert (files + [Output(number, [], None, None)])[..|files|] == files;
  }

  lemma FlatGrows(files: seq<Output>, x: Item)
    requires files != []
    ensures Flat(WithAdded(files, x)) == Flat(files) + [x]
  {
    var last, after := |files| - 1, WithAdded(files, x);
    assert after[..last] == files[..last];
    assert Flat(after) == Flat(files[..last]) + (files[last].content + [x]);
    assert Flat(files[..last]) + (files[last].content + [x]) == Flat(files) + [x];
  }

  lemma AddedIsComplete(o: Output, x: Item)
    requires o.content != [] ==> Complete(o)
    ensures Complete(Added(o, x))
  {
  }

  /** Only the last file changes when an entry is added to it. */
  lemma LastGrows(files: seq<Output>, x: Item)
    requires files != []
    requires files[|files| - 1].content != [] ==> Complete(files[|files| - 1])
    requires forall i :: 0 <= i < |files| - 1 ==> Complete(files[i])
    ensures var after := WithAdded(files, x);
      && Flat(after) == Flat(files) + [x] && |after| == |files|
      && (forall i :: 0 <= i < |after| ==> Complete(after[i]))
      && forall i :: 0 <= i < |after| ==> after[i].number == files[i].number
  {
    hide Flat, Complete;
    FlatGrows(files, x);
    AddedIsComplete(files[|files| - 1], x);
  }

  // ----- where the files are cut -----

  lemma CuttingStarts(input: seq<Item>, smallest: nat, env: Env)
    ensures Cutting(input, 0, smallest, env) == Files([], None)
  {
  }

  lemma CuttingGoesOn(input: seq<Item>, n: nat, smallest: nat, env: Env)
    requires n < |input|
    ensures Cutting(input, n + 1, smallest, env) ==
            Turn(Cutting(input, n, smallest, env), input[n], env.stopBefore(n),
                 Drops(MemoAt(input, n), input[n], smallest, env.isBase), env)
  {
    hide Turn, Drops;
  }

  lemma {:induction false} RetainSnoc(m: Memo, a: seq<Item>, x: Item, smallest: nat, isBase: Key -> bool)
    ensures Retain(m, a + [x], smallest, isBase) == Retain(m, a, smallest, isBase) +
            if Drops(if a == [] then m else After(m, a[|a| - 1]), x, smallest, isBase) then [] else [x]
    decreases |a|
  {
    hide Drops;
    if a == [] {
      assert [x][1..] == [];
    } else {
      assert (a + [x])[1..] == a[1..] + [x];
      RetainSnoc(After(m, a[0]), a[1..], x, smallest, isBase);
    }
  }

  lemma RetainTo(input: seq<Item>, n: nat, smallest: nat, isBase: Key -> bool)
    requires n < |input|
    ensures Retain(START, input[..n + 1], smallest, isBase) == Retain(START, input[..n], smallest, isBase) +
            if Drops(MemoAt(input, n), input[n], smallest, isBase) then [] else [input[n]]
  {
    hide Drops, Retain;
    assert input[..n + 1] == input[..n] + [input[n]];
    RetainSnoc(START, input[..n], input[n], smallest, isBase);
  }

  /** Files cut as they should be by the time position `n` is reached. */
  ghost predicate WellCut(fs: Files, input: seq<Item>, n: nat, smallest: nat, env: Env)
    requires n <= |input|
  {
    && EndsAt(AllFiles(fs), input, n, smallest, env.isBase) && NeverOverfull(AllFiles(fs), env)
    && (fs.open.Some? ==> fs.open.value.content != [] && !env.full(fs.open.value.content))
    && EndsForAReason(fs.done, |fs.done|, input, smallest, env)
    && StopsWhereDue(fs.done, input, n, smallest, env)
  }

  lemma ClosedCut(fs: Files, input: seq<Item>, n: nat, smallest: nat, env: Env)
    requires n < |input| && env.stopBefore(n) && WellCut(fs, input, n, smallest, env)
    ensures WellCut(CloseFile(fs), input, n, smallest, env)
    ensures StopsWhereDue(AllFiles(fs), input, n + 1, smallest, env)
  {
    var files := AllFiles(fs);
    hide EndsAt, NeverOverfull;
    assert files[..|files|] == files;
    forall f | 0 <= f <= |fs.done| ensures files[..f] == fs.done[..f] {
    }
    assert EndsAt(files[..|files|], input, n, smallest, env.isBase);
  }

  lemma PutCut(fs: Files, input: seq<Item>, n: nat, smallest: nat, env: Env)
    requires n < |input| && WellCut(fs, input, n, smallest, env)
    requires StopsWhereDue(fs.done, input, n + 1, smallest, env)
    requires !Drops(MemoAt(input, n), input[n], smallest, env.isBase)
    ensures WellCut(PutEntry(fs, input[n], env), input, n + 1, smallest, env)
  {
    var x, t := input[n], PutEntry(fs, input[n], env);
    var o := Added(OpenFile(fs, env), x);
    assert AllFiles(t) == fs.done + [o];
    FlatPut(fs, x, env);
    RetainTo(input, n, smallest, env.isBase);
    NotOverfull(fs, x, env);
    hide Flat, Retain, Drops, NeverOverfull;
    assert EndsAt(AllFiles(t), input, n + 1, smallest, env.isBase);
    hide EndsAt;
    DoneGrows(fs.done, o, input, n + 1, smallest, env);
  }

  lemma FlatPut(fs: Files, x: Item, env: Env)
    ensures Flat(fs.done + [Added(OpenFile(fs, env), x)]) == Flat(AllFiles(fs)) + [x]
  {
    var o := OpenFile(fs, env);
    assert (fs.done + [Added(o, x)])[..|fs.done|] == fs.done;
    assert (fs.done + [o])[..|fs.done|] == fs.done;
    assert Flat(fs.done + [o]) == Flat(fs.done) + o.content;
    assert Flat(fs.done + [Added(o, x)]) == Flat(fs.done) + (o.content + [x]);
  }

  lemma NotOverfull(fs: Files, x: Item, env: Env)
    requires NeverOverfull(AllFiles(fs), env)
    requires fs.open.Some? ==> fs.open.value.content != [] && !env.full(fs.open.value.content)
    ensures NeverOverfull(fs.done + [Added(OpenFile(fs, env), x)], env)
  {
    var o, files := OpenFile(fs, env), AllFiles(fs);
    var after := fs.done + [Added(o, x)];
    forall f, m | 0 <= f < |after| && 0 < m < |after[f].content| ensures !env.full(after[f].content[..m]) {
      if f < |fs.done| {
        assert after[f] == files[f];
      } else if m < |o.content| {
        assert (o.content + [x])[..m] == files[f].content[..m];
      } else {
        assert (o.content + [x])[..m] == o.content;
      }
    }
  }

  /** Another file does not change where the ones before it end. */
  lemma DoneGrows(done: seq<Output>, o: Output, input: seq<Item>, n: nat, smallest: nat, env: Env)
    requires n <= |input| && StopsWhereDue(done, input, n, smallest, env)
    requires EndsForAReason(done, |done|, input, smallest, env)
    ensures EndsForAReason(done + [o], |done|, input, smallest, env)
    ensures env.full(o.content) ==> EndsForAReason(done + [o], |done| + 1, input, smallest, env)
    ensures StopsWhereDue(done + [o], input, n, smallest, env)
  {
    hide EndsAt;
    forall f | 0 <= f <= |done| ensures (done + [o])[..f] == done[..f] {
    }
  }

  lemma NothingCut(input: seq<Item>, smallest: nat, env: Env)
    ensures WellCut(Files([], None), input, 0, smallest, env)
  {
    assert input[..0] == [];
  }

  lemma {:induction false} CutWell(input: seq<Item>, n: nat, smallest: nat, env: Env)
    requires n <= |input|
    ensures WellCut(Cutting(input, n, smallest, env), input, n, smallest, env)
    ensures EndsAt(AllFiles(Cutting(input, n, smallest, env)), input, n, smallest, env.isBase)
  {
    hide Cutting, Turn, Drops, EndsAt, NeverOverfull, EndsForAReason, StopsWhereDue;
    if n == 0 {
      CuttingStarts(input, smallest, env);
      NothingCut(input, smallest, env);
    } else {
      CutWell(input, n - 1, smallest, env);
      CuttingGoesOn(input, n - 1, smallest, env);
      CutTurn(Cutting(input, n - 1, smallest, env), input, n - 1, smallest, env);
    }
  }

  lemma CutTurn(was: Files, input: seq<Item>, n: nat, smallest: nat, env: Env)
    requires n < |input| && WellCut(was, input, n, smallest, env)
    ensures var drop := Drops(MemoAt(input, n), input[n], smallest, env.isBase);
      WellCut(Turn(was, input[n], env.stopBefore(n), drop, env), input, n + 1, smallest, env)
  {
    hide Drops, PutEntry, EndsForAReason, NeverOverfull;
    var fs := if env.stopBefore(n) then CloseFile(was) else was;
    if env.stopBefore(n) {
      ClosedCut(was, input, n, smallest, env);
    }
    assert StopsWhereDue(fs.done, input, n + 1, smallest, env);
    if Drops(MemoAt(input, n), input[n], smallest, env.isBase) {
      RetainTo(input, n, smallest, env.isBase);
    } else {
      PutCut(fs, input, n, smallest, env);
    }
  }

  /** The files a successful run ends with. */
  lemma AllCut(input: seq<Item>, smallest: nat, env: Env)
    ensures var files := AllFiles(Cutting(input, |input|, smallest, env));
      && NeverOverfull(files, env) && StopsWhereDue(files, input, |input|, smallest, env)
      && (files != [] ==> EndsForAReason(files, |files| - 1, input, smallest, env))
  {
    hide NeverOverfull;
    var fs := Cutting(input, |input|, smallest, env);
    CutWell(input, |input|, smallest, env);
    if fs.open.Some? {
      DoneGrows(fs.done, fs.open.value, input, |input|, smallest, env);
    }
  }

  /** The files hold what is kept from some first part of the input. */
  ghost predicate KeptSoFar(files: seq<Output>, input: seq<Item>, smallest: nat, isBase: Key -> bool) {
    exists p: nat :: p <= |input| && EndsAt(files, input, p, smallest, isBase)
  }

  lemma ItIsSoFar(files: seq<Output>, input: seq<Item>, p: nat, smallest: nat, isBase: Key -> bool)
    requires p <= |input| && EndsAt(files, input, p, smallest, isBase)
    ensures KeptSoFar(files, input, smallest, isBase)
  {
  }

  lemma OneMoreKept(before: seq<Output>, after: seq<Output>, input: seq<Item>, p: nat, smallest: nat,
                    isBase: Key -> bool)
    requires p < |input| && EndsAt(before, input, p, smallest, isBase)
    requires Flat(after) == Flat(before) ||
             (!Drops(MemoAt(input, p), input[p], smallest, isBase) && Flat(after) == Flat(before) + [input[p]])
    ensures KeptSoFar(after, input, smallest, isBase)
  {
    RetainTo(input, p, smallest, isBase);
    hide Flat, Retain, Drops;
    assert EndsAt(after, input, if Flat(after) == Flat(before) then p else p + 1, smallest, isBase);
  }

  lemma KeptIsPrefix(files: seq<Output>, input: seq<Item>, smallest: nat, isBase: Key -> bool)
    requires KeptSoFar(files, input, smallest, isBase)
    ensures exists rest :: Flat(files) + rest == Retain(START, input, smallest, isBase)
    ensures EndsAt(files, input, |input|, smallest, isBase) ==> Flat(files) == Retain(START, input, smallest, isBase)
  {
    var p: nat :| p <= |input| && EndsAt(files, input, p, smallest, isBase);
    var rest := RetainGrows(input, p, |input|, smallest, isBase);
    assert input[..|input|] == input;
    assert Flat(files) + rest == Retain(START, input, smallest, isBase);
  }

  lemma RetainGrows(input: seq<Item>, p: nat, n: nat, smallest: nat, isBase: Key -> bool) returns (rest: seq<Item>)
    requires p <= n <= |input|
    ensures Retain(START, input[..n], smallest, isBase) == Retain(START, input[..p], smallest, isBase) + rest
    decreases n
  {
    hide Retain, Drops;
    rest := [];
    if p < n {
      rest := RetainGrows(input, p, n - 1, smallest, isBase);
      RetainTo(input, n - 1, smallest, isBase);
      rest := rest + if Drops(MemoAt(input, n - 1), input[n - 1], smallest, isBase) then [] else [input[n - 1]];
    }
  }

  /** One turn of the loop's bookkeeping: the new memo, and whether the entry is dropped. */
  method Decide(m: Memo, key: Item, smallest: nat, isBase: Key -> bool) returns (m': Memo, drop: bool)
    ensures m' == After(m, key)
    ensures drop <==> Drops(m, key, smallest, isBase)
  {
    drop := false;
    if key.Corrupt? {
      m' := START;
    } else {
      m' := m;
      if m'.current == None || m'.current.value != key.entry.key {
        // first occurrence of this user key
        m' := Memo(Some(key.entry.key), MAX_SEQUENCE);
      }
      if m'.lastSeq <= smallest {
        drop := true;
      } else if key.entry.kind == Deletion && key.entry.seqno <= smallest && isBase(key.entry.key) {
        drop := true;
      }
      m' := m'.(lastSeq := key.entry.seqno);
    }
  }

  // ----- what the fold retains, element by element -----

  ghost predicate Sorted(input: seq<Item>) {
    && (forall i :: 0 <= i < |input| ==> input[i].Parsed?)
    && forall i, j :: 0 <= i < j < |input| ==> Precedes(input[i], input[j])
  }

  /** Internal key order: user key ascending, then sequence number descending. */
  predicate Precedes(x: Item, y: Item) {
    x.Parsed? && y.Parsed? &&
    (x.entry.key < y.entry.key || (x.entry.key == y.entry.key && x.entry.seqno > y.entry.seqno))
  }

  ghost function EntriesOf(input: seq<Item>): set<Entry> {
    set x | x in input && x.Parsed? :: x.entry
  }

  ghost function BaseKeys(input: seq<Item>, isBase: Key -> bool): set<Key> {
    set e | e in EntriesOf(input) && isBase(e.key) :: e.key
  }

  /** The memo lies before the whole of `input` in internal key order. */
  ghost predicate MemoBefore(m: Memo, input: seq<Item>) {
    m.current.Some? ==>
      forall x :: x in input && x.Parsed? ==>
                  m.current.value < x.entry.key || (m.current.value == x.entry.key && x.entry.seqno < m.lastSeq)
  }

  ghost predicate HiddenFrom(m: Memo, input: seq<Item>, e: Entry, smallest: nat) {
    (m.current == Some(e.key) && m.lastSeq <= smallest) || Hidden(EntriesOf(input), e, smallest)
  }

  lemma SortedTail(m: Memo, input: seq<Item>)
    requires Sorted(input) && input != []
    ensures Sorted(input[1..]) && MemoBefore(After(m, input[0]), input[1..])
    ensures EntriesOf(input) == EntriesOf(input[1..]) + {input[0].entry}
  {
    var h, t := input[0], input[1..];
    assert input == [h] + t;
    forall i | 0 <= i < |t| ensures t[i].Parsed? && Precedes(h, t[i]) {
      assert t[i] == input[i + 1];
    }
  }

  /** Whether the head of a sorted input is hidden is already decided by the memo. */
  lemma HeadHidden(m: Memo, input: seq<Item>, smallest: nat)
    requires Sorted(input) && input != [] && smallest < MAX_SEQUENCE
    ensures HiddenFrom(m, input, input[0].entry, smallest)
            <==> Enter(m, input[0].entry.key).lastSeq <= smallest
  {
    var h := input[0].entry;
    forall n | n in EntriesOf(input) && n.key == h.key ensures n.seqno <= h.seqno {
      var i :| 0 <= i < |input| && input[i] == Parsed(n);
      assert i == 0 || Precedes(input[0], input[i]);
    }
  }

  /** An entry further on is hidden in the same way seen from the head and from the tail. */
  lemma TailHidden(m: Memo, input: seq<Item>, e: Entry, smallest: nat)
    requires Sorted(input) && input != [] && MemoBefore(m, input)
    requires e in EntriesOf(input[1..])
    ensures HiddenFrom(m, input, e, smallest) <==> HiddenFrom(After(m, input[0]), input[1..], e, smallest)
  {
    var h, t := input[0].entry, input[1..];
    SortedTail(m, input);
    assert Parsed(e) in t;
    if m.current == Some(e.key) && m.lastSeq <= smallest {
      assert Parsed(h) in input;
    } else if Hidden(EntriesOf(input), e, smallest) {
      var n :| n in EntriesOf(input) && n.key == e.key && e.seqno < n.seqno <= smallest;
      assert n != h ==> n in EntriesOf(t);
    } else {
      assert h.key == e.key ==> h.seqno > e.seqno;
    }
  }

  lemma {:induction false} RetainChooses(m: Memo, input: seq<Item>, smallest: nat, isBase: Key -> bool)
    requires Sorted(input) && MemoBefore(m, input) && smallest < MAX_SEQUENCE
    ensures Sorted(Retain(m, input, smallest, isBase))
    ensures forall x :: x in Retain(m, input, smallest, isBase) <==>
                        && x in input
                        && !HiddenFrom(m, input, x.entry, smallest)
                        && !(x.entry.kind == Deletion && x.entry.seqno <= smallest && isBase(x.entry.key))
    decreases |input|
  {
    if input != [] {
      var h, t := input[0], input[1..];
      SortedTail(m, input);
      RetainChooses(After(m, h), t, smallest, isBase);
      HeadHidden(m, input, smallest);
      forall x | x in t
        ensures HiddenFrom(m, input, x.entry, smallest) <==> HiddenFrom(After(m, h), t, x.entry, smallest)
      {
        TailHidden(m, input, x.entry, smallest);
      }
      forall x | x in t ensures Precedes(h, x) && x != h {
        var i :| 0 <= i < |t| && t[i] == x;
        assert Precedes(input[0], input[i + 1]);
      }
      assert forall x :: x in input <==> x == h || x in t;
    }
  }

  /** The loop, on input that parses and is sorted, keeps exactly the entries that are neither
      hidden nor obsolete. */
  lemma RetainIsRetained(input: seq<Item>, smallest: nat, isBase: Key -> bool)
    requires Sorted(input) && smallest < 0xFF_FFFF_FFFF_FFFF
    ensures Sorted(Retain(START, input, smallest, isBase))
    ensures EntriesOf(Retain(START, input, smallest, isBase))
            == Retained(EntriesOf(input), smallest, BaseKeys(input, isBase))
  {
    RetainChooses(START, input, smallest, isBase);
    var R, B := Retain(START, input, smallest, isBase), BaseKeys(input, isBase);
    forall e ensures e in EntriesOf(R) <==> e in Retained(EntriesOf(input), smallest, B) {
      if e in EntriesOf(R) {
        assert Parsed(e) in R;
      }
      if e in Retained(EntriesOf(input), smallest, B) {
        assert Parsed(e) in input;
        assert isBase(e.key) ==> e.key in B;
        assert Parsed(e) in R;
      }
    }
  }

  /** Exactness: what some reader may still see survives, and per key at most one entry at or
      below `smallest` does. */
  lemma RetainIsExact(input: seq<Item>, smallest: nat, isBase: Key -> bool)
    requires Sorted(input) && smallest < 0xFF_FFFF_FFFF_FFFF
    ensures var R := EntriesOf(Retain(START, input, smallest, isBase));
      && (forall e :: e in EntriesOf(input) && e.seqno > smallest ==> e in R)
      && (forall a, b :: a in R && b in R && a.key == b.key && a.seqno <= smallest && b.seqno <= smallest
                         ==> a.seqno == b.seqno)
  {
    RetainIsRetained(input, smallest, isBase);
  }

  lemma {:induction false} KeepsAll(m: Memo, input: seq<Item>, smallest: nat, isBase: Key -> bool)
    requires Sorted(input) && MemoBefore(m, input) && smallest < MAX_SEQUENCE
    requires forall x :: x in input ==>
               && !HiddenFrom(m, input, x.entry, smallest)
               && !(x.entry.kind == Deletion && x.entry.seqno <= smallest && isBase(x.entry.key))
    ensures Retain(m, input, smallest, isBase) == input
    decreases |input|
  {
    if input != [] {
      var h, t := input[0], input[1..];
      SortedTail(m, input);
      HeadHidden(m, input, smallest);
      assert h in input;
      forall x | x in t ensures !HiddenFrom(After(m, h), t, x.entry, smallest) && x in input {
        TailHidden(m, input, x.entry, smallest);
      }
      KeepsAll(After(m, h), t, smallest, isBase);
      assert input == [h] + t;
    }
  }

  /** A second pass over the output drops nothing. */
  lemma RetainIsIdempotent(input: seq<Item>, smallest: nat, isBase: Key -> bool)
    requires Sorted(input) && smallest < 0xFF_FFFF_FFFF_FFFF
    ensures var R := Retain(START, input, smallest, isBase);
            Retain(START, R, smallest, isBase) == R
  {
    RetainChooses(START, input, smallest, isBase);
    var R := Retain(START, input, smallest, isBase);
    forall x | x in R ensures !HiddenFrom(START, R, x.entry, smallest) {
      assert !Hidden(EntriesOf(input), x.entry, smallest);
      forall n | n in EntriesOf(R) ensures n in EntriesOf(input) {
        assert Parsed(n) in R;
      }
    }
    KeepsAll(START, R, smallest, isBase);
  }

  /** A key that does not parse is never dropped, and what follows it is decided as at the
      beginning of the input. */
  lemma {:induction false} CorruptKeysSurvive(m: Memo, a: seq<Item>, raw: string, b: seq<Item>, smallest: nat,
                                              isBase: Key -> bool)
    ensures Retain(m, a + [Corrupt(raw)] + b, smallest, isBase)
            == Retain(m, a, smallest, isBase) + [Corrupt(raw)] + Retain(START, b, smallest, isBase)
    decreases |a|
  {
    var input := a + [Corrupt(raw)] + b;
    if a == [] {
      assert input[1..] == b;
    } else {
      assert input[1..] == a[1..] + [Corrupt(raw)] + b;
      CorruptKeysSurvive(After(m, a[0]), a[1..], raw, b, smallest, isBase);
    }
  }

  // ----- from the loop's output files to the version edit -----

  ghost function FileEntries(outputs: seq<Output>, number: nat): set<Entry> {
    set o, x | o in outputs && o.number == number && x in o.content && x.Parsed? :: x.entry
  }

  ghost function FileMap(outputs: seq<Output>): map<nat, set<Entry>> {
    map n | n in (set o | o in outputs :: o.number) :: FileEntries(outputs, n)
  }

  lemma {:induction false} FlatHolds(outputs: seq<Output>, x: Item)
    ensures x in Flat(outputs) <==> exists o :: o in outputs && x in o.content
  {
    if outputs != [] {
      var last := |outputs| - 1;
      FlatHolds(outputs[..last], x);
      assert outputs == outputs[..last] + [outputs[last]];
    }
  }

  lemma FileMapHolds(outputs: seq<Output>, e: Entry)
    ensures e in Outputs(FileMap(outputs)) <==> Parsed(e) in Flat(outputs)
  {
    var F := FileMap(outputs);
    FlatHolds(outputs, Parsed(e));
    if e in Outputs(F) {
      var n :| n in F && e in F[n];
      var o, x :| o in outputs && o.number == n && x in o.content && x.Parsed? && x.entry == e;
      assert x == Parsed(e);
    }
    if Parsed(e) in Flat(outputs) {
      var o :| o in outputs && Parsed(e) in o.content;
      assert o.number in F && e in F[o.number];
    }
  }

  /** The files a successful run leaves behind are a legal result for the version edit. */
  lemma FilesHoldRetained(outputs: seq<Output>, input: seq<Item>, smallest: nat, isBase: Key -> bool)
    requires Sorted(input) && smallest < 0xFF_FFFF_FFFF_FFFF
    requires Flat(outputs) == Retain(START, input, smallest, isBase)
    ensures Outputs(FileMap(outputs)) == Retained(EntriesOf(input), smallest, BaseKeys(input, isBase))
  {
    RetainIsRetained(input, smallest, isBase);
    var R := Retain(START, input, smallest, isBase);
    forall e ensures e in Outputs(FileMap(outputs)) <==> e in EntriesOf(R) {
      FileMapHolds(outputs, e);
      assert Parsed(e) in R ==> Parsed(e).entry in EntriesOf(R);
    }
  }
}
