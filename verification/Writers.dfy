/** The writer queue: batches, and which prefix of the queue its leader writes as one group. */
module Writers {
  import opened Options
  import opened Entries

  datatype Op = Op(key: Key, kind: Kind, value: string)

  /** A WriteBatch: its operations and the size of its serialised form. */
  datatype Batch = Batch(ops: seq<Op>, bytes: nat)

  /** A queued writer.  A missing batch asks for a memtable switch only. */
  datatype Writer = Writer(batch: Option<Batch>, sync: bool)

  const SMALL_WRITE: nat := 128 * 1024
  const MAX_GROUP: nat := 1024 * 1024

  function MaxSize(first: nat): nat {
    if first <= SMALL_WRITE then first + SMALL_WRITE else MAX_GROUP
  }

  function Bytes(w: Writer): nat {
    if w.batch.Some? then w.batch.value.bytes else 0
  }

  function TotalBytes(ws: seq<Writer>): nat {
    if ws == [] then 0 else TotalBytes(ws[..|ws| - 1]) + Bytes(ws[|ws| - 1])
  }

  function OpsOf(w: Writer): seq<Op> {
    if w.batch.Some? then w.batch.value.ops else []
  }

  function GroupOps(ws: seq<Writer>): seq<Op> {
    if ws == [] then [] else GroupOps(ws[..|ws| - 1]) + OpsOf(ws[|ws| - 1])
  }

  /** The writer at `i` may join a group whose earlier members are `ws[..i]`. */
  predicate Joins(ws: seq<Writer>, i: nat)
    requires 0 < i < |ws|
  {
    && !(ws[i].sync && !ws[0].sync)
    && (ws[i].batch.Some? ==> TotalBytes(ws[..i]) + Bytes(ws[i]) <= MaxSize(Bytes(ws[0])))
  }

  /** A group is a non-empty prefix every later member of which was allowed to join, and it is
      only cut short by a writer that was not. */
  ghost predicate IsGroup(ws: seq<Writer>, n: nat) {
    && 0 < n <= |ws| && ws[0].batch.Some?
    && (forall i :: 0 < i < n ==> Joins(ws, i))
    && (n < |ws| ==> !Joins(ws, n))
  }

  /** A small first batch may grow by 128 kilobytes, any other to a megabyte at most; a batch that
      is larger than that goes alone. */
  function LimitOf(first: nat): nat {
    if first <= 131072 then first + 131072 else if first < 1048576 then 1048576 else first
  }

  /** The summed batches of a group never exceed the limit set by its first. */
  lemma {:induction false} GroupIsBounded(ws: seq<Writer>, n: nat, j: nat)
    requires IsGroup(ws, n) && 0 < j <= n
    ensures TotalBytes(ws[..j]) <= LimitOf(ws[0].batch.value.bytes)
  {
    assert ws[..j][..j - 1] == ws[..j - 1];
    if j == 1 {
      assert TotalBytes(ws[..0]) == 0;
    } else {
      GroupIsBounded(ws, n, j - 1);
      assert Joins(ws, j - 1);
    }
  }

  /** A group ends only where the queue does, or before a writer whose sync it could not honour or
      whose batch would exceed the limit. */
  lemma GroupIsLongest(ws: seq<Writer>, n: nat)
    requires IsGroup(ws, n) && n < |ws|
    ensures var first := ws[0].batch.value.bytes;
      || (ws[n].sync && !ws[0].sync)
      || (ws[n].batch.Some? &&
          TotalBytes(ws[..n]) + ws[n].batch.value.bytes > if first <= 131072 then first + 131072 else 1048576)
  {
  }

  lemma NoSyncRidesWithoutSync(ws: seq<Writer>, n: nat, i: nat)
    requires IsGroup(ws, n) && i < n && ws[i].sync
    ensures ws[0].sync
  {
    assert i > 0 ==> Joins(ws, i);
  }

  function EntryAt(seqno: nat, op: Op): Entry {
    Entry(op.key, seqno, op.kind, op.value)
  }

  /** The entries a batch stands for once its first operation has sequence number `base`. */
  ghost function EntriesAt(base: nat, ops: seq<Op>): set<Entry> {
    set i | 0 <= i < |ops| :: EntryAt(base + i, ops[i])
  }

  lemma EntriesAtGrows(base: nat, ops: seq<Op>, i: nat)
    requires i < |ops|
    ensures EntriesAt(base, ops[..i + 1]) == EntriesAt(base, ops[..i]) + {EntryAt(base + i, ops[i])}
  {
    var L, R := EntriesAt(base, ops[..i + 1]), EntriesAt(base, ops[..i]) + {EntryAt(base + i, ops[i])};
    forall e | e in L ensures e in R {
      var j :| 0 <= j < i + 1 && e == EntryAt(base + j, ops[..i + 1][j]);
      assert j < i ==> ops[..i][j] == ops[j];
    }
    forall e | e in R ensures e in L {
      if e in EntriesAt(base, ops[..i]) {
        var j :| 0 <= j < i && e == EntryAt(base + j, ops[..i][j]);
        assert ops[..i + 1][j] == ops[j];
      } else {
        assert ops[..i + 1][i] == ops[i];
      }
    }
  }
}
