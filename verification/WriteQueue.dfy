/** The writer queue in place: choosing a group and dismissing it. */
module WriteQueue {
  import opened Options
  import opened Entries
  import opened Writers

  /** What Write keeps on its stack for one queued writer. */
  class Slot {
    const writer: Writer
    var done: bool
    var ok: bool

    constructor (w: Writer)
      ensures writer == w && !done
    {
      writer, done, ok := w, false, false;
    }
  }

  predicate Distinct(slots: seq<Slot>) {
    forall i, j :: 0 <= i < j < |slots| ==> slots[i] != slots[j]
  }

  function WritersOf(slots: seq<Slot>): (ws: seq<Writer>)
    ensures |ws| == |slots| && forall i :: 0 <= i < |slots| ==> ws[i] == slots[i].writer
  {
    seq(|slots|, i requires 0 <= i < |slots| => slots[i].writer)
  }

  lemma WritersOfRest(slots: seq<Slot>, n: nat)
    requires n <= |slots|
    ensures WritersOf(slots[n..]) == WritersOf(slots)[n..]
  {
  }

  class Queue {
    var slots: seq<Slot>
    var tmpBatch: seq<Op>

    ghost function Plain(): seq<Writer>
      reads this
    {
      WritersOf(slots)
    }

    ghost predicate Valid()
      reads this
    {
      tmpBatch == [] && Distinct(slots)
    }

    constructor ()
      ensures Valid() && slots == []
    {
      slots, tmpBatch := [], [];
    }

    method Join(s: Slot)
      requires Valid() && s !in slots
      modifies this`slots
      ensures Valid() && slots == old(slots) + [s] && Plain() == old(Plain()) + [s.writer]
    {
      slots := slots + [s];
    }

    /** The group's size and its operations in queue order.  A group of one leaves the shared
        batch alone; a larger one is collected there. */
    method BuildBatchGroup() returns (n: nat, ops: seq<Op>)
      requires Valid() && slots != [] && slots[0].writer.batch.Some?
      modifies this`tmpBatch
      ensures IsGroup(Plain(), n)
      ensures ops == GroupOps(Plain()[..n])
      ensures tmpBatch == [] || tmpBatch == ops
    {
      hide TotalBytes, GroupOps;
      ghost var ws := Plain();
      var first := slots[0].writer;
      ops := first.batch.value.ops;
      var size := first.batch.value.bytes;
      var maxSize := MAX_GROUP;
      if size <= SMALL_WRITE {
        maxSize := size + SMALL_WRITE;
      }
      GroupOfOne(ws);
      n := 1;
      var collecting := false;
      while n < |slots|
        invariant 1 <= n <= |slots| && Plain() == ws
        invariant forall i :: 0 < i < n ==> Joins(ws, i)
        invariant size == TotalBytes(ws[..n]) && ops == GroupOps(ws[..n])
        invariant tmpBatch == if collecting then ops else []
      {
        var w := slots[n].writer;
        assert w == ws[n];
        GroupOfMore(ws, n);
        if w.sync && !first.sync {
          break;
        }
        if w.batch.Some? {
          size := size + w.batch.value.bytes;
          if size > maxSize {
            break;
          }
          if !collecting {
            tmpBatch := ops;
            collecting := true;
          }
          tmpBatch := tmpBatch + w.batch.value.ops;
          ops := tmpBatch;
        }
        n := n + 1;
      }
    }

    /** The group from the front of the queue up to `last` leaves it.  Every member but the
        leader itself is told the leader's status and that it is done, and nobody else is. */
    method Dismiss(leader: Slot, last: Slot, ok: bool, ghost n: nat)
      requires 0 < n <= |slots| && leader == slots[0] && last == slots[n - 1]
      requires Distinct(slots)
      modifies this, slots
      ensures slots == old(slots)[n..] && tmpBatch == []
      ensures forall i :: 0 < i < n ==> old(slots)[i].done && old(slots)[i].ok == ok
      ensures forall w :: w in old(slots)[n..] + [leader] ==> w.done == old(w.done) && w.ok == old(w.ok)
      ensures Valid() && Plain() == old(Plain())[n..]
    {
      hide WritersOf, Told, Distinct;
      tmpBatch := [];
      ghost var all, k, told := slots, 0, {};
      NobodyTold(all);
      while true
        invariant 0 <= k < n && slots == all[k..] && tmpBatch == []
        invariant told == Told(all, k)
        invariant forall w :: w in told ==> w.done && w.ok == ok
        invariant forall w :: w in all && w !in told ==> w.done == old(w.done) && w.ok == old(w.ok)
        decreases n - k
      {
        var ready := slots[0];
        slots := slots[1..];
        if ready != leader {
          ready.ok := ok;
          ready.done := true;
          told := told + {ready};
        }
        ToldNext(all, k);
        k := k + 1;
        if ready == last {
          SameSlot(all, k - 1, n - 1);
          break;
        }
      }
      WhoIsTold(all, k);
      RestIsDistinct(all, n);
      WritersOfRest(all, n);
    }
  }

  /** The members after the leader among the first `k`. */
  ghost function Told(all: seq<Slot>, k: nat): set<Slot>
    requires k <= |all|
  {
    set i | 0 < i < k :: all[i]
  }

  lemma NobodyTold(all: seq<Slot>)
    ensures Told(all, 0) == {} && all[0..] == all
  {
  }

  lemma SameSlot(all: seq<Slot>, i: nat, j: nat)
    requires i < |all| && j < |all| && Distinct(all) && all[i] == all[j]
    ensures i == j
  {
  }

  lemma RestIsDistinct(all: seq<Slot>, n: nat)
    requires n <= |all| && Distinct(all)
    ensures Distinct(all[n..])
  {
  }

  lemma ToldNext(all: seq<Slot>, k: nat)
    requires k < |all| && Distinct(all)
    ensures Told(all, k + 1) == Told(all, k) + if all[k] != all[0] then {all[k]} else {}
    ensures all[k..][1..] == all[k + 1..] && all[k..][0] == all[k]
  {
  }

  lemma WhoIsTold(all: seq<Slot>, k: nat)
    requires 0 < k <= |all| && Distinct(all)
    ensures forall i :: 0 < i < k ==> all[i] in Told(all, k)
    ensures forall w :: w in all[k..] + [all[0]] ==> w in all && w !in Told(all, k)
  {
  }

  lemma GroupOfOne(ws: seq<Writer>)
    requires ws != []
    ensures TotalBytes(ws[..1]) == Bytes(ws[0]) && GroupOps(ws[..1]) == OpsOf(ws[0])
  {
    assert ws[..1][..0] == [];
    assert GroupOps(ws[..1]) == [] + OpsOf(ws[0]);
  }

  lemma GroupOfMore(ws: seq<Writer>, n: nat)
    requires n < |ws|
    ensures TotalBytes(ws[..n + 1]) == TotalBytes(ws[..n]) + Bytes(ws[n])
    ensures GroupOps(ws[..n + 1]) == GroupOps(ws[..n]) + OpsOf(ws[n])
  {
    assert ws[..n + 1][..n] == ws[..n];
  }
}
