/** pb_field_iter_t: the cursor over a field table that both codecs rest on. */
module Cursor {

  // PB_SIZE_MAX with 32-bit sizes: this arm of a union lies where the previous one does
  const UNION: nat := 0xFFFF_FFFF

  datatype Kind = Required | Optional | Repeated | OneOf

  /** One row of a field table.  The row after the last one has tag 0. */
  datatype Row = Row(tag: nat, kind: Kind, pointer: bool, extension: bool, dataOffset: nat, sizeOffset: int,
                     dataSize: nat, arraySize: nat)

  const POINTER_SIZE: nat := 8

  /** The bytes a row takes up in the struct. */
  function Extent(r: Row): nat {
    if !r.pointer && r.kind.Repeated? then r.dataSize * r.arraySize
    else if r.pointer then POINTER_SIZE
    else r.dataSize
  }

  predicate SharesUnion(T: seq<Row>, i: nat)
    requires 0 < i < |T|
  {
    T[i - 1].kind.OneOf? && T[i].kind.OneOf? && T[i].dataOffset == UNION
  }

  /** Where row `i`'s data lies: gaps and extents of the rows before it added up, a union counting
      once. */
  function DataAt(T: seq<Row>, i: nat): nat
    requires i < |T|
  {
    if i == 0 then T[0].dataOffset
    else if SharesUnion(T, i) then DataAt(T, i - 1)
    else DataAt(T, i - 1) + Extent(T[i - 1]) + T[i].dataOffset
  }

  function SizeAt(T: seq<Row>, i: nat): int
    requires i < |T|
  {
    if i > 0 && SharesUnion(T, i) then SizeAt(T, i - 1) else DataAt(T, i) + T[i].sizeOffset
  }

  /** Required rows before row `i`. */
  function RequiredBefore(T: seq<Row>, i: nat): nat
    requires i <= |T|
  {
    if i == 0 then 0 else RequiredBefore(T, i - 1) + if T[i - 1].kind.Required? then 1 else 0
  }

  predicate IsTable(T: seq<Row>) {
    forall i :: 0 <= i < |T| ==> T[i].tag != 0
  }

  predicate Match(r: Row, tag: nat) {
    r.tag == tag && !r.extension
  }

  /** `i` steps on from `from`, going round. */
  function Around(n: nat, from: nat, i: nat): nat
    requires from < n && i < n
  {
    if from + i < n then from + i else from + i - n
  }

  class FieldIter {
    const table: seq<Row>
    var pos: nat
    var data: nat
    var size: int
    var required: nat

    /** Whatever moves were made, the offsets and the index are those of the position. */
    ghost predicate Valid()
      reads this
    {
      && IsTable(table)
      && (table == [] ==> pos == 0 && required == 0)
      && (table != [] ==> pos < |table| && data == DataAt(table, pos) && size == SizeAt(table, pos)
                          && required == RequiredBefore(table, pos))
    }

    constructor (table: seq<Row>)
      requires IsTable(table)
      ensures Valid() && this.table == table && pos == 0
    {
      this.table := table;
      this.pos, this.required := 0, 0;
      this.data := if table == [] then 0 else table[0].dataOffset;
      this.size := if table == [] then 0 else table[0].dataOffset + table[0].sizeOffset;
    }

    function Tag(): nat
      requires pos <= |table|
      reads this
    {
      if pos < |table| then table[pos].tag else 0
    }

    method Begin() returns (more: bool)
      requires IsTable(table)
      modifies this
      ensures Valid() && pos == 0 && more == (table != [])
    {
      pos, required := 0, 0;
      if table != [] {
        data := table[0].dataOffset;
        size := data + table[0].sizeOffset;
      }
      more := Tag() != 0;
    }

    /** On to the next row; past the last one, back to the first. */
    method Next() returns (more: bool)
      requires Valid()
      modifies this
      ensures Valid() && more == (old(pos) + 1 < |table|) && pos == if more then old(pos) + 1 else 0
      ensures more ==> required == old(required) + if table[old(pos)].kind.Required? then 1 else 0
      ensures more ==>
        var prev, row := table[old(pos)], table[pos];
        if prev.kind.OneOf? && row.kind.OneOf? && row.dataOffset == 0xFFFF_FFFF
        then data == old(data) && size == old(size)
        else
          && data == old(data) + row.dataOffset +
                     (if prev.pointer then 8
                      else if prev.kind.Repeated? then prev.dataSize * prev.arraySize else prev.dataSize)
          && size == data + row.sizeOffset
    {
      if Tag() == 0 {
        return false;
      }
      var prev := table[pos];
      pos := pos + 1;
      if Tag() == 0 {
        var _ := Begin();
        return false;
      }
      var row := table[pos];
      if prev.kind.OneOf? && row.kind.OneOf? && row.dataOffset == UNION {
        return true;
      }
      var prevSize := prev.dataSize;
      if !prev.pointer && prev.kind.Repeated? {
        prevSize := prevSize * prev.arraySize;
      } else if prev.pointer {
        prevSize := POINTER_SIZE;
      }
      if prev.kind.Required? {
        required := required + 1;
      }
      data := data + prevSize + row.dataOffset;
      size := data + row.sizeOffset;
      more := true;
    }

    /** Looks for a tag from the current position on, all the way round.  The search stops at the
        first match there is in that order; without one it ends where it began. */
    method Find(tag: nat) returns (found: bool)
      requires Valid()
      modifies this
      ensures Valid()
      ensures table != [] ==> (found <==> exists i :: 0 <= i < |table| && table[i].tag == tag && !table[i].extension)
      ensures table == [] ==> (found <==> tag == 0)
      ensures found && table != [] ==> table[pos].tag == tag && !table[pos].extension
      ensures !found ==> pos == old(pos)
      ensures forall i: nat :: i < |table| && found && Around(|table|, old(pos), i) == pos ==>
                (forall k: nat :: k < i ==> !Match(table[Around(|table|, old(pos), k)], tag))
      ensures forall i: nat :: i < |table| ==> (Match(table[i], tag) <==> table[i].tag == tag && !table[i].extension)
    {
      var start := pos;
      if table == [] {
        return tag == 0;
      }
      ghost var n, i := |table|, 0;
      found := Match(table[pos], tag);
      if !found {
        var _ := Next();
        i := 1;
      }
      while !found && pos != start
        invariant Valid() && start == old(pos) && 0 <= i <= n
        invariant found ==> i < n && Match(table[pos], tag)
        invariant i < n ==> pos == Around(n, start, i)
        invariant i == n ==> pos == start
        invariant forall k: nat :: k < i ==> !Match(table[Around(n, start, k)], tag)
        decreases n - i, !found
      {
        if Match(table[pos], tag) {
          found := true;
        } else {
          var _ := Next();
          i := i + 1;
        }
      }
      if !found {
        forall j | 0 <= j < n ensures !Match(table[j], tag) {
          var k := if start <= j then j - start else j + n - start;
          assert Around(n, start, k) == j;
        }
      }
    }

    /** How many rows are required, found by running to the end of the table. */
    method CountRequired() returns (count: nat)
      requires Valid()
      modifies this
      ensures Valid() && count == RequiredBefore(table, |table|)
    {
      count := required;
      var last := if table == [] then Required else table[pos].kind;
      var more := Next();
      ghost var at: nat := old(pos);
      while more
        invariant Valid() && (table == [] ==> !more && count == 0 && last == Required)
        invariant table != [] ==> at < |table| && count == RequiredBefore(table, at) && last == table[at].kind
        invariant table != [] && !more ==> at == |table| - 1 && pos == 0
        invariant more ==> pos == at + 1
        decreases |table| - at, more
      {
        at := pos;
        count := required;
        last := table[pos].kind;
        more := Next();
      }
      if last.Required? && Tag() != 0 {
        count := count + 1;
      }
    }
  }
}
