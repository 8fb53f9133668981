/** Fields allocated on demand: the overflow test of allocate_field, and how the storage of a
    packed array grows while it is received. */
module Pointers {
  import opened Options
  import opened Bits
  import opened Varint
  import opened Descriptors
  import opened Encoding
  import opened Decoding
  import opened InputStream

  /** Dividing the largest size detects exactly the products that do not fit. */
  lemma DivisionDetects(m: nat, a: nat, d: nat)
    requires a > 0
    ensures m / a < d <==> a * d > m
  {
    var q, r := m / a, m % a;
    assert m == a * q + r;
    if q < d {
      AtMost(q + 1, d, a);
      assert (q + 1) * a == a * q + a;
    } else {
      AtMost(d, q, a);
    }
  }

  lemma SmallProduct(a: nat, d: nat)
    requires a < TWO32 && d < TWO32
    ensures a * d < TWO64
  {
    AtMost(a, TWO32, d);
    AtMost(d, TWO32, TWO32);
  }

  /** So many items of the size can be had. */
  ghost predicate Obtains(items: nat, dataSize: nat, realloc: nat -> bool) {
    dataSize > 0 && items > 0 && items * dataSize < TWO64 && realloc(items * dataSize)
  }

  /** Succeeds exactly if the sizes are positive, their product is a size_t, and the memory is
      there. */
  method AllocateField(dataSize: nat, arraySize: nat, realloc: nat -> bool) returns (ok: bool)
    requires dataSize < TWO64 && arraySize < TWO64
    ensures ok <==> Obtains(arraySize, dataSize, realloc)
  {
    if dataSize == 0 || arraySize == 0 {
      return false;
    }
    if dataSize >= TWO32 || arraySize >= TWO32 {
      DivisionDetects(TWO64 - 1, arraySize, dataSize);
      if (TWO64 - 1) / arraySize < dataSize {
        return false;
      }
    } else {
      SmallProduct(arraySize, dataSize);
    }
    ok := realloc(arraySize * dataSize);
  }

  /** `n` values of the size are just enough for what is left to read. */
  predicate CountsFor(n: nat, left: nat, dataSize: nat) {
    (n - 1) * dataSize < left <= n * dataSize
  }

  lemma RoundedUp(left: nat, dataSize: nat)
    requires 0 < left && 0 < dataSize
    ensures CountsFor((left - 1) / dataSize + 1, left, dataSize)
  {
    var q := (left - 1) / dataSize;
    assert left - 1 == q * dataSize + (left - 1) % dataSize;
    assert (q + 1) * dataSize == q * dataSize + dataSize;
  }

  /** Grows the storage by the number of items the bytes left could hold, or by one where that
      would pass the largest count. */
  method Grow(room: nat, left: nat, dataSize: nat, sizeMax: nat, realloc: nat -> bool) returns (ok: bool, more: nat)
    requires room < sizeMax < TWO32 && 0 < left && 0 < dataSize < TWO64
    ensures room < more <= sizeMax && ok == Obtains(more, dataSize, realloc)
    ensures exists n: nat :: CountsFor(n, left, dataSize) && more == room + if n < sizeMax - room then n else 1
  {
    hide Obtains;
    var remain := (left - 1) / dataSize + 1;
    RoundedUp(left, dataSize);
    more := if remain < sizeMax - room then room + remain else room + 1;
    ok := AllocateField(dataSize, more, realloc);
  }

  /** Why receiving the items stopped. */
  datatype Stop = AllRead | Full | Denied | Malformed

  method FillItems(sub: IStream, l: LType, before: seq<Value>, dataSize: nat, sizeMax: nat, realloc: nat -> bool)
    returns (stop: Stop, items: seq<Value>, room: nat)
    requires sub.Valid() && 0 < dataSize < TWO64 && |before| <= sizeMax < TWO32 && !l.Submessage?
    modifies sub`pos, sub`left
    ensures sub.Valid() && sub.End() <= old(sub.End()) && |before| <= |items| <= room <= sizeMax
    ensures stop != Denied ==> room == |before| || Obtains(room, dataSize, realloc)
    ensures stop == Denied ==> exists k :: 0 < k <= sizeMax && !Obtains(k, dataSize, realloc)
    ensures stop == AllRead ==> sub.left == 0 && sub.End() == old(sub.End())
    ensures stop == AllRead ==> DecPacked(l, before, sizeMax, old(sub.Rest())) == Good(items, [])
    ensures stop == Malformed ==> DecPacked(l, before, sizeMax, old(sub.Rest())).Bad?
    ensures stop == Full ==>
      var p := DecPacked(l, before, sizeMax, old(sub.Rest())); p.Good? && p.rest != []
  {
    hide DecScalar, Obtains;
    stop, items, room := AllRead, before, |before|;
    while sub.left > 0
      invariant sub.Valid() && sub.End() == old(sub.End()) && |before| <= |items| <= room <= sizeMax
      invariant DecPacked(l, items, sizeMax, sub.Rest()) == DecPacked(l, before, sizeMax, old(sub.Rest()))
      invariant room == |before| || Obtains(room, dataSize, realloc)
      invariant stop == AllRead
      decreases sub.left
    {
      assert |sub.Rest()| == sub.left;
      if |items| == sizeMax {
        stop := Full;
        return;
      }
      if |items| + 1 > room {
        var ok, more := Grow(room, sub.left, dataSize, sizeMax, realloc);
        if !ok {
          stop := Denied;
          return;
        }
        room := more;
      }
      var ok, v := ReadScalar(sub, l);
      if !ok {
        stop := Malformed;
        return;
      }
      assert |sub.Rest()| == sub.left;
      items := items + [v];
    }
    assert |sub.Rest()| == sub.left;
  }

  /** A packed array into storage that grows.  Each item is stored within what has been allocated,
      and the allocation never passes the largest count. */
  method ReadPackedPointer(stream: IStream, l: LType, before: seq<Value>, dataSize: nat, sizeMax: nat,
                           realloc: nat -> bool) returns (ok: bool, items: seq<Value>, room: nat)
    requires stream.Valid() && Packable(l) && 0 < dataSize < TWO64 && |before| <= sizeMax < TWO32
    modifies stream`pos, stream`left
    ensures stream.Valid() && |before| <= |items| <= room <= sizeMax
    ensures ok ==> room == |before| || Obtains(room, dataSize, realloc)
    ensures match TakeString(old(stream.Rest()))
            case Bad => !ok
            case Good(sub, rest) =>
              && (ok ==> stream.Rest() == rest && DecPacked(l, before, sizeMax, sub) == Good(items, []))
              && (!ok ==> (forall all :: DecPacked(l, before, sizeMax, sub) != Good(all, []))
                          || exists k :: 0 < k <= sizeMax && !Obtains(k, dataSize, realloc))
  {
    hide TakeString, DecPacked, Obtains;
    items, room := before, |before|;
    var sub;
    ok, sub := stream.MakeStringSubstream();
    if !ok {
      return;
    }
    var stop;
    stop, items, room := FillItems(sub, l, before, dataSize, sizeMax, realloc);
    stream.CloseStringSubstream(sub);
    ok := stop == AllRead;
  }
}
