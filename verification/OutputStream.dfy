/** pb_ostream_t: a stream that writes into a buffer, or only counts. */
module OutputStream {
  import opened Options
  import opened Bits
  import opened Varint
  import opened ZigZag
  import opened Encoding

  /** `bytes` written over a buffer's contents from `at` on. */
  function Splice(b: seq<byte>, at: nat, bytes: seq<byte>): (r: seq<byte>)
    requires at + |bytes| <= |b|
    ensures |r| == |b|
  {
    b[..at] + bytes + b[at + |bytes|..]
  }

  lemma SpliceTwice(b: seq<byte>, at: nat, x: seq<byte>, y: seq<byte>)
    requires at + |x| + |y| <= |b|
    ensures Splice(Splice(b, at, x), at + |x|, y) == Splice(b, at, x + y)
  {
    var s := Splice(b, at, x);
    assert s[..at + |x|] == b[..at] + x;
    assert s[at + |x| + |y|..] == b[at + |x| + |y|..];
  }

  lemma SpliceNothing(b: seq<byte>, at: nat)
    requires at <= |b|
    ensures Splice(b, at, []) == b
  {
  }

  /** Where a stream stands; `contents` is the whole buffer behind it. */
  datatype Snap = Snap(sizing: bool, contents: seq<byte>, state: nat, maxSize: nat, written: nat)

  predicate SnapOK(s: Snap) {
    !s.sizing ==> s.written <= s.maxSize && s.state + (s.maxSize - s.written) <= |s.contents|
  }

  predicate HasSpace(s: Snap, n: nat) {
    s.sizing || s.written + n <= s.maxSize
  }

  /** The stream after `bytes` more. */
  function Advance(s: Snap, bytes: seq<byte>): (r: Snap)
    requires SnapOK(s) && HasSpace(s, |bytes|)
    ensures SnapOK(r)
  {
    if s.sizing then s.(written := s.written + |bytes|)
    else s.(contents := Splice(s.contents, s.state, bytes), state := s.state + |bytes|, written := s.written + |bytes|)
  }

  lemma AdvanceTwice(s: Snap, x: seq<byte>, y: seq<byte>)
    requires SnapOK(s)
    ensures HasSpace(s, |x + y|) <==> HasSpace(s, |x|) && HasSpace(Advance(s, x), |y|)
    ensures HasSpace(s, |x + y|) ==> Advance(Advance(s, x), y) == Advance(s, x + y)
  {
    if !s.sizing && HasSpace(s, |x + y|) {
      SpliceTwice(s.contents, s.state, x, y);
    }
  }

  lemma AdvanceNone(s: Snap)
    requires SnapOK(s)
    ensures HasSpace(s, 0) && Advance(s, []) == s
  {
    if !s.sizing {
      SpliceNothing(s.contents, s.state);
    }
  }

  class OStream {
    const sizing: bool              // no callback
    const buf: array<byte>
    var state: nat                  // where in the buffer the next byte goes
    const maxSize: nat
    var bytesWritten: nat

    ghost function Now(): Snap
      reads this, buf
    {
      Snap(sizing, buf[..], state, maxSize, bytesWritten)
    }

    ghost predicate Valid()
      reads this, buf
    {
      SnapOK(Now())
    }

    constructor (sizing: bool, buf: array<byte>, state: nat, maxSize: nat)
      ensures Now() == Snap(sizing, buf[..], state, maxSize, 0)
      ensures this.buf == buf && this.sizing == sizing && this.maxSize == maxSize
    {
      this.sizing, this.buf, this.state, this.maxSize, this.bytesWritten := sizing, buf, state, maxSize, 0;
    }

    /** buf_write. */
    method Copy(bytes: seq<byte>)
      requires state + |bytes| <= buf.Length
      modifies this`state, buf
      ensures buf[..] == Splice(old(buf[..]), old(state), bytes) && state == old(state) + |bytes|
    {
      var dest := state;
      state := dest + |bytes|;
      for i := 0 to |bytes|
        invariant dest == old(state) && state == dest + |bytes|
        invariant forall k :: 0 <= k < buf.Length && !(dest <= k < dest + i) ==> buf[k] == old(buf[k])
        invariant forall k :: 0 <= k < i ==> buf[dest + k] == bytes[k]
      {
        buf[dest + i] := bytes[i];
      }
    }

    /** pb_write: all of the bytes or, if they do not fit, none. */
    method Write(bytes: seq<byte>) returns (ok: bool)
      requires Valid()
      modifies this`state, this`bytesWritten, buf
      ensures ok == old(HasSpace(Now(), |bytes|))
      ensures Now() == if ok then old(Advance(Now(), bytes)) else old(Now())
    {
      AdvanceNone(Now());
      if |bytes| > 0 && !sizing {
        if bytesWritten + |bytes| > maxSize {
          return false;
        }
        Copy(bytes);
      }
      bytesWritten := bytesWritten + |bytes|;
      ok := true;
    }

    /** pb_write of a size without data, as the sizing passes do. */
    method Count(size: nat)
      requires sizing
      modifies this`bytesWritten
      ensures bytesWritten == old(bytesWritten) + size
    {
      bytesWritten := bytesWritten + size;
    }

    method WriteVarint(value: nat) returns (ok: bool)
      requires Valid() && value < TWO64
      modifies this`state, this`bytesWritten, buf
      ensures ok == old(HasSpace(Now(), |EncodeVarint(value)|))
      ensures Now() == if ok then old(Advance(Now(), EncodeVarint(value))) else old(Now())
    {
      var buffer, size := EncodeVarintBytes(value);
      ok := Write(buffer[..size]);
    }

    method WriteTag(wt: nat, tag: nat) returns (ok: bool)
      requires Valid() && 8 * tag + wt < TWO64
      modifies this`state, this`bytesWritten, buf
      ensures ok == old(HasSpace(Now(), |EncTag(tag, wt)|))
      ensures Now() == if ok then old(Advance(Now(), EncTag(tag, wt))) else old(Now())
    {
      ok := WriteVarint(8 * tag + wt);
    }

    /** pb_encode_string: a length and that many bytes. */
    method WriteString(bytes: seq<byte>) returns (ok: bool)
      requires Valid() && |bytes| < TWO64
      modifies this`state, this`bytesWritten, buf
      ensures Valid() && ok == old(HasSpace(Now(), |Delimited(bytes)|))
      ensures ok ==> Now() == old(Advance(Now(), Delimited(bytes)))
    {
      ghost var before := Now();
      AdvanceTwice(before, EncodeVarint(|bytes|), bytes);
      ok := WriteVarint(|bytes|);
      if ok {
        ok := Write(bytes);
      }
    }

    method WriteSVarint(value: int) returns (ok: bool)
      requires Valid() && ZigZag.Fits(value, 64)
      modifies this`state, this`bytesWritten, buf
      ensures ok == old(HasSpace(Now(), |EncodeVarint(EncodeByComplement(value, 64) % TWO64)|))
      ensures Now() ==
              if ok then old(Advance(Now(), EncodeVarint(EncodeByComplement(value, 64) % TWO64))) else old(Now())
    {
      var shifted := (2 * Word(value, 64)) % Pow2(64);
      var zigzagged := if value < 0 then Complement(shifted, 64) else shifted;
      PowersUsed();
      hide Pow2;
      Remainder(0, TWO64, zigzagged);
      ok := WriteVarint(zigzagged);
    }

    /** pb_encode_fixed32 and pb_encode_fixed64: lowest byte first. */
    method WriteFixed(value: nat, n: nat) returns (ok: bool)
      requires Valid()
      modifies this`state, this`bytesWritten, buf
      ensures ok == old(HasSpace(Now(), n))
      ensures Now() == if ok then old(Advance(Now(), LittleEndian(value, n))) else old(Now())
    {
      var bytes: seq<byte> := [];
      var w := value;
      for i := 0 to n
        invariant |bytes| == i && w >= 0 && bytes + LittleEndian(w, n - i) == LittleEndian(value, n)
      {
        assert bytes + LittleEndian(w, n - i) == bytes + [w % 256] + LittleEndian(w / 256, n - i - 1);
        bytes := bytes + [w % 256];
        w := w / 256;
      }
      ok := Write(bytes);
    }
  }
}
