/** pb_istream_t over a buffer, and the readers of single values. */
module InputStream {
  import opened Options
  import opened Bits
  import opened Varint
  import opened ZigZag
  import opened Descriptors
  import opened Encoding
  import opened Decoding

  class IStream {
    const buf: array<byte>
    var pos: nat
    var left: nat

    ghost predicate Valid()
      reads this
    {
      pos + left <= buf.Length
    }

    /** The bytes not read yet. */
    ghost function Rest(): seq<byte>
      requires Valid()
      reads this, buf
    {
      buf[pos..pos + left]
    }

    ghost function End(): nat
      reads this
    {
      pos + left
    }

    constructor (buf: array<byte>, pos: nat, left: nat)
      requires pos + left <= buf.Length
      ensures Valid() && this.buf == buf && this.pos == pos && this.left == left
    {
      this.buf, this.pos, this.left := buf, pos, left;
    }

    method ReadByte() returns (ok: bool, b: byte)
      requires Valid()
      modifies this`pos, this`left
      ensures Valid() && End() == old(End()) && ok == (old(Rest()) != [])
      ensures ok ==> b == old(Rest())[0] && Rest() == old(Rest())[1..]
      ensures !ok ==> left == 0
    {
      if left == 0 {
        return false, 0;
      }
      b := buf[pos];
      pos, left := pos + 1, left - 1;
      ok := true;
    }

    /** pb_read. */
    method Read(count: nat) returns (ok: bool, bytes: seq<byte>)
      requires Valid()
      modifies this`pos, this`left
      ensures Valid() && End() == old(End())
      ensures match Take(count, old(Rest())) case Bad => !ok case Good(v, rest) => ok && bytes == v && Rest() == rest
    {
      if left < count {
        return false, [];
      }
      bytes := buf[pos..pos + count];
      pos, left := pos + count, left - count;
      ok := true;
    }

    /** pb_decode_varint32_eof. */
    method ReadVarint32() returns (ok: bool, value: nat, eof: bool)
      requires Valid()
      modifies this`pos, this`left
      ensures Valid() && End() == old(End()) && eof == (old(Rest()) == [])
      ensures match DecodeVarint32(old(Rest())) case Bad => !ok case Good(v, rest) => ok && value == v && Rest() == rest
    {
      ghost var start := Rest();
      var b;
      value, eof := 0, false;
      ok, b := ReadByte();
      if !ok {
        eof := left == 0;
        return;
      }
      var result: nat;
      if b < 128 {
        result := b;
      } else {
        var bitpos: nat := 7;
        result := b % 128;
        var more := true;
        while more
          invariant ok && Valid() && End() == old(End()) && start != [] && start[0] >= 128
          invariant more ==> Varint32Loop(Rest(), bitpos, result) == DecodeVarint32(start)
          invariant !more ==>
            (if bitpos == 35 && (b / 16) % 8 != 0 then Bad else Good(result, Rest())) == DecodeVarint32(start)
          decreases left, more
        {
          ok, b := ReadByte();
          if !ok {
            return;
          }
          if bitpos >= 32 {
            var signExtension := if bitpos < 63 then 0xFF else 0x01;
            if b % 128 != 0 && (result / TWO31 == 0 || b != signExtension) {
              ok := false;
              return;
            }
          } else {
            result := Or(result, (b % 128 * Pow2(bitpos)) % TWO32);
          }
          bitpos := (bitpos + 7) % 256;
          more := b >= 128;
        }
        if bitpos == 35 && (b / 16) % 8 != 0 {
          ok := false;
          return;
        }
      }
      value := result;
    }

    /** pb_decode_varint. */
    method ReadVarint() returns (ok: bool, value: nat)
      requires Valid()
      modifies this`pos, this`left
      ensures Valid() && End() == old(End())
      ensures match DecodeVarint(old(Rest())) case Bad => !ok case Good(v, rest) => ok && value == v && Rest() == rest
    {
      var bitpos, result: nat, more := 0, 0, true;
      ok, value := true, 0;
      while more
        invariant ok && Valid() && End() == old(End()) && 0 <= bitpos
        invariant DecodeVarint(old(Rest())) ==
                  if more then VarintLoop(Rest(), bitpos, result) else Good(result, Rest())
        decreases left, more
      {
        if bitpos >= 64 {
          ok := false;
          return;
        }
        var b;
        ok, b := ReadByte();
        if !ok {
          return;
        }
        result := Or(result, (b % 128 * Pow2(bitpos)) % TWO64);
        bitpos := bitpos + 7;
        more := b >= 128;
      }
      value := result;
    }

    method SkipVarintBytes() returns (ok: bool)
      requires Valid()
      modifies this`pos, this`left
      ensures Valid() && End() == old(End())
      ensures match SkipVarint(old(Rest())) case Bad => !ok case Good(_, rest) => ok && Rest() == rest
    {
      var more := true;
      ok := true;
      while more
        invariant ok && Valid() && End() == old(End())
        invariant (if more then SkipVarint(Rest()) else Good((), Rest())) == SkipVarint(old(Rest()))
        decreases left, more
      {
        var b;
        ok, b := ReadByte();
        if !ok {
          return;
        }
        more := b >= 128;
      }
    }

    /** A length, and that many bytes. */
    method ReadString() returns (ok: bool, bytes: seq<byte>)
      requires Valid()
      modifies this`pos, this`left
      ensures Valid() && End() == old(End())
      ensures match TakeString(old(Rest())) case Bad => !ok case Good(s, rest) => ok && bytes == s && Rest() == rest
    {
      hide DecodeVarint32;
      bytes := [];
      var size, eof;
      ok, size, eof := ReadVarint32();
      if ok {
        ok, bytes := Read(size);
      }
    }

    /** pb_decode_tag.  A zero tag ends the message like the end of the bytes does. */
    method ReadTag() returns (ok: bool, tag: nat, wt: nat, eof: bool)
      requires Valid()
      modifies this`pos, this`left
      ensures Valid() && End() == old(End())
      ensures old(Rest()) == [] ==> !ok && eof
      ensures old(Rest()) != [] ==>
        match DecodeTag(old(Rest()))
        case BadTag => !ok && !eof
        case EndTag => !ok && eof
        case FieldTag(t, w, rest) => ok && tag == t && wt == w && Rest() == rest
    {
      hide DecodeVarint32;
      var temp;
      tag, wt := 0, 0;
      ok, temp, eof := ReadVarint32();
      if !ok {
        return;
      }
      if temp == 0 {
        return false, 0, 0, true;
      }
      tag, wt := temp / 8, temp % 8;
    }

    /** pb_skip_field. */
    method Skip(wt: nat) returns (ok: bool)
      requires Valid()
      modifies this`pos, this`left
      ensures Valid() && End() == old(End())
      ensures match SkipField(wt, old(Rest())) case Bad => !ok case Good(_, rest) => ok && Rest() == rest
    {
      hide SkipVarint, Take, TakeString;
      var bytes;
      if wt == WT_VARINT {
        ok := SkipVarintBytes();
      } else if wt == WT_64BIT {
        ok, bytes := Read(8);
      } else if wt == WT_STRING {
        ok, bytes := ReadString();
      } else if wt == WT_32BIT {
        ok, bytes := Read(4);
      } else {
        ok := false;
      }
    }

    /** pb_make_string_substream: the string becomes a stream of its own, and this stream stands
        still until the substream is closed. */
    method MakeStringSubstream() returns (ok: bool, sub: IStream)
      requires Valid()
      modifies this`pos, this`left
      ensures Valid() && sub.Valid()
      ensures match TakeString(old(Rest()))
              case Bad => !ok && End() == old(End())
              case Good(s, rest) =>
                ok && fresh(sub) && sub.buf == buf && sub.Rest() == s && sub.pos == pos
                && sub.End() + left == old(End()) && buf[sub.End()..sub.End() + left] == rest
    {
      hide DecodeVarint32, Take;
      sub := this;
      var size, eof;
      ok, size, eof := ReadVarint32();
      if ok {
        ok, sub := SplitOff(size);
      }
    }

    /** The next `size` bytes become a stream of their own, if there are so many. */
    method SplitOff(size: nat) returns (ok: bool, sub: IStream)
      requires Valid()
      modifies this`left
      ensures Valid() && sub.Valid()
      ensures match Take(size, old(Rest()))
              case Bad => !ok && left == old(left)
              case Good(s, rest) =>
                ok && fresh(sub) && sub.buf == buf && sub.Rest() == s && sub.pos == pos
                && sub.End() + left == old(End()) && buf[sub.End()..sub.End() + left] == rest
    {
      ghost var all := Rest();
      sub := new IStream(buf, pos, left);
      if sub.left < size {
        return false, sub;
      }
      sub.left := size;
      left := left - size;
      ok := true;
      assert Take(size, all) == Good(all[..size], all[size..]);
      assert sub.Rest() == all[..size];
      assert buf[sub.End()..sub.End() + left] == all[size..];
    }

    /** pb_close_string_substream: whatever the substream left is passed over. */
    method CloseStringSubstream(sub: IStream)
      requires sub != this && sub.buf == buf && sub.Valid() && sub.End() + left <= buf.Length
      modifies this`pos, sub`pos, sub`left
      ensures Valid() && left == old(left) && pos == old(sub.End())
    {
      if sub.left > 0 {
        var _, _ := sub.Read(sub.left);
      }
      pos := sub.pos;
    }
  }

  /** pb_dec_bool, pb_dec_varint, ..., pb_dec_fixed_length_bytes. */
  method ReadScalar(stream: IStream, l: LType) returns (ok: bool, v: Value)
    requires stream.Valid() && !l.Submessage?
    modifies stream`pos, stream`left
    ensures stream.Valid() && stream.End() == old(stream.End())
    ensures match DecScalar(l, old(stream.Rest()))
            case Bad => !ok
            case Good(x, rest) => ok && v == x && stream.Rest() == rest
  {
    hide DecodeVarint32, DecodeVarint, Take, TakeString, IntOfVarint, UIntOfVarint, SIntOfVarint;
    v := VBool(false);
    if l.Bool? {
      var value, eof;
      ok, value, eof := stream.ReadVarint32();
      v := VBool(value != 0);
    } else if l.Fixed32? || l.Fixed64? {
      var bytes;
      ok, bytes := stream.Read(if l.Fixed32? then 4 else 8);
      v := VBits(FromLittleEndian(bytes));
    } else if l.Int? || l.UInt? || l.SInt? {
      var value;
      ok, value := stream.ReadVarint();
      if ok {
        if IntOf(l, value).None? {
          return false, v;
        }
        v := VInt(IntOf(l, value).value);
      }
    } else {
      var bytes;
      ok, bytes := stream.ReadString();
      if ok {
        if StringOf(l, bytes).None? {
          return false, v;
        }
        v := StringOf(l, bytes).value;
      }
    }
  }
}
