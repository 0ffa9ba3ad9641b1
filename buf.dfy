/** The two buffers the packet codec works on in place: a read cursor
    (`&mut Bytes`, advanced by each read) and a growable output buffer
    (`BufMut`, appended to by each write). */
module Buf {
  import opened Common
  import opened Parse

  /** A `Bytes` read cursor: `rest` is what has not been read yet. */
  class Cursor {
    var rest: seq<u8>

    constructor (b: seq<u8>)
      ensures rest == b
    {
      rest := b;
    }

    method ReadU8() returns (r: Result<u8, ParseError>)
      modifies this
      ensures r == Outcome(BeU8(old(rest))) && rest == After(BeU8(old(rest)), old(rest))
    {
      var p := BeU8(rest);
      r, rest := Outcome(p), After(p, rest);
    }

    method ReadU16() returns (r: Result<u16, ParseError>)
      modifies this
      ensures r == Outcome(BeU16(old(rest))) && rest == After(BeU16(old(rest)), old(rest))
    {
      var p := BeU16(rest);
      r, rest := Outcome(p), After(p, rest);
    }

    method ReadNtString() returns (r: Result<Str, ParseError>)
      modifies this
      ensures r == Outcome(NtString(old(rest))) && rest == After(NtString(old(rest)), old(rest))
    {
      var p := NtString(rest);
      r, rest := Outcome(p), After(p, rest);
    }

    method ReadNpHexString(size: nat) returns (r: Result<seq<u8>, ParseError>)
      modifies this
      ensures r == Outcome(NpHexString(old(rest), size))
      ensures rest == After(NpHexString(old(rest), size), old(rest))
    {
      var p := NpHexString(rest, size);
      r, rest := Outcome(p), After(p, rest);
    }

    /** `Buf::to_bytes`: everything that is left, which empties the cursor. */
    method ToBytes() returns (r: seq<u8>)
      modifies this
      ensures r == old(rest) && rest == []
    {
      r, rest := rest, [];
    }
  }

  /** A `BufMut` output buffer: `data` is everything written so far. */
  class Writer {
    var data: seq<u8>

    constructor ()
      ensures data == []
    {
      data := [];
    }

    method PutU8(v: u8)
      modifies this
      ensures data == old(data) + [v]
    {
      data := data + [v];
    }

    method PutU16(v: u16)
      modifies this
      ensures data == old(data) + U16Bytes(v)
    {
      data := data + U16Bytes(v);
    }

    method PutSlice(s: seq<u8>)
      modifies this
      ensures data == old(data) + s
    {
      data := data + s;
    }
  }
}
