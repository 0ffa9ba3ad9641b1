/** The byte-level primitives both codecs are built from: big-endian
    integer reads, NUL-terminated UTF-8 strings and NUL-padded fixed-width
    hex fields. The crate's own `util::parse` and `hex` helpers are not part
    of this model; these definitions state the behaviour the codecs rely on.
    Every reader returns the value and the bytes after it, or an error and
    consumes nothing. */
module Parse {
  import opened Common

  datatype ParseError =
    | NeedMore(n: nat)   // this many more bytes were needed
    | MissingNul         // no NUL terminator before the end of input
    | BadUtf8            // the string bytes are not well-formed UTF-8
    | BadHex             // the hex field is not an even run of hex digits

  datatype Parsed<+T> = Parsed(value: T, rest: seq<u8>) | Failed(error: ParseError)

  /** What a reader leaves in a `&mut Bytes` cursor that held `b`. */
  function After<T>(p: Parsed<T>, b: seq<u8>): seq<u8> {
    if p.Parsed? then p.rest else b
  }

  /** The outcome of a reader as a `Result`. */
  function Outcome<T>(p: Parsed<T>): Result<T, ParseError> {
    if p.Parsed? then Ok(p.value) else Err(p.error)
  }

  //////////////////////////////////////////////////////////////////////////
  // Big-endian integers

  function BeU8(b: seq<u8>): Parsed<u8> {
    if |b| < 1 then Failed(NeedMore(1)) else Parsed(b[0], b[1..])
  }

  function BeU16(b: seq<u8>): Parsed<u16> {
    if |b| < 2 then Failed(NeedMore(2 - |b|)) else Parsed(U16Of(b[0], b[1]), b[2..])
  }

  /** Reading a `u16` gives back what `put_u16` wrote, and nothing more is consumed. */
  lemma BeU16Inverts(v: u16, rest: seq<u8>)
    ensures BeU16(U16Bytes(v) + rest) == Parsed(v, rest)
  {
    var b := U16Bytes(v) + rest;
    assert b[2..] == rest;
    assert U16Bytes(U16Of(b[0], b[1])) == U16Bytes(v);
  }

  /** The bytes a `u16` read consumes are the big-endian bytes of the value read. */
  lemma BeU16Splits(b: seq<u8>)
    requires |b| >= 2
    ensures b == U16Bytes(U16Of(b[0], b[1])) + b[2..]
  {
    assert b == b[..2] + b[2..];
  }

  lemma BeU8Inverts(v: u8, rest: seq<u8>)
    ensures BeU8([v] + rest) == Parsed(v, rest)
  {
    assert ([v] + rest)[1..] == rest;
  }

  //////////////////////////////////////////////////////////////////////////
  // NUL-terminated strings

  predicate NoNul(s: seq<u8>) {
    forall i :: 0 <= i < |s| ==> s[i] != 0
  }

  /** The index of the first NUL byte of `b`, if any. */
  function FirstNul(b: seq<u8>): (r: Option<nat>)
    ensures r.Some? ==> r.value < |b| && b[r.value] == 0 && NoNul(b[..r.value])
    ensures r.None? ==> NoNul(b)
  {
    if b == [] then None
    else if b[0] == 0 then Some(0)
    else
      match FirstNul(b[1..])
      case None => None
      case Some(i) =>
        assert b[..i + 1] == [b[0]] + b[1..][..i];
        Some(i + 1)
  }

  /** A NUL-free prefix followed by a NUL: that NUL is the first. */
  lemma FirstNulAfter(s: seq<u8>, rest: seq<u8>)
    requires NoNul(s)
    ensures FirstNul(s + [0] + rest) == Some(|s|)
  {
    var b := s + [0] + rest;
    assert b[|s|] == 0;
    assert !NoNul(b);
  }

  /** A continuation byte 10xxxxxx. */
  predicate Cont(c: u8) {
    0x80 <= c <= 0xBF
  }

  /** Well-formed UTF-8: the byte sequences of the table in section 4 of
      RFC 3629 (no overlong forms, no surrogates, nothing above U+10FFFF). */
  predicate IsUtf8(s: seq<u8>)
    decreases |s|
  {
    if s == [] then true
    else if s[0] < 0x80 then IsUtf8(s[1..])
    else if 0xC2 <= s[0] <= 0xDF then
      |s| >= 2 && Cont(s[1]) && IsUtf8(s[2..])
    else if 0xE0 <= s[0] <= 0xEF then
      |s| >= 3 && Cont(s[2])
      && (if s[0] == 0xE0 then 0xA0 <= s[1] <= 0xBF
          else if s[0] == 0xED then 0x80 <= s[1] <= 0x9F
          else Cont(s[1]))
      && IsUtf8(s[3..])
    else if 0xF0 <= s[0] <= 0xF4 then
      |s| >= 4 && Cont(s[2]) && Cont(s[3])
      && (if s[0] == 0xF0 then 0x90 <= s[1] <= 0xBF
          else if s[0] == 0xF4 then 0x80 <= s[1] <= 0x8F
          else Cont(s[1]))
      && IsUtf8(s[4..])
    else false
  }

  /** The bytes of a Rust `&str` / `StringBytes`: always well-formed UTF-8. */
  type Str = s: seq<u8> | IsUtf8(s) witness []

  /** `nt_string`: the bytes up to the first NUL, which is consumed. */
  function NtString(b: seq<u8>): (r: Parsed<Str>)
    ensures r.Parsed? ==> NoNul(r.value) && b == r.value + [0] + r.rest
    ensures r.Failed? ==> (r.error == MissingNul <==> NoNul(b))
  {
    match FirstNul(b)
    case None => Failed(MissingNul)
    case Some(i) =>
      assert b == b[..i] + [0] + b[i + 1..];
      if IsUtf8(b[..i]) then var s: Str := b[..i]; Parsed(s, b[i + 1..]) else Failed(BadUtf8)
  }

  /** A string without NUL, written with its terminator, reads back exactly. */
  lemma NtStringInverts(s: Str, rest: seq<u8>)
    requires NoNul(s)
    ensures NtString(s + [0] + rest) == Parsed(s, rest)
  {
    var b := s + [0] + rest;
    FirstNulAfter(s, rest);
    assert b[..|s|] == s;
    assert b[|s| + 1..] == rest;
  }

  //////////////////////////////////////////////////////////////////////////
  // Hex text

  /** Lower-case hex digit of a nibble. */
  function HexDigit(n: int): (c: u8)
    requires 0 <= n < 16
  {
    if n < 10 then 0x30 + n else 0x61 + (n - 10)     // '0'.., 'a'..
  }

  /** The value of a hex digit, either case. */
  function HexValue(c: u8): (r: Option<int>)
    ensures r.Some? ==> 0 <= r.value < 16 && c != 0
  {
    if 0x30 <= c <= 0x39 then Some(c - 0x30)          // '0'..'9'
    else if 0x61 <= c <= 0x66 then Some(c - 0x61 + 10) // 'a'..'f'
    else if 0x41 <= c <= 0x46 then Some(c - 0x41 + 10) // 'A'..'F'
    else None
  }

  /** Every byte as two hex digits, high nibble first. */
  function HexEncode(raw: seq<u8>): (r: seq<u8>)
    ensures |r| == 2 * |raw|
    ensures NoNul(r)
  {
    if raw == [] then []
    else [HexDigit(raw[0] / 16), HexDigit(raw[0] % 16)] + HexEncode(raw[1..])
  }

  /** Hex text back to bytes; `None` on an odd length or a non-digit. */
  function HexDecode(t: seq<u8>): (r: Option<seq<u8>>)
    ensures r.Some? ==> 2 * |r.value| == |t|
    decreases |t|
  {
    if t == [] then Some([])
    else if |t| == 1 then None
    else
      match (HexValue(t[0]), HexValue(t[1]), HexDecode(t[2..]))
      case (Some(hi), Some(lo), Some(tail)) => Some([hi * 16 + lo] + tail)
      case _ => None
  }

  /** Hex text is produced byte by byte. */
  lemma {:induction false} HexAppend(a: seq<u8>, b: seq<u8>)
    ensures HexEncode(a + b) == HexEncode(a) + HexEncode(b)
  {
    if a != [] {
      var ab := a + b;
      var pair := [HexDigit(a[0] / 16), HexDigit(a[0] % 16)];
      assert ab[0] == a[0] && ab[1..] == a[1..] + b;
      assert HexEncode(ab) == pair + HexEncode(a[1..] + b);
      assert HexEncode(a) == pair + HexEncode(a[1..]);
      HexAppend(a[1..], b);
    } else {
      assert a + b == b;
    }
  }

  lemma {:induction false} HexDecodeEncode(raw: seq<u8>)
    ensures HexDecode(HexEncode(raw)) == Some(raw)
  {
    if raw != [] {
      var t := HexEncode(raw);
      assert t[2..] == HexEncode(raw[1..]);
      HexDecodeEncode(raw[1..]);
      assert [raw[0] / 16 * 16 + raw[0] % 16] + raw[1..] == raw;
    }
  }

  //////////////////////////////////////////////////////////////////////////
  // NUL-padded hex fields (the ENC key and authenticator parts)

  /** Width of one hex field in bytes. */
  const PART_SIZE: nat := 32

  /** A raw part that fits one field: at most 16 bytes. */
  type Part = s: seq<u8> | |s| <= 16

  function Zeros(n: nat): (z: seq<u8>)
    ensures |z| == n && forall i :: 0 <= i < n ==> z[i] == 0
  {
    seq(n, _ => 0)
  }

  /** The hex text of `raw` padded with NUL bytes to the field width. */
  function HexField(raw: Part): (f: seq<u8>)
    ensures |f| == PART_SIZE
  {
    HexEncode(raw) + Zeros(PART_SIZE - 2 * |raw|)
  }

  /** `np_hex_string`: a `size`-byte field whose hex text ends at its first
      NUL (or fills it), decoded to bytes. */
  function NpHexString(b: seq<u8>, size: nat): (r: Parsed<seq<u8>>)
    ensures r.Parsed? ==> 2 * |r.value| <= size <= |b| && r.rest == b[size..]
    ensures r.Failed? && |b| >= size ==> r.error == BadHex
  {
    if |b| < size then Failed(NeedMore(size - |b|))
    else
      var field := b[..size];
      var text := match FirstNul(field) case None => field case Some(i) => field[..i];
      match HexDecode(text)
      case None => Failed(BadHex)
      case Some(v) => Parsed(v, b[size..])
  }

  /** A field written by `HexField` reads back to the same part. */
  lemma NpHexStringInverts(raw: Part, rest: seq<u8>)
    ensures NpHexString(HexField(raw) + rest, PART_SIZE) == Parsed<seq<u8>>.Parsed(raw, rest)
  {
    var b := HexField(raw) + rest;
    var field := b[..PART_SIZE];
    assert field == HexField(raw);
    assert b[PART_SIZE..] == rest;
    HexDecodeEncode(raw);
    if |raw| == 16 {
      assert Zeros(0) == [];
      assert field == HexEncode(raw);
    } else {
      var pad := Zeros(PART_SIZE - 2 * |raw|);
      assert pad == [0] + pad[1..];
      assert field == HexEncode(raw) + [0] + pad[1..];
      FirstNulAfter(HexEncode(raw), pad[1..]);
      assert field[..2 * |raw|] == HexEncode(raw);
    }
  }
}
