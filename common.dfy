/** Shared vocabulary: optional values, results, fixed-width integers and
    the 16-bit flag masks that the `bitflags!` structs of both codecs are. */
module Common {

  datatype Option<+T> = None | Some(value: T)

  datatype Result<+T, +E> = Ok(value: T) | Err(error: E)

  /** Rust `u8`. */
  type u8 = x: int | 0 <= x < 0x100

  /** Rust `u16`. */
  type u16 = x: int | 0 <= x < 0x1_0000

  /** Big-endian bytes of a `u16`, as `BufMut::put_u16` writes them. */
  function U16Bytes(v: u16): (r: seq<u8>)
    ensures |r| == 2
    ensures (r[0] as int) * 0x100 + r[1] == v
  {
    [v / 0x100, v % 0x100]
  }

  /** The `u16` whose big-endian bytes are `hi`, `lo`. */
  function U16Of(hi: u8, lo: u8): (v: u16)
    ensures U16Bytes(v) == [hi, lo]
  {
    (hi as int) * 0x100 + lo
  }

  // A `bitflags!` struct over `u16` with `n` known bits is modelled by the
  // truth value of each known bit, lowest first: `flags[i]` is bit `i`, so
  // `contains` is indexing and `insert` an update.

  function Pow2(n: nat): (r: nat)
    ensures r >= 1
  {
    if n == 0 then 1 else 2 * Pow2(n - 1)
  }

  /** Bit `i` of `raw`. */
  predicate Bit(raw: nat, i: nat) {
    if i == 0 then raw % 2 == 1 else Bit(raw / 2, i - 1)
  }

  /** `flags.bits()`: the integer whose bit `i` is `flags[i]`. */
  function Bits(flags: seq<bool>): (v: nat)
    ensures v < Pow2(|flags|)
    ensures forall i :: 0 <= i < |flags| ==> (Bit(v, i) <==> flags[i])
  {
    if flags == [] then 0
    else
      var v := (if flags[0] then 1 else 0) + 2 * Bits(flags[1..]);
      assert forall i :: 1 <= i < |flags| ==> (Bit(v, i) <==> Bit(v / 2, i - 1));
      v
  }

  /** `from_bits_truncate(raw)` for `n` known bits: bits `0 .. n-1` of `raw`;
      the higher bits are dropped. */
  function FromBits(raw: nat, n: nat): (f: seq<bool>)
    ensures |f| == n
    ensures forall i :: 0 <= i < n ==> (f[i] <==> Bit(raw, i))
  {
    if n == 0 then [] else [raw % 2 == 1] + FromBits(raw / 2, n - 1)
  }

  /** The known bits read back from `bits()` are the flags themselves. */
  lemma FromBitsBits(flags: seq<bool>)
    ensures FromBits(Bits(flags), |flags|) == flags
  {
  }

  /** No bit set: `bits()` is 0. */
  lemma {:induction false} BitsNone(flags: seq<bool>)
    requires forall i :: 0 <= i < |flags| ==> !flags[i]
    ensures Bits(flags) == 0
  {
    if flags != [] {
      BitsNone(flags[1..]);
    }
  }

  /** A value below `2^n` has no bit `n`. */
  lemma {:induction false} NoBitAbove(v: nat, n: nat)
    requires v < Pow2(n)
    ensures !Bit(v, n)
  {
    if n > 0 {
      NoBitAbove(v / 2, n - 1);
    }
  }
}
