/** Byte strings the crate's test packets and messages are made of. */
module Samples {
  import opened Common
  import opened Parse

  /** "hello" */
  const HELLO: Str := [0x68, 0x65, 0x6C, 0x6C, 0x6F]

  /** "dragons" */
  const DRAGONS: Str := [0x64, 0x72, 0x61, 0x67, 0x6F, 0x6E, 0x73]

  /** `n` copies of the byte `v`. */
  function Fill(n: nat, v: u8): (s: seq<u8>)
    ensures |s| == n && forall i :: 0 <= i < n ==> s[i] == v
  {
    seq(n, _ => v)
  }

  /** `n` copies of the pair `a`, `b`. */
  function Repeat2(n: nat, a: u8, b: u8): (s: seq<u8>)
    ensures |s| == 2 * n
  {
    if n == 0 then [] else [a, b] + Repeat2(n - 1, a, b)
  }

  /** The hex text of a run of one digit value `v` is a run of "0v". */
  lemma {:induction false} HexFill(n: nat, v: u8)
    requires v < 10
    ensures HexEncode(Fill(n, v)) == Repeat2(n, 0x30, 0x30 + v)
  {
    if n > 0 {
      assert Fill(n, v)[1..] == Fill(n - 1, v);
      HexFill(n - 1, v);
    }
  }
}
