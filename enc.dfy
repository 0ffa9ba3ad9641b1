/** The default `ConnectionEncryption` behaviour, which `()` uses: both
    `encrypt` and `decrypt` hand back every byte still in the payload and
    leave the payload empty, so "no encryption" is the identity. */
module Encryption {
  import opened Common
  import opened Buf

  /** `encrypt`: the remaining payload, which is drained. */
  method Encrypt(payload: Cursor) returns (r: seq<u8>)
    modifies payload
    ensures r == old(payload.rest) && payload.rest == []
  {
    r := payload.ToBytes();
  }

  /** `decrypt`: the remaining payload, which is drained. */
  method Decrypt(payload: Cursor) returns (r: seq<u8>)
    modifies payload
    ensures r == old(payload.rest) && payload.rest == []
  {
    r := payload.ToBytes();
  }

  /** Decrypting what was encrypted gives back the original payload. */
  method EncryptThenDecrypt(p: seq<u8>) returns (r: seq<u8>)
    ensures r == p
  {
    var plain := new Cursor(p);
    var sealed := Encrypt(plain);
    var wire := new Cursor(sealed);
    r := Decrypt(wire);
  }
}
