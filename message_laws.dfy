/** What the message codec promises: well-formed frames read back as
    themselves, unknown kinds are rejected before any body is read, every
    body opens with its session id, and the crate's test messages encode to
    the bytes its tests list. */
module MessageLaws {
  import opened Common
  import opened Parse
  import opened Messages
  import opened Samples

  //////////////////////////////////////////////////////////////////////////
  // Well-formed messages

  predicate WfSynMessage(m: SynMessage) {
    NoNul(m.sessName) && (!HasSessionName(m) ==> m.sessName == [])
  }

  /** Strings without NUL, no name without NAME, and a MSG only at the end
      of the input (it takes everything after its header). */
  predicate WfMessage(m: Message, rest: seq<u8>) {
    match m
    case Syn(s) => WfSynMessage(s)
    case Msg(_) => rest == []
    case Fin(f) => NoNul(f.reason)
    case Enc(_) => true
    case Ping(p) => NoNul(p.data)
  }

  //////////////////////////////////////////////////////////////////////////
  // Kinds

  lemma KindBytesRoundTrip(k: MessageKind, e: EncryptionKind)
    ensures MessageKindFromByte(MessageKindToByte(k)) == Some(k)
    ensures EncryptionKindFromByte(EncryptionKindToByte(e)) == Some(e)
  {
  }

  //////////////////////////////////////////////////////////////////////////
  // The bodies

  /** Options read back from `bits()` are the options themselves. */
  lemma OptionsRoundTrip(o: MessageOption)
    ensures OptionsFromBits(OptionBits(o)) == o
  {
    FromBitsBits(o);
  }

  lemma SynMessageRoundTrip(m: SynMessage, rest: seq<u8>)
    requires WfSynMessage(m)
    ensures DecodeSynMessage(EncodeSynMessage(m) + rest) == Ok((rest, m))
  {
    var name := (if HasSessionName(m) then m.sessName + [0] else []) + rest;
    var b2 := U16Bytes(OptionBits(m.opts)) + name;
    var b1 := U16Bytes(m.initSeq) + b2;
    assert EncodeSynMessage(m) + rest == U16Bytes(m.sessId) + b1;
    BeU16Inverts(m.sessId, b1);
    BeU16Inverts(m.initSeq, b2);
    BeU16Inverts(OptionBits(m.opts), name);
    OptionsRoundTrip(m.opts);
    if HasSessionName(m) {
      NtStringInverts(m.sessName, rest);
      assert name == m.sessName + [0] + rest;
    }
  }

  /** The 0x40 bit (ENCRYPTED in the packet codec) is not a message option:
      it is never written. */
  lemma OptionsNoEncryptedBit(o: MessageOption)
    ensures !Bit(OptionBits(o), 6)
  {
    assert Pow2(6) == 0x40;
    NoBitAbove(OptionBits(o), 6);
  }

  /** Options are cut to the six known bits: bit `i < 6` of the word read
      is kept, and without NAME no string is read. */
  lemma SynOptionsTruncated(sessId: u16, initSeq: u16, raw: u16, tail: seq<u8>)
    ensures var d := DecodeSynMessage(U16Bytes(sessId) + U16Bytes(initSeq) + U16Bytes(raw) + tail);
      d.Ok? ==> forall i :: 0 <= i < OPTION_COUNT ==> (d.value.1.opts[i] <==> Bit(raw, i))
    ensures var d := DecodeSynMessage(U16Bytes(sessId) + U16Bytes(initSeq) + U16Bytes(raw) + tail);
      !Bit(raw, OPT_NAME) ==> d == Ok((tail, SynMessage(sessId, initSeq, OptionsFromBits(raw), [])))
  {
    var b2 := U16Bytes(raw) + tail;
    var b1 := U16Bytes(initSeq) + b2;
    assert U16Bytes(sessId) + U16Bytes(initSeq) + U16Bytes(raw) + tail == U16Bytes(sessId) + b1;
    BeU16Inverts(sessId, b1);
    BeU16Inverts(initSeq, b2);
    BeU16Inverts(raw, tail);
  }

  lemma MsgMessageRoundTrip(m: MsgMessage)
    ensures DecodeMsgMessage(EncodeMsgMessage(m)) == Ok(([], m))
  {
    var b2 := U16Bytes(m.ack) + m.data;
    var b1 := U16Bytes(m.seqNo) + b2;
    assert EncodeMsgMessage(m) == U16Bytes(m.sessId) + b1;
    BeU16Inverts(m.sessId, b1);
    BeU16Inverts(m.seqNo, b2);
    BeU16Inverts(m.ack, m.data);
  }

  /** A MSG takes every byte after `ack` and leaves nothing. */
  lemma MsgMessageTakesAll(b: seq<u8>)
    ensures DecodeMsgMessage(b).Ok? <==> |b| >= 6
    ensures DecodeMsgMessage(b).Ok? ==> DecodeMsgMessage(b).value.0 == [] && DecodeMsgMessage(b).value.1.data == b[6..]
  {
  }

  lemma FinMessageRoundTrip(m: FinMessage, rest: seq<u8>)
    requires NoNul(m.reason)
    ensures DecodeFinMessage(EncodeFinMessage(m) + rest) == Ok((rest, m))
  {
    assert EncodeFinMessage(m) + rest == U16Bytes(m.sessId) + (m.reason + [0] + rest);
    BeU16Inverts(m.sessId, m.reason + [0] + rest);
    NtStringInverts(m.reason, rest);
  }

  lemma PingMessageRoundTrip(m: PingMessage, rest: seq<u8>)
    requires NoNul(m.data)
    ensures DecodePingMessage(EncodePingMessage(m) + rest) == Ok((rest, m))
  {
    var b1 := U16Bytes(m.pingId) + (m.data + [0] + rest);
    assert EncodePingMessage(m) + rest == U16Bytes(m.sessId) + b1;
    BeU16Inverts(m.sessId, b1);
    BeU16Inverts(m.pingId, m.data + [0] + rest);
    NtStringInverts(m.data, rest);
  }

  lemma HexPartRoundTrip(part: Part, rest: seq<u8>)
    ensures DecodeHexPart(HexField(part) + rest) == Ok((rest, part))
  {
    NpHexStringInverts(part, rest);
  }

  lemma EncBodyRoundTrip(body: EncMessageBody, rest: seq<u8>)
    ensures DecodeEncBodyKind(EncBodyKind(body), EncodeEncBody(body) + rest) == Ok((rest, body))
  {
    match body
    case Init(x, y) =>
      assert EncodeEncBody(body) + rest == HexField(x) + (HexField(y) + rest);
      HexPartRoundTrip(x, HexField(y) + rest);
      HexPartRoundTrip(y, rest);
    case Auth(a) =>
      HexPartRoundTrip(a, rest);
  }

  lemma EncMessageRoundTrip(m: EncMessage, rest: seq<u8>)
    ensures DecodeEncMessage(EncodeEncMessage(m) + rest) == Ok((rest, m))
  {
    var k := EncryptionKindToByte(EncBodyKind(m.body));
    var b3 := EncodeEncBody(m.body) + rest;
    var b2 := U16Bytes(m.flags) + b3;
    var b1 := [k] + b2;
    assert EncodeEncMessage(m) + rest == U16Bytes(m.sessId) + b1;
    BeU16Inverts(m.sessId, b1);
    BeU8Inverts(k, b2);
    BeU16Inverts(m.flags, b3);
    EncBodyRoundTrip(m.body, rest);
    KindBytesRoundTrip(MSG, EncBodyKind(m.body));
    DecodeEncMessageSteps(EncodeEncMessage(m) + rest, b1, b2, b3, m, rest);
  }

  /** `decode_enc_message` from what each of its reads returns. */
  lemma DecodeEncMessageSteps(b: seq<u8>, b1: seq<u8>, b2: seq<u8>, b3: seq<u8>, m: EncMessage, rest: seq<u8>)
    requires BeU16(b) == Parsed(m.sessId, b1)
    requires BeU8(b1) == Parsed(EncryptionKindToByte(EncBodyKind(m.body)), b2)
    requires EncryptionKindFromByte(EncryptionKindToByte(EncBodyKind(m.body))) == Some(EncBodyKind(m.body))
    requires BeU16(b2) == Parsed(m.flags, b3)
    requires DecodeEncBodyKind(EncBodyKind(m.body), b3) == Ok((rest, m.body))
    ensures DecodeEncMessage(b) == Ok((rest, m))
  {
  }

  /** An enc kind other than INIT and AUTH is rejected before the flags. */
  lemma EncMessageUnknownKind(sessId: u16, v: u8, tail: seq<u8>)
    requires v !in {0x00, 0x01}
    ensures DecodeEncMessage(U16Bytes(sessId) + [v] + tail) == Err(UnknownEncKind(v))
  {
    assert U16Bytes(sessId) + [v] + tail == U16Bytes(sessId) + ([v] + tail);
    BeU16Inverts(sessId, [v] + tail);
    BeU8Inverts(v, tail);
  }

  //////////////////////////////////////////////////////////////////////////
  // Messages and frames

  lemma MessageRoundTrip(m: Message, rest: seq<u8>)
    requires WfMessage(m, rest)
    ensures DecodeMessageKind(MessageKindOf(m), EncodeMessage(m) + rest) == Ok((rest, m))
  {
    match m
    case Syn(s) =>
      SynMessageRoundTrip(s, rest);
      assert EncodeMessage(m) == EncodeSynMessage(s);
    case Msg(s) =>
      MsgMessageRoundTrip(s);
      assert EncodeMessage(m) + rest == EncodeMsgMessage(s);
    case Fin(s) =>
      FinMessageRoundTrip(s, rest);
      assert EncodeMessage(m) == EncodeFinMessage(s);
    case Enc(s) =>
      EncMessageRoundTrip(s, rest);
      assert EncodeMessage(m) == EncodeEncMessage(s);
    case Ping(s) =>
      PingMessageRoundTrip(s, rest);
      assert EncodeMessage(m) == EncodePingMessage(s);
    DecodeMessageKindSteps(m, EncodeMessage(m) + rest, rest);
  }

  /** `Message::decode`: the kind's own decoder, wrapped in its variant. */
  lemma DecodeMessageKindSteps(m: Message, b: seq<u8>, rest: seq<u8>)
    requires match m
      case Syn(s) => DecodeSynMessage(b) == Ok((rest, s))
      case Msg(s) => DecodeMsgMessage(b) == Ok((rest, s))
      case Fin(s) => DecodeFinMessage(b) == Ok((rest, s))
      case Enc(s) => DecodeEncMessage(b) == Ok((rest, s))
      case Ping(s) => DecodePingMessage(b) == Ok((rest, s))
    ensures DecodeMessageKind(MessageKindOf(m), b) == Ok((rest, m))
  {
  }

  /** Every well-formed frame reads back as itself, leaving `rest`. */
  lemma FrameRoundTrip(f: MessageFrame, rest: seq<u8>)
    requires WfMessage(f.message, rest)
    ensures DecodeMessageFrame(EncodeMessageFrame(f) + rest) == Ok((rest, f))
  {
    var k := MessageKindToByte(MessageKindOf(f.message));
    var body := EncodeMessage(f.message) + rest;
    var b1 := [k] + body;
    assert EncodeMessageFrame(f) + rest == U16Bytes(f.packetId) + b1;
    BeU16Inverts(f.packetId, b1);
    BeU8Inverts(k, body);
    MessageRoundTrip(f.message, rest);
    KindBytesRoundTrip(MessageKindOf(f.message), INIT);
    DecodeMessageFrameSteps(EncodeMessageFrame(f) + rest, b1, body, f, rest);
  }

  /** `MessageFrame::decode` from what each of its reads returns. */
  lemma DecodeMessageFrameSteps(b: seq<u8>, b1: seq<u8>, b2: seq<u8>, f: MessageFrame, rest: seq<u8>)
    requires BeU16(b) == Parsed(f.packetId, b1)
    requires BeU8(b1) == Parsed(MessageKindToByte(MessageKindOf(f.message)), b2)
    requires MessageKindFromByte(MessageKindToByte(MessageKindOf(f.message))) == Some(MessageKindOf(f.message))
    requires DecodeMessageKind(MessageKindOf(f.message), b2) == Ok((rest, f.message))
    ensures DecodeMessageFrame(b) == Ok((rest, f))
  {
  }

  /** Every decoded body opens with the session id it carries. */
  lemma SessionIdFirst(k: MessageKind, b: seq<u8>)
    ensures DecodeMessageKind(k, b).Ok? ==>
      |b| >= 2 && SessionIdOf(DecodeMessageKind(k, b).value.1) == U16Of(b[0], b[1])
  {
  }

  /** The body decoders never answer `UnknownKind`. */
  lemma BodiesNotUnknownKind(k: MessageKind, b: seq<u8>)
    ensures !DecodeMessageKind(k, b).Err? || !DecodeMessageKind(k, b).error.UnknownKind?
  {
  }

  /** A frame fails with `UnknownKind(v)` exactly when its kind byte `v` is
      no message kind; the body is then not looked at. */
  lemma UnknownKindIff(b: seq<u8>, v: u8)
    ensures DecodeMessageFrame(b) == Err(UnknownKind(v))
      <==> |b| >= 3 && b[2] == v && v !in {0x00, 0x01, 0x02, 0x03, 0xFF}
  {
    if |b| >= 3 {
      assert BeU16(b).rest == b[2..];
      assert BeU8(b[2..]) == Parsed(b[2], b[3..]);
      match MessageKindFromByte(b[2]) {
        case Some(k) => BodiesNotUnknownKind(k, b[3..]);
        case None =>
      }
    }
  }

  /** Fewer than three bytes: `Incomplete`. */
  lemma ShortFrame(b: seq<u8>)
    requires |b| < 3
    ensures DecodeMessageFrame(b) == Err(Incomplete(if |b| < 2 then 2 - |b| else 1))
  {
  }

  /** A SYN or MSG body cut inside its three `u16` header fields asks for
      the rest of the field it stopped in. */
  lemma ShortSynMessage(b: seq<u8>)
    requires |b| < 6
    ensures DecodeSynMessage(b) == Err(Incomplete(2 - |b| % 2))
  {
  }

  lemma ShortMsgMessage(b: seq<u8>)
    requires |b| < 6
    ensures DecodeMsgMessage(b) == Err(Incomplete(2 - |b| % 2))
  {
  }

  /** A FIN body cut inside its session id. */
  lemma ShortFinMessage(b: seq<u8>)
    requires |b| < 2
    ensures DecodeFinMessage(b) == Err(Incomplete(2 - |b|))
  {
  }

  /** A PING body cut inside its session id or ping id. */
  lemma ShortPingMessage(b: seq<u8>)
    requires |b| < 4
    ensures DecodePingMessage(b) == Err(Incomplete(2 - |b| % 2))
  {
  }

  /** An ENC body cut inside its header: the session id, the kind byte, an
      unknown kind (checked before the flags), or the flags. */
  lemma ShortEncMessage(b: seq<u8>)
    requires |b| < 5
    ensures DecodeEncMessage(b) ==
      if |b| < 2 then Err(Incomplete(2 - |b|))
      else if |b| == 2 then Err(Incomplete(1))
      else if EncryptionKindFromByte(b[2]).None? then Err(UnknownEncKind(b[2]))
      else Err(Incomplete(5 - |b|))
  {
  }

  /** A FIN reason without terminator fails as a parse error of the input
      after the session id, and only then. */
  lemma FinMessageMissingNul(b: seq<u8>)
    requires |b| >= 2
    ensures DecodeFinMessage(b) == Err(Parse(b[2..], MissingNul)) <==> NoNul(b[2..])
  {
  }

  /** The same for a PING's data after its two ids. */
  lemma PingMessageMissingNul(b: seq<u8>)
    requires |b| >= 4
    ensures DecodePingMessage(b) == Err(Parse(b[4..], MissingNul)) <==> NoNul(b[4..])
  {
  }

  /** With NAME set, a SYN's name after the header must be terminated. */
  lemma SynMessageMissingNul(b: seq<u8>)
    requires |b| >= 6 && OptionsFromBits(U16Of(b[4], b[5]))[OPT_NAME]
    ensures DecodeSynMessage(b) == Err(Parse(b[6..], MissingNul)) <==> NoNul(b[6..])
  {
  }

  //////////////////////////////////////////////////////////////////////////
  // The crate's test messages (packet id 1, session id 1)

  /** The bytes decode to the frame with nothing left, and the frame
      encodes to the bytes. */
  predicate EncDecWorks(bytes: seq<u8>, f: MessageFrame) {
    DecodeMessageFrame(bytes) == Ok(([], f)) && EncodeMessageFrame(f) == bytes
  }

  lemma VectorFromRoundTrip(bytes: seq<u8>, f: MessageFrame)
    requires WfMessage(f.message, []) && EncodeMessageFrame(f) == bytes
    ensures EncDecWorks(bytes, f)
  {
    FrameRoundTrip(f, []);
    assert bytes + [] == bytes;
  }

  const NAME_ONLY: MessageOption := [true, false, false, false, false, false]

  /** The SYN test message, for any session name. */
  lemma SynVectorOf(name: Str)
    requires NoNul(name)
    ensures EncDecWorks([0x00, 0x01, 0x00, 0x00, 0x01, 0x00, 0x01, 0x00, 0x01] + name + [0x00],
                        MessageFrame(1, Syn(SynMessage(1, 1, NAME_ONLY, name))))
  {
    SynVectorBytes(name);
    VectorFromRoundTrip([0x00, 0x01, 0x00, 0x00, 0x01, 0x00, 0x01, 0x00, 0x01] + name + [0x00],
                        MessageFrame(1, Syn(SynMessage(1, 1, NAME_ONLY, name))));
  }

  /** The bytes of the SYN test message: options 1, then the name. */
  lemma SynVectorBytes(name: Str)
    ensures EncodeMessageFrame(MessageFrame(1, Syn(SynMessage(1, 1, NAME_ONLY, name))))
         == [0x00, 0x01, 0x00, 0x00, 0x01, 0x00, 0x01, 0x00, 0x01] + name + [0x00]
  {
    BitsNone(NAME_ONLY[1..]);
    assert OptionBits(NAME_ONLY) == 1;
    assert [0x00, 0x01] + [0x00] + ([0x00, 0x01] + [0x00, 0x01] + [0x00, 0x01] + (name + [0x00]))
        == [0x00, 0x01, 0x00, 0x00, 0x01, 0x00, 0x01, 0x00, 0x01] + name + [0x00];
  }

  lemma SynMessageVector()
    ensures EncDecWorks([0x00, 0x01, 0x00, 0x00, 0x01, 0x00, 0x01, 0x00, 0x01] + HELLO + [0x00],
                        MessageFrame(1, Syn(SynMessage(1, 1, NAME_ONLY, HELLO))))
  {
    SynVectorOf(HELLO);
  }

  /** The MSG test message, for any data. */
  lemma MsgVectorOf(data: seq<u8>)
    ensures EncDecWorks([0x00, 0x01, 0x01, 0x00, 0x01, 0x00, 0x02, 0x00, 0x03] + data,
                        MessageFrame(1, Msg(MsgMessage(1, 2, 3, data))))
  {
    var m := Msg(MsgMessage(1, 2, 3, data));
    assert EncodeMessage(m) == [0x00, 0x01, 0x00, 0x02, 0x00, 0x03] + data;
    VectorFromRoundTrip([0x00, 0x01, 0x01, 0x00, 0x01, 0x00, 0x02, 0x00, 0x03] + data, MessageFrame(1, m));
  }

  lemma MsgMessageVector()
    ensures EncDecWorks([0x00, 0x01, 0x01, 0x00, 0x01, 0x00, 0x02, 0x00, 0x03] + HELLO,
                        MessageFrame(1, Msg(MsgMessage(1, 2, 3, HELLO))))
  {
    MsgVectorOf(HELLO);
  }

  /** The FIN test message, for any reason. */
  lemma FinVectorOf(reason: Str)
    requires NoNul(reason)
    ensures EncDecWorks([0x00, 0x01, 0x02, 0x00, 0x01] + reason + [0x00],
                        MessageFrame(1, Fin(FinMessage(1, reason))))
  {
    var m := Fin(FinMessage(1, reason));
    assert EncodeMessage(m) == [0x00, 0x01] + reason + [0x00];
    VectorFromRoundTrip([0x00, 0x01, 0x02, 0x00, 0x01] + reason + [0x00], MessageFrame(1, m));
  }

  lemma FinMessageVector()
    ensures EncDecWorks([0x00, 0x01, 0x02, 0x00, 0x01] + DRAGONS + [0x00],
                        MessageFrame(1, Fin(FinMessage(1, DRAGONS))))
  {
    assert NoNul(DRAGONS);
    FinVectorOf(DRAGONS);
  }

  /** The PING test message, for any data: session id 1 comes before ping
      id 2. */
  lemma PingVectorOf(data: Str)
    requires NoNul(data)
    ensures EncDecWorks([0x00, 0x01, 0xFF, 0x00, 0x01, 0x00, 0x02] + data + [0x00],
                        MessageFrame(1, Ping(PingMessage(1, 2, data))))
  {
    var m := Ping(PingMessage(1, 2, data));
    assert [0x00, 0x01] + [0xFF] + ([0x00, 0x01] + [0x00, 0x02] + data + [0x00])
        == [0x00, 0x01, 0xFF, 0x00, 0x01, 0x00, 0x02] + data + [0x00];
    VectorFromRoundTrip([0x00, 0x01, 0xFF, 0x00, 0x01, 0x00, 0x02] + data + [0x00], MessageFrame(1, m));
  }

  lemma PingMessageVector()
    ensures EncDecWorks([0x00, 0x01, 0xFF, 0x00, 0x01, 0x00, 0x02] + DRAGONS + [0x00],
                        MessageFrame(1, Ping(PingMessage(1, 2, DRAGONS))))
  {
    assert NoNul(DRAGONS);
    PingVectorOf(DRAGONS);
  }

  /** The ENC test messages for any body with the given fields. */
  lemma EncVectorOf(kind: u8, body: EncMessageBody, fields: seq<u8>)
    requires kind == EncryptionKindToByte(EncBodyKind(body)) && EncodeEncBody(body) == fields
    ensures EncDecWorks([0x00, 0x01, 0x03, 0x00, 0x01, kind, 0x00, 0x02] + fields,
                        MessageFrame(1, Enc(EncMessage(1, 2, body))))
  {
    var m := Enc(EncMessage(1, 2, body));
    assert [0x00, 0x01] + [0x03] + ([0x00, 0x01] + [kind] + [0x00, 0x02] + fields)
        == [0x00, 0x01, 0x03, 0x00, 0x01, kind, 0x00, 0x02] + fields;
    VectorFromRoundTrip([0x00, 0x01, 0x03, 0x00, 0x01, kind, 0x00, 0x02] + fields, MessageFrame(1, m));
  }

  lemma EncInitMessageVector()
    ensures EncDecWorks([0x00, 0x01, 0x03, 0x00, 0x01, 0x00, 0x00, 0x02]
                        + (Repeat2(15, 0x30, 0x33) + [0x00, 0x00] + Repeat2(16, 0x30, 0x34)),
                        MessageFrame(1, Enc(EncMessage(1, 2, Init(Fill(15, 3), Fill(16, 4))))))
  {
    var body := Init(Fill(15, 3), Fill(16, 4));
    HexFill(15, 3);
    HexFill(16, 4);
    assert Zeros(2) == [0x00, 0x00] && Zeros(0) == [];
    var fx, fy := HexField(body.publicKeyX), HexField(body.publicKeyY);
    assert fx == Repeat2(15, 0x30, 0x33) + [0x00, 0x00];
    assert fy == Repeat2(16, 0x30, 0x34);
    EncVectorOf(0x00, body, fx + fy);
  }

  lemma EncAuthMessageVector()
    ensures EncDecWorks([0x00, 0x01, 0x03, 0x00, 0x01, 0x01, 0x00, 0x02] + Repeat2(16, 0x30, 0x33),
                        MessageFrame(1, Enc(EncMessage(1, 2, Auth(Fill(16, 3))))))
  {
    var body := Auth(Fill(16, 3));
    HexFill(16, 3);
    assert Zeros(0) == [];
    var fa := HexField(body.authenticator);
    assert fa == Repeat2(16, 0x30, 0x33);
    EncVectorOf(0x01, body, fa);
  }
}
