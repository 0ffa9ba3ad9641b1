/** What the packet codec promises: every well-formed packet reads back as
    itself, the lazy codec gives back the bytes it read, unknown kinds are
    rejected, and the encodings of the crate's test packets are the bytes
    its tests list. */
module PacketLaws {
  import opened Common
  import opened Parse
  import opened Packets
  import opened Samples

  //////////////////////////////////////////////////////////////////////////
  // Well-formed bodies: the values whose encoding reads back as themselves

  /** A name without NUL, and none at all without the NAME flag (as `new`,
      `set_session_name` and `decode` leave it). */
  predicate WfSyn(s: SynBody) {
    NoNul(s.sessName) && (!HasSessionName(s) ==> s.sessName == [])
  }

  predicate WfFin(f: FinBody) {
    NoNul(f.reason)
  }

  predicate WfPing(p: PingBody) {
    NoNul(p.data)
  }

  /** Every key part fits its 32-byte hex field. */
  predicate WfEnc(e: EncBody) {
    match e.body
    case Init(x, y) => |x| <= 16 && |y| <= 16
    case Auth(a) => |a| <= 16
  }

  /** A MSG body takes everything after its header, so it reads back only
      at the end of the input. */
  predicate WfSessionBody(b: SupportedSessionBody, rest: seq<u8>) {
    match b
    case Syn(s) => WfSyn(s)
    case Msg(_) => rest == []
    case Fin(f) => WfFin(f)
    case Enc(e) => WfEnc(e)
  }

  predicate WfTypedBody(b: SupportedBody<SupportedSessionBody>, rest: seq<u8>) {
    match b
    case Ping(p) => WfPing(p)
    case Session(f) => WfSessionBody(f.body, rest)
  }

  /** `x` followed by `rest` decodes, for its own kind, to `x`, leaving `rest`. */
  ghost predicate BodyRoundTrips<T>(codec: BodyCodec<T>, x: T, rest: seq<u8>) {
    codec.decodeKind(codec.kindOf(x), codec.encode(x) + rest) == Decoded(Ok(x), rest)
  }

  //////////////////////////////////////////////////////////////////////////
  // Kinds and flags

  /** Exactly the `Other` values that hold an assigned byte fail to come back. */
  lemma KindRoundTrip(k: PacketKind)
    ensures Canonical(k) <==> !(k.Other? && k.v in {0x00, 0x01, 0x02, 0x03, 0xFF})
  {
  }

  /** `from_bits_truncate(flags.bits())` is `flags`. */
  lemma FlagsRoundTrip(f: PacketFlags)
    ensures FlagsFromBits(FlagBits(f)) == f
  {
    FromBitsBits(f);
  }

  //////////////////////////////////////////////////////////////////////////
  // The single bodies

  lemma SynRoundTrip(s: SynBody, rest: seq<u8>)
    requires WfSyn(s)
    ensures DecodeSyn(EncodeSyn(s) + rest) == Decoded(Ok(s), rest)
  {
    var tail := (if HasSessionName(s) then s.sessName + [0] else []) + rest;
    var b := U16Bytes(s.initSeq) + U16Bytes(FlagBits(s.flags)) + tail;
    assert EncodeSyn(s) + rest == b;
    BeU16Inverts(s.initSeq, U16Bytes(FlagBits(s.flags)) + tail);
    assert b == U16Bytes(s.initSeq) + (U16Bytes(FlagBits(s.flags)) + tail);
    BeU16Inverts(FlagBits(s.flags), tail);
    FlagsRoundTrip(s.flags);
    if HasSessionName(s) {
      NtStringInverts(s.sessName, rest);
      assert tail == s.sessName + [0] + rest;
    }
  }

  /** SYN flags are truncated to the known bits on decode. */
  lemma SynFlagsTruncated(initSeq: u16, raw: u16, tail: seq<u8>)
    ensures var d := DecodeSyn(U16Bytes(initSeq) + U16Bytes(raw) + tail);
      d.result.Ok? ==> forall i :: 0 <= i < FLAG_COUNT ==> (d.result.value.flags[i] <==> Bit(raw, i))
    ensures var d := DecodeSyn(U16Bytes(initSeq) + U16Bytes(raw) + tail);
      !Bit(raw, NAME) ==> d == Decoded(Ok(SynBody(initSeq, FlagsFromBits(raw), [])), tail)
  {
    assert U16Bytes(initSeq) + U16Bytes(raw) + tail == U16Bytes(initSeq) + (U16Bytes(raw) + tail);
    BeU16Inverts(initSeq, U16Bytes(raw) + tail);
    BeU16Inverts(raw, tail);
  }

  lemma MsgRoundTrip(m: MsgBody)
    ensures DecodeMsg(EncodeMsg(m)) == Decoded(Ok(m), [])
  {
    assert EncodeMsg(m) == U16Bytes(m.seqNo) + (U16Bytes(m.ack) + m.data);
    BeU16Inverts(m.seqNo, U16Bytes(m.ack) + m.data);
    BeU16Inverts(m.ack, m.data);
  }

  /** A MSG body always consumes the whole input once its header is read. */
  lemma MsgTakesAll(b: seq<u8>)
    ensures DecodeMsg(b).result.Ok? <==> |b| >= MSG_HEADER_SIZE
    ensures DecodeMsg(b).result.Ok? ==> DecodeMsg(b).rest == [] && DecodeMsg(b).result.value.data == b[MSG_HEADER_SIZE..]
  {
  }

  lemma FinRoundTrip(f: FinBody, rest: seq<u8>)
    requires WfFin(f)
    ensures DecodeFin(EncodeFin(f) + rest) == Decoded(Ok(f), rest)
  {
    NtStringInverts(f.reason, rest);
  }

  lemma PingRoundTrip(p: PingBody, rest: seq<u8>)
    requires WfPing(p)
    ensures DecodePing(EncodePing(p) + rest) == Decoded(Ok(p), rest)
  {
    assert EncodePing(p) + rest == U16Bytes(p.pingId) + (p.data + [0] + rest);
    BeU16Inverts(p.pingId, p.data + [0] + rest);
    NtStringInverts(p.data, rest);
  }

  /** A part reads back as itself when it fits the field; a longer part is
      cut to its first 16 bytes by `encode_part`. */
  lemma PartRoundTrip(part: seq<u8>, rest: seq<u8>)
    ensures DecodePart(EncodePart(part) + rest) == Decoded(Ok(if |part| <= 16 then part else part[..16]), rest)
  {
    if |part| <= 16 {
      NpHexStringInverts(part, rest);
    } else {
      var head: Part := part[..16];
      assert part == head + part[16..];
      HexAppend(head, part[16..]);
      assert EncodePart(part) == HexEncode(head);
      assert HexField(head) == HexEncode(head) + Zeros(0);
      assert Zeros(0) == [];
      assert HexField(head) == EncodePart(part);
      NpHexStringInverts(head, rest);
    }
  }

  lemma VariantRoundTrip(v: EncBodyVariant, rest: seq<u8>)
    requires WfEnc(EncBody(0, v))
    ensures DecodeVariantKind(VariantKind(v), EncodeVariant(v) + rest) == Decoded(Ok(v), rest)
  {
    match v
    case Init(x, y) =>
      InitRoundTrip(x, y, rest);
    case Auth(a) =>
      PartRoundTrip(a, rest);
  }

  /** INIT reads back its two parts, x first. */
  lemma InitRoundTrip(x: seq<u8>, y: seq<u8>, rest: seq<u8>)
    requires |x| <= 16 && |y| <= 16
    ensures DecodeVariantKind(INIT, EncodePart(x) + EncodePart(y) + rest) == Decoded(Ok(Init(x, y)), rest)
  {
    var ry := EncodePart(y) + rest;
    assert EncodePart(x) + EncodePart(y) + rest == EncodePart(x) + ry;
    PartRoundTrip(x, ry);
    PartRoundTrip(y, rest);
    DecodeInitSteps(EncodePart(x) + ry, ry, x, y, rest);
  }

  /** INIT's `decode_kind` from what each of its two part reads returns. */
  lemma DecodeInitSteps(b: seq<u8>, b1: seq<u8>, x: seq<u8>, y: seq<u8>, rest: seq<u8>)
    requires DecodePart(b) == Decoded(Ok(x), b1)
    requires DecodePart(b1) == Decoded(Ok(y), rest)
    ensures DecodeVariantKind(INIT, b) == Decoded(Ok(Init(x, y)), rest)
  {
  }

  lemma EncRoundTrip(e: EncBody, rest: seq<u8>)
    requires WfEnc(e)
    ensures DecodeEnc(EncodeEnc(e) + rest) == Decoded(Ok(e), rest)
  {
    var tail := EncodeVariant(e.body) + rest;
    var k := EncKindToByte(VariantKind(e.body));
    assert EncodeEnc(e) + rest == [k] + (U16Bytes(e.crypFlags) + tail);
    BeU8Inverts(k, U16Bytes(e.crypFlags) + tail);
    BeU16Inverts(e.crypFlags, tail);
    VariantRoundTrip(e.body, rest);
  }

  /** An ENC body whose kind byte is neither INIT nor AUTH is rejected
      after that byte is read. */
  lemma EncUnknownKind(v: u8, tail: seq<u8>)
    requires v !in {0x00, 0x01}
    ensures DecodeEnc([v] + tail) == Decoded(Err(UnknownEncKind(v)), tail)
  {
    BeU8Inverts(v, tail);
  }

  //////////////////////////////////////////////////////////////////////////
  // Typed decoders only accept their own kind

  lemma SingleBodiesCheckKind(k: PacketKind, b: seq<u8>)
    ensures SynDecodeKind(k, b).result.Ok? ==> k == SYN
    ensures MsgDecodeKind(k, b).result.Ok? ==> k == MSG
    ensures FinDecodeKind(k, b).result.Ok? ==> k == FIN
    ensures EncDecodeKind(k, b).result.Ok? ==> k == ENC
    ensures PingDecodeKind(k, b).result.Ok? ==> k == PING
    ensures k != SYN ==> SynDecodeKind(k, b) == Decoded(Err(UnknownKind(KindToByte(k))), b)
    ensures k != MSG ==> MsgDecodeKind(k, b) == Decoded(Err(UnknownKind(KindToByte(k))), b)
    ensures k != FIN ==> FinDecodeKind(k, b) == Decoded(Err(UnknownKind(KindToByte(k))), b)
    ensures k != ENC ==> EncDecodeKind(k, b) == Decoded(Err(UnknownKind(KindToByte(k))), b)
    ensures k != PING ==> PingDecodeKind(k, b) == Decoded(Err(UnknownKind(KindToByte(k))), b)
  {
  }

  /** The typed session body decoded for kind `k` is of kind `k`. */
  lemma SessionBodyKindMatches(k: PacketKind, b: seq<u8>)
    ensures DecodeSessionBodyKind(k, b).result.Ok? ==>
      IsSessionFramed(k) && SessionBodyKind(DecodeSessionBodyKind(k, b).result.value) == k
  {
  }

  /** `p.kind()` of a decoded typed packet is the kind byte it was read from. */
  lemma TypedPacketKindMatches(b: seq<u8>)
    ensures DecodePacket(TypedBodyCodec, b).result.Ok? ==>
      |b| >= PACKET_HEADER_SIZE
      && KindToByte(PacketKindOf(TypedBodyCodec, DecodePacket(TypedBodyCodec, b).result.value)) == b[2]
  {
    if |b| >= 5 {
      SessionBodyKindMatches(KindFromByte(b[2]), b[5..]);
    }
  }

  //////////////////////////////////////////////////////////////////////////
  // The session body and the generic layers

  lemma SessionBodyRoundTrip(b: SupportedSessionBody, rest: seq<u8>)
    requires WfSessionBody(b, rest)
    ensures BodyRoundTrips(SessionCodec, b, rest)
  {
    match b
    case Syn(s) => SynRoundTrip(s, rest);
    case Msg(m) => MsgRoundTrip(m); assert EncodeMsg(m) + rest == EncodeMsg(m);
    case Fin(f) => FinRoundTrip(f, rest);
    case Enc(e) => EncRoundTrip(e, rest);
  }

  lemma FrameRoundTrip<T>(codec: BodyCodec<T>, f: SessionBodyFrame<T>, rest: seq<u8>)
    requires BodyRoundTrips(codec, f.body, rest)
    ensures DecodeFrameKind(codec, codec.kindOf(f.body), EncodeFrame(codec, f) + rest) == Decoded(Ok(f), rest)
  {
    assert EncodeFrame(codec, f) + rest == U16Bytes(f.id) + (codec.encode(f.body) + rest);
    BeU16Inverts(f.id, codec.encode(f.body) + rest);
  }

  /** `SupportedBody<T>` reads back when its PING is well formed, or when its
      session body is of a session kind and reads back itself. */
  lemma SupportedRoundTrip<T>(codec: BodyCodec<T>, b: SupportedBody<T>, rest: seq<u8>)
    requires b.Ping? ==> WfPing(b.ping)
    requires b.Session? ==> IsSessionFramed(codec.kindOf(b.frame.body)) && BodyRoundTrips(codec, b.frame.body, rest)
    ensures BodyRoundTrips(SupportedCodec(codec), b, rest)
  {
    match b
    case Ping(p) => PingRoundTrip(p, rest);
    case Session(f) => FrameRoundTrip(codec, f, rest);
  }

  lemma PacketRoundTrip<T>(codec: BodyCodec<T>, p: Packet<T>, rest: seq<u8>)
    requires Canonical(codec.kindOf(p.body)) && BodyRoundTrips(codec, p.body, rest)
    ensures DecodePacket(codec, EncodePacket(codec, p) + rest) == Decoded(Ok(p), rest)
  {
    var k := KindToByte(PacketKindOf(codec, p));
    var body := codec.encode(p.body) + rest;
    assert EncodePacket(codec, p) + rest == U16Bytes(p.id) + ([k] + body);
    BeU16Inverts(p.id, [k] + body);
    BeU8Inverts(k, body);
  }

  /** Every well-formed typed packet reads back as itself. */
  lemma TypedPacketRoundTrip(p: TypedPacket, rest: seq<u8>)
    requires WfTypedBody(p.body, rest)
    ensures DecodePacket(TypedBodyCodec, EncodePacket(TypedBodyCodec, p) + rest) == Decoded(Ok(p), rest)
  {
    if p.body.Session? {
      SessionBodyRoundTrip(p.body.frame.body, rest);
    }
    SupportedRoundTrip(SessionCodec, p.body, rest);
    PacketRoundTrip(TypedBodyCodec, p, rest);
  }

  //////////////////////////////////////////////////////////////////////////
  // Unknown kinds and short input

  /** A kind byte of no known kind is rejected with that byte, for any
      session body type. */
  lemma UnknownKindRejected<T>(codec: BodyCodec<T>, id: PacketId, v: u8, tail: seq<u8>)
    requires v !in {0x00, 0x01, 0x02, 0x03, 0xFF}
    ensures DecodePacket(SupportedCodec(codec), U16Bytes(id) + [v] + tail) == Decoded(Err(UnknownKind(v)), tail)
  {
    assert U16Bytes(id) + [v] + tail == U16Bytes(id) + ([v] + tail);
    BeU16Inverts(id, [v] + tail);
    BeU8Inverts(v, tail);
  }

  /** The typed decoders never answer `UnknownKind` themselves. */
  lemma SessionBodyNotUnknown(k: PacketKind, b: seq<u8>)
    requires IsSessionFramed(k)
    ensures !DecodeSessionBodyKind(k, b).result.Err? || !DecodeSessionBodyKind(k, b).result.error.UnknownKind?
  {
  }

  /** A typed packet fails with `UnknownKind(v)` exactly when its kind byte
      `v` is no known kind. */
  lemma TypedUnknownKindIff(b: seq<u8>, v: u8)
    ensures DecodePacket(TypedBodyCodec, b).result == Err(UnknownKind(v))
      <==> |b| >= PACKET_HEADER_SIZE && b[2] == v && v !in {0x00, 0x01, 0x02, 0x03, 0xFF}
  {
    if |b| >= 3 {
      var k := KindFromByte(b[2]);
      assert BeU16(b).rest == b[2..];
      assert BeU8(b[2..]) == Parsed(b[2], b[3..]);
      if IsSessionFramed(k) {
        if |b[3..]| >= 2 {
          SessionBodyNotUnknown(k, b[3..][2..]);
        }
      }
    }
  }

  /** Fewer bytes than the packet header: `Incomplete`. */
  lemma ShortPacket<T>(codec: BodyCodec<T>, b: seq<u8>)
    requires |b| < PACKET_HEADER_SIZE
    ensures DecodePacket(codec, b).result == Err(Incomplete(if |b| < 2 then 2 - |b| else 1))
  {
  }

  /** A session frame shorter than its id asks for the missing id bytes,
      whatever the codec and the kind; nothing is consumed. */
  lemma ShortFrameKind<T>(codec: BodyCodec<T>, k: PacketKind, b: seq<u8>)
    requires |b| < SESSION_HEADER_SIZE
    ensures DecodeFrameKind(codec, k, b) == Decoded(Err(Incomplete(SESSION_HEADER_SIZE - |b|)), b)
  {
  }

  /** A SYN body cut inside its header asks for the rest of the field it
      stopped in: the initial sequence number or the flags. */
  lemma ShortSyn(b: seq<u8>)
    requires |b| < SYN_HEADER_SIZE
    ensures DecodeSyn(b) ==
      if |b| < 2 then Decoded(Err(Incomplete(2 - |b|)), b)
      else Decoded(Err(Incomplete(SYN_HEADER_SIZE - |b|)), b[2..])
  {
  }

  /** A MSG body cut inside its header: the sequence number or the ack. */
  lemma ShortMsg(b: seq<u8>)
    requires |b| < MSG_HEADER_SIZE
    ensures DecodeMsg(b) ==
      if |b| < 2 then Decoded(Err(Incomplete(2 - |b|)), b)
      else Decoded(Err(Incomplete(MSG_HEADER_SIZE - |b|)), b[2..])
  {
  }

  /** A PING body cut inside its ping id. */
  lemma ShortPing(b: seq<u8>)
    requires |b| < PING_HEADER_SIZE
    ensures DecodePing(b) == Decoded(Err(Incomplete(PING_HEADER_SIZE - |b|)), b)
  {
  }

  /** A key part shorter than its hex field asks for the rest of the field. */
  lemma ShortPart(b: seq<u8>)
    requires |b| < PART_SIZE
    ensures DecodePart(b) == Decoded(Err(Incomplete(PART_SIZE - |b|)), b)
  {
  }

  /** A key body shorter than one part, of either kind. */
  lemma ShortVariant(k: EncBodyKind, b: seq<u8>)
    requires |b| < PART_SIZE
    ensures DecodeVariantKind(k, b) == Decoded(Err(Incomplete(PART_SIZE - |b|)), b)
  {
    ShortPart(b);
  }

  /** An ENC body cut inside its header: the missing kind byte, an unknown
      kind (checked before the flags), or the rest of the flags. */
  lemma ShortEnc(b: seq<u8>)
    requires |b| < ENC_HEADER_SIZE
    ensures DecodeEnc(b).result ==
      if |b| == 0 then Err(Incomplete(1))
      else if EncKindFromByte(b[0]).None? then Err(UnknownEncKind(b[0]))
      else Err(Incomplete(ENC_HEADER_SIZE - |b|))
  {
  }

  /** A FIN reason without terminator is `NoNullTerm`, and only then. */
  lemma FinNoNullTerm(b: seq<u8>)
    ensures DecodeFin(b).result == Err(NoNullTerm) <==> NoNul(b)
  {
  }

  /** The same for the data after a PING's id. */
  lemma PingNoNullTerm(b: seq<u8>)
    requires |b| >= PING_HEADER_SIZE
    ensures DecodePing(b).result == Err(NoNullTerm) <==> NoNul(b[PING_HEADER_SIZE..])
  {
  }

  /** With NAME set, a SYN's name after the header must be terminated. */
  lemma SynNameNoNullTerm(b: seq<u8>)
    requires |b| >= SYN_HEADER_SIZE && FlagsFromBits(U16Of(b[2], b[3]))[NAME]
    ensures DecodeSyn(b).result == Err(NoNullTerm) <==> NoNul(b[SYN_HEADER_SIZE..])
  {
  }

  /** Without NAME, a complete header is the whole SYN and no name is read. */
  lemma SynWithoutName(b: seq<u8>)
    requires |b| >= SYN_HEADER_SIZE && !FlagsFromBits(U16Of(b[2], b[3]))[NAME]
    ensures DecodeSyn(b) ==
      Decoded(Ok(SynBody(U16Of(b[0], b[1]), FlagsFromBits(U16Of(b[2], b[3])), [])), b[SYN_HEADER_SIZE..])
  {
  }

  //////////////////////////////////////////////////////////////////////////
  // The lazy codec

  /** Whatever the lazy codec reads, writing it back gives the bytes it
      consumed: nothing in a session body is lost or changed. */
  lemma LazyReencodes(b: seq<u8>)
    ensures var d := DecodePacket(LazyBodyCodec, b);
      d.result.Ok? ==> EncodePacket(LazyBodyCodec, d.result.value) + d.rest == b
  {
    if |b| >= 3 {
      var id, k, b3 := U16Of(b[0], b[1]), KindFromByte(b[2]), b[3..];
      BeU16Splits(b);
      assert b[2..] == [b[2]] + b3;
      LazyBodyReencodes(k, b3);
      var d := DecodeSupportedKind(LazyCodec, k, b3);
      if d.result.Ok? {
        assert DecodePacket(LazyBodyCodec, b) == Decoded(Ok(Packet(id, d.result.value)), d.rest);
        assert b == U16Bytes(id) + [KindToByte(k)] + EncodeSupported(LazyCodec, d.result.value) + d.rest;
      }
    }
  }

  /** The body layer of `LazyReencodes`: a body read as bytes re-encodes,
      under the kind it was read as, to the bytes it was read from. */
  lemma LazyBodyReencodes(k: PacketKind, b: seq<u8>)
    ensures var d := DecodeSupportedKind(LazyCodec, k, b);
      d.result.Ok? ==> SupportedBodyKind(LazyCodec, d.result.value) == k
                       && EncodeSupported(LazyCodec, d.result.value) + d.rest == b
  {
    if k == PING {
      PingReencodes(b);
    } else if IsSessionFramed(k) {
      LazyFrameReencodes(k, b);
    }
  }

  /** A PING body that reads re-encodes to the bytes it was read from. */
  lemma PingReencodes(b: seq<u8>)
    ensures var d := DecodePing(b);
      d.result.Ok? ==> EncodePing(d.result.value) + d.rest == b
  {
    if |b| >= 2 {
      var id, b1 := U16Of(b[0], b[1]), b[2..];
      BeU16Splits(b);
      var n := NtString(b1);
      if n.Parsed? {
        assert DecodePing(b) == Decoded(Ok(PingBody(id, n.value)), n.rest);
        assert b == U16Bytes(id) + n.value + [0] + n.rest;
      }
    }
  }

  /** A session frame read as bytes re-encodes to the bytes it was read from. */
  lemma LazyFrameReencodes(k: PacketKind, b: seq<u8>)
    ensures var d := DecodeFrameKind(LazyCodec, k, b);
      d.result.Ok? ==> d.result.value.body.kind == k
                       && EncodeFrame(LazyCodec, d.result.value) + d.rest == b
  {
    var d := DecodeFrameKind(LazyCodec, k, b);
    if d.result.Ok? {
      assert b == U16Bytes(U16Of(b[0], b[1])) + b[2..];
    }
  }

  /** A session packet of a session kind is read lazily as its id, kind,
      session id and the remaining bytes verbatim. */
  lemma LazySessionDecode(id: PacketId, v: u8, sid: SessionId, body: seq<u8>)
    requires IsSessionFramed(KindFromByte(v))
    ensures DecodePacket(LazyBodyCodec, U16Bytes(id) + [v] + U16Bytes(sid) + body)
      == Decoded(Ok(Packet(id, Session(SessionBodyFrame(sid, SessionBodyBytes(KindFromByte(v), body))))), [])
  {
    var tail := U16Bytes(sid) + body;
    assert U16Bytes(id) + [v] + U16Bytes(sid) + body == U16Bytes(id) + ([v] + tail);
    BeU16Inverts(id, [v] + tail);
    BeU8Inverts(v, tail);
    BeU16Inverts(sid, body);
  }

  /** Reading a typed session packet lazily gives the frame whose body is
      `from_packet_body` of the typed body: the two codecs agree on the wire. */
  lemma LazyAgreesWithTyped(id: PacketId, sid: SessionId, body: SupportedSessionBody)
    ensures DecodePacket(LazyBodyCodec, EncodePacket(TypedBodyCodec, Packet(id, Session(SessionBodyFrame(sid, body)))))
      == Decoded(Ok(Packet(id, Session(SessionBodyFrame(sid, FromPacketBody(SessionCodec, body))))), [])
  {
    var p: TypedPacket := Packet(id, Session(SessionBodyFrame(sid, body)));
    var v := KindToByte(SessionBodyKind(body));
    assert EncodePacket(TypedBodyCodec, p) == U16Bytes(id) + [v] + U16Bytes(sid) + EncodeSessionBody(body);
    LazySessionDecode(id, v, sid, EncodeSessionBody(body));
  }

  //////////////////////////////////////////////////////////////////////////
  // Setters and sizes

  /** The size `set_data` returns is what the data adds to the MSG header. */
  lemma SetDataSize(m: MsgBody, data: seq<u8>)
    ensures |EncodeMsg(SetData(m, data).0)| == MSG_HEADER_SIZE + SetData(m, data).1
  {
  }

  /** The size `set_session_name` returns is what the name adds to the SYN
      header, and the result stays well formed when the name has no NUL. */
  lemma SetSessionNameSize(s: SynBody, name: Str)
    requires |name| > 0
    ensures |EncodeSyn(SetSessionName(s, name).0)| == SYN_HEADER_SIZE + SetSessionName(s, name).1
    ensures NoNul(name) ==> WfSyn(SetSessionName(s, name).0)
  {
  }

  /** `SynBody::new` is well formed and carries no name. */
  lemma SynNewWellFormed(initSeq: Sequence, command: bool, encrypted: bool)
    ensures WfSyn(SynNew(initSeq, command, encrypted))
    ensures |EncodeSyn(SynNew(initSeq, command, encrypted))| == SYN_HEADER_SIZE
  {
  }

  //////////////////////////////////////////////////////////////////////////
  // The crate's test packets (packet id 1, session id 1)

  function Session1(body: SupportedSessionBody): TypedPacket {
    Packet(1, Session(SessionBodyFrame(1, body)))
  }

  /** Checks a test vector both ways: the bytes decode to the packet with
      nothing left, and the packet encodes to the bytes. */
  ghost predicate EncDecWorks(bytes: seq<u8>, p: TypedPacket) {
    DecodePacket(TypedBodyCodec, bytes) == Decoded(Ok(p), []) && EncodePacket(TypedBodyCodec, p) == bytes
  }

  lemma VectorFromRoundTrip(bytes: seq<u8>, p: TypedPacket)
    requires WfTypedBody(p.body, []) && EncodePacket(TypedBodyCodec, p) == bytes
    ensures EncDecWorks(bytes, p)
  {
    TypedPacketRoundTrip(p, []);
    assert bytes + [] == bytes;
  }

  /** The frame of a test session packet: packet id, kind, session id. */
  lemma Session1Bytes(body: SupportedSessionBody)
    ensures EncodePacket(TypedBodyCodec, Session1(body))
      == [0x00, 0x01, KindToByte(SessionBodyKind(body)), 0x00, 0x01] + EncodeSessionBody(body)
  {
  }


  /** NAME alone: bits 0x0001. */
  lemma NameOnlyBits()
    ensures FlagBits(NO_FLAGS[NAME := true]) == 1
  {
    var f := NO_FLAGS[NAME := true];
    BitsNone(f[1..]);
  }

  /** The bytes of the SYN test packet, for any name: flags 0x0001, then
      the name. */
  lemma SynVectorBytes(name: Str)
    ensures EncodePacket(TypedBodyCodec, Session1(Syn(SynBody(1, NO_FLAGS[NAME := true], name))))
         == [0x00, 0x01, 0x00, 0x00, 0x01, 0x00, 0x01, 0x00, 0x01] + name + [0x00]
  {
    NameOnlyBits();
    Session1Bytes(Syn(SynBody(1, NO_FLAGS[NAME := true], name)));
    assert [0x00, 0x01, 0x00, 0x00, 0x01] + ([0x00, 0x01] + [0x00, 0x01] + (name + [0x00]))
        == [0x00, 0x01, 0x00, 0x00, 0x01, 0x00, 0x01, 0x00, 0x01] + name + [0x00];
  }

  lemma SynVector()
    ensures EncDecWorks([0x00, 0x01, 0x00, 0x00, 0x01, 0x00, 0x01, 0x00, 0x01] + HELLO + [0x00],
                        Session1(Syn(SynBody(1, NO_FLAGS[NAME := true], HELLO))))
  {
    SynVectorBytes(HELLO);
    assert NoNul(HELLO);
    VectorFromRoundTrip([0x00, 0x01, 0x00, 0x00, 0x01, 0x00, 0x01, 0x00, 0x01] + HELLO + [0x00],
                        Session1(Syn(SynBody(1, NO_FLAGS[NAME := true], HELLO))));
  }

  lemma MsgVector()
    ensures EncDecWorks([0x00, 0x01, 0x01, 0x00, 0x01, 0x00, 0x02, 0x00, 0x03] + HELLO,
                        Session1(Msg(MsgBody(2, 3, HELLO))))
  {
    var body := Msg(MsgBody(2, 3, HELLO));
    Session1Bytes(body);
    assert EncodeSessionBody(body) == [0x00, 0x02, 0x00, 0x03] + HELLO;
    VectorFromRoundTrip([0x00, 0x01, 0x01, 0x00, 0x01, 0x00, 0x02, 0x00, 0x03] + HELLO, Session1(body));
  }

  lemma FinVector()
    ensures EncDecWorks([0x00, 0x01, 0x02, 0x00, 0x01] + DRAGONS + [0x00],
                        Session1(Fin(FinBody(DRAGONS))))
  {
    assert NoNul(DRAGONS);
    FinVectorOf(DRAGONS);
  }

  /** The FIN test packet, for any reason. */
  lemma FinVectorOf(reason: Str)
    requires NoNul(reason)
    ensures EncDecWorks([0x00, 0x01, 0x02, 0x00, 0x01] + reason + [0x00], Session1(Fin(FinBody(reason))))
  {
    Session1Bytes(Fin(FinBody(reason)));
    assert [0x00, 0x01, 0x02, 0x00, 0x01] + (reason + [0x00]) == [0x00, 0x01, 0x02, 0x00, 0x01] + reason + [0x00];
    VectorFromRoundTrip([0x00, 0x01, 0x02, 0x00, 0x01] + reason + [0x00], Session1(Fin(FinBody(reason))));
  }

  /** The field of a run of one digit value. */
  lemma FillPart(n: nat, v: u8)
    requires n <= 16 && v < 10
    ensures EncodePart(Fill(n, v)) == Repeat2(n, 0x30, 0x30 + v) + Zeros(PART_SIZE - 2 * n)
  {
    HexFill(n, v);
  }

  /** The ENC test packets for any parts with the given fields. */
  lemma EncVectorOf(kind: u8, v: EncBodyVariant, fields: seq<u8>)
    requires WfEnc(EncBody(2, v)) && kind == EncKindToByte(VariantKind(v)) && EncodeVariant(v) == fields
    ensures EncDecWorks([0x00, 0x01, 0x03, 0x00, 0x01, kind, 0x00, 0x02] + fields, Session1(Enc(EncBody(2, v))))
  {
    var body := Enc(EncBody(2, v));
    Session1Bytes(body);
    assert [0x00, 0x01, 0x03, 0x00, 0x01] + ([kind, 0x00, 0x02] + fields)
      == [0x00, 0x01, 0x03, 0x00, 0x01, kind, 0x00, 0x02] + fields;
    VectorFromRoundTrip([0x00, 0x01, 0x03, 0x00, 0x01, kind, 0x00, 0x02] + fields, Session1(body));
  }

  lemma EncInitVector()
    ensures EncDecWorks([0x00, 0x01, 0x03, 0x00, 0x01, 0x00, 0x00, 0x02]
                        + (Repeat2(15, 0x30, 0x33) + [0x00, 0x00] + Repeat2(16, 0x30, 0x34)),
                        Session1(Enc(EncBody(2, Init(Fill(15, 3), Fill(16, 4))))))
  {
    var v := Init(Fill(15, 3), Fill(16, 4));
    FillPart(15, 3);
    FillPart(16, 4);
    assert Zeros(2) == [0x00, 0x00] && Zeros(0) == [];
    var fx, fy := EncodePart(v.publicKeyX), EncodePart(v.publicKeyY);
    assert fx == Repeat2(15, 0x30, 0x33) + [0x00, 0x00];
    assert fy == Repeat2(16, 0x30, 0x34);
    EncVectorOf(0x00, v, fx + fy);
  }

  lemma EncAuthVector()
    ensures EncDecWorks([0x00, 0x01, 0x03, 0x00, 0x01, 0x01, 0x00, 0x02] + Repeat2(16, 0x30, 0x33),
                        Session1(Enc(EncBody(2, Auth(Fill(16, 3))))))
  {
    FillPart(16, 3);
    assert Zeros(0) == [];
    EncVectorOf(0x01, Auth(Fill(16, 3)), Repeat2(16, 0x30, 0x33));
  }

  /** The PING test packet has no session id. */
  lemma PingVector()
    ensures EncDecWorks([0x00, 0x01, 0xFF, 0x00, 0x02] + DRAGONS + [0x00],
                        Packet(1, Ping(PingBody(2, DRAGONS))))
  {
    assert NoNul(DRAGONS);
    PingVectorOf(DRAGONS);
  }

  /** The PING test packet, for any data. */
  lemma PingVectorOf(data: Str)
    requires NoNul(data)
    ensures EncDecWorks([0x00, 0x01, 0xFF, 0x00, 0x02] + data + [0x00], Packet(1, Ping(PingBody(2, data))))
  {
    assert [0x00, 0x01] + [0xFF] + ([0x00, 0x02] + data + [0x00]) == [0x00, 0x01, 0xFF, 0x00, 0x02] + data + [0x00];
    VectorFromRoundTrip([0x00, 0x01, 0xFF, 0x00, 0x02] + data + [0x00], Packet(1, Ping(PingBody(2, data))));
  }
}
