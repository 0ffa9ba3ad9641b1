/** The older DNSCAT2 message codec: the same frame (`u16` packet id, kind
    byte, body) with every body, PING included, starting with a `u16`
    session id. Decoders are pure and thread the input, returning what is
    left of it and the value; encoders append to a `Buf.Writer`. */
module Messages {
  import opened Common
  import opened Parse
  import opened Buf

  //////////////////////////////////////////////////////////////////////////
  // Kinds

  datatype MessageKind = SYN | MSG | FIN | ENC | PING

  /** `kind as u8`. */
  function MessageKindToByte(k: MessageKind): u8 {
    match k
    case SYN => 0x00
    case MSG => 0x01
    case FIN => 0x02
    case ENC => 0x03
    case PING => 0xFF
  }

  /** `MessageKind::from_u8`. */
  function MessageKindFromByte(v: u8): (r: Option<MessageKind>)
    ensures r.Some? <==> v in {0x00, 0x01, 0x02, 0x03, 0xFF}
    ensures r.Some? ==> MessageKindToByte(r.value) == v
  {
    match v
    case 0x00 => Some(SYN)
    case 0x01 => Some(MSG)
    case 0x02 => Some(FIN)
    case 0x03 => Some(ENC)
    case 0xFF => Some(PING)
    case _ => None
  }

  datatype EncryptionKind = INIT | AUTH

  function EncryptionKindToByte(k: EncryptionKind): u8 {
    match k
    case INIT => 0x00
    case AUTH => 0x01
  }

  /** `EncryptionKind::from_u8`. */
  function EncryptionKindFromByte(v: u8): (r: Option<EncryptionKind>)
    ensures r.Some? <==> v in {0x00, 0x01}
    ensures r.Some? ==> EncryptionKindToByte(r.value) == v
  {
    match v
    case 0x00 => Some(INIT)
    case 0x01 => Some(AUTH)
    case _ => None
  }

  //////////////////////////////////////////////////////////////////////////
  // Errors

  datatype MessageError =
    | TooLong
    | Parse(input: seq<u8>, cause: ParseError)   // a failed read and the input it failed on
    | Utf8
    | UnknownKind(kind: u8)
    | UnknownEncKind(kind: u8)
    | MissingSequence(seqNo: u8)
    | Incomplete(needed: nat)
    | LengthOutOfBounds(min: nat, max: nat, len: nat)

  /** The `From` conversions: running out of input is `Incomplete`, a bad
      string is `Utf8`, any other failed read is `Parse` of its input. */
  function FromParse(e: ParseError, at: seq<u8>): MessageError {
    match e
    case NeedMore(n) => Incomplete(n)
    case BadUtf8 => Utf8
    case _ => Parse(at, e)
  }

  /** A decoder's result: what is left of the input and the value. */
  type Decoding<T> = Result<(seq<u8>, T), MessageError>

  /** A primitive read of `b` as a decoding. */
  function Read<T>(p: Parsed<T>, b: seq<u8>): Decoding<T> {
    match p
    case Parsed(v, rest) => Ok((rest, v))
    case Failed(e) => Err(FromParse(e, b))
  }

  //////////////////////////////////////////////////////////////////////////
  // Options (`bitflags!` over `u16`)

  // Bit positions: NAME = 0x01 is bit 0, ..., COMMAND = 0x20 is bit 5.
  const OPT_NAME: nat := 0
  const OPT_TUNNEL: nat := 1
  const OPT_DATAGRAM: nat := 2
  const OPT_DOWNLOAD: nat := 3
  const OPT_CHUNKED_DOWNLOAD: nat := 4
  const OPT_COMMAND: nat := 5
  /** `MessageOption` knows six bits: 0x3F, and no ENCRYPTED bit. */
  const OPTION_COUNT: nat := 6

  type MessageOption = o: seq<bool> | |o| == OPTION_COUNT witness [false, false, false, false, false, false]

  function OptionBits(o: MessageOption): (v: u16)
    ensures v < 0x40
  {
    assert Pow2(OPTION_COUNT) == 0x40;
    Bits(o)
  }

  /** `MessageOption::from_bits_truncate`. */
  function OptionsFromBits(raw: u16): (o: MessageOption)
    ensures forall i :: 0 <= i < OPTION_COUNT ==> (o[i] <==> Bit(raw, i))
  {
    FromBits(raw, OPTION_COUNT)
  }

  //////////////////////////////////////////////////////////////////////////
  // SYN

  datatype SynMessage = SynMessage(sessId: u16, initSeq: u16, opts: MessageOption, sessName: Str)

  predicate HasSessionName(m: SynMessage) {
    m.opts[OPT_NAME]
  }

  function DecodeSynMessage(b: seq<u8>): Decoding<SynMessage> {
    match Read(BeU16(b), b)
    case Err(e) => Err(e)
    case Ok((b1, sessId)) =>
      match Read(BeU16(b1), b1)
      case Err(e) => Err(e)
      case Ok((b2, initSeq)) =>
        match Read(BeU16(b2), b2)
        case Err(e) => Err(e)
        case Ok((b3, optsRaw)) =>
          var opts := OptionsFromBits(optsRaw);
          if opts[OPT_NAME] then
            match Read(NtString(b3), b3)
            case Err(e) => Err(e)
            case Ok((b4, name)) => Ok((b4, SynMessage(sessId, initSeq, opts, name)))
          else Ok((b3, SynMessage(sessId, initSeq, opts, [])))
  }

  function EncodeSynMessage(m: SynMessage): (r: seq<u8>)
    ensures |r| == 6 + (if HasSessionName(m) then |m.sessName| + 1 else 0)
  {
    U16Bytes(m.sessId) + U16Bytes(m.initSeq) + U16Bytes(OptionBits(m.opts))
    + (if HasSessionName(m) then m.sessName + [0] else [])
  }

  //////////////////////////////////////////////////////////////////////////
  // MSG

  datatype MsgMessage = MsgMessage(sessId: u16, seqNo: u16, ack: u16, data: seq<u8>)

  /** The data is everything after `ack`; nothing is left. */
  function DecodeMsgMessage(b: seq<u8>): Decoding<MsgMessage> {
    match Read(BeU16(b), b)
    case Err(e) => Err(e)
    case Ok((b1, sessId)) =>
      match Read(BeU16(b1), b1)
      case Err(e) => Err(e)
      case Ok((b2, seqNo)) =>
        match Read(BeU16(b2), b2)
        case Err(e) => Err(e)
        case Ok((data, ack)) => Ok(([], MsgMessage(sessId, seqNo, ack, data)))
  }

  function EncodeMsgMessage(m: MsgMessage): (r: seq<u8>)
    ensures |r| == 6 + |m.data|
  {
    U16Bytes(m.sessId) + U16Bytes(m.seqNo) + U16Bytes(m.ack) + m.data
  }

  //////////////////////////////////////////////////////////////////////////
  // FIN

  datatype FinMessage = FinMessage(sessId: u16, reason: Str)

  function DecodeFinMessage(b: seq<u8>): Decoding<FinMessage> {
    match Read(BeU16(b), b)
    case Err(e) => Err(e)
    case Ok((b1, sessId)) =>
      match Read(NtString(b1), b1)
      case Err(e) => Err(e)
      case Ok((b2, reason)) => Ok((b2, FinMessage(sessId, reason)))
  }

  function EncodeFinMessage(m: FinMessage): (r: seq<u8>)
    ensures |r| == 2 + |m.reason| + 1
  {
    U16Bytes(m.sessId) + m.reason + [0]
  }

  //////////////////////////////////////////////////////////////////////////
  // ENC

  /** Parts are `ArrayVec<[u8; 16]>`: at most 16 bytes. */
  datatype EncMessageBody =
    | Init(publicKeyX: Part, publicKeyY: Part)
    | Auth(authenticator: Part)

  function EncBodyKind(b: EncMessageBody): EncryptionKind {
    match b
    case Init(_, _) => INIT
    case Auth(_) => AUTH
  }

  datatype EncMessage = EncMessage(sessId: u16, flags: u16, body: EncMessageBody)

  /** What `decode_enc_hex_part` computes: one 32-byte hex field. */
  function DecodeHexPart(hex: seq<u8>): (r: Decoding<Part>)
    ensures r.Ok? ==> |hex| >= PART_SIZE && r.value.0 == hex[PART_SIZE..]
  {
    match NpHexString(hex, PART_SIZE)
    case Failed(e) => Err(FromParse(e, hex))
    case Parsed(v, rest) => var part: Part := v; Ok((rest, part))
  }

  function DecodeEncBodyKind(k: EncryptionKind, b: seq<u8>): Decoding<EncMessageBody> {
    match k
    case INIT =>
      (match DecodeHexPart(b)
       case Err(e) => Err(e)
       case Ok((b1, x)) =>
         match DecodeHexPart(b1)
         case Err(e) => Err(e)
         case Ok((b2, y)) => Ok((b2, Init(x, y))))
    case AUTH =>
      match DecodeHexPart(b)
      case Err(e) => Err(e)
      case Ok((b1, a)) => Ok((b1, Auth(a)))
  }

  function EncodeEncBody(body: EncMessageBody): (r: seq<u8>)
    ensures |r| == PART_SIZE * (if body.Init? then 2 else 1)
  {
    match body
    case Init(x, y) => HexField(x) + HexField(y)
    case Auth(a) => HexField(a)
  }

  /** The enc kind is checked before the flags are read. */
  function DecodeEncMessage(b: seq<u8>): Decoding<EncMessage> {
    match Read(BeU16(b), b)
    case Err(e) => Err(e)
    case Ok((b1, sessId)) =>
      match Read(BeU8(b1), b1)
      case Err(e) => Err(e)
      case Ok((b2, encKind)) =>
        match EncryptionKindFromByte(encKind)
        case None => Err(UnknownEncKind(encKind))
        case Some(k) =>
          match Read(BeU16(b2), b2)
          case Err(e) => Err(e)
          case Ok((b3, flags)) =>
            match DecodeEncBodyKind(k, b3)
            case Err(e) => Err(e)
            case Ok((b4, body)) => Ok((b4, EncMessage(sessId, flags, body)))
  }

  function EncodeEncMessage(m: EncMessage): (r: seq<u8>)
    ensures |r| == 5 + |EncodeEncBody(m.body)|
  {
    U16Bytes(m.sessId) + [EncryptionKindToByte(EncBodyKind(m.body))] + U16Bytes(m.flags) + EncodeEncBody(m.body)
  }

  //////////////////////////////////////////////////////////////////////////
  // PING

  datatype PingMessage = PingMessage(sessId: u16, pingId: u16, data: Str)

  function DecodePingMessage(b: seq<u8>): Decoding<PingMessage> {
    match Read(BeU16(b), b)
    case Err(e) => Err(e)
    case Ok((b1, sessId)) =>
      match Read(BeU16(b1), b1)
      case Err(e) => Err(e)
      case Ok((b2, pingId)) =>
        match Read(NtString(b2), b2)
        case Err(e) => Err(e)
        case Ok((b3, data)) => Ok((b3, PingMessage(sessId, pingId, data)))
  }

  function EncodePingMessage(m: PingMessage): (r: seq<u8>)
    ensures |r| == 4 + |m.data| + 1
  {
    U16Bytes(m.sessId) + U16Bytes(m.pingId) + m.data + [0]
  }

  //////////////////////////////////////////////////////////////////////////
  // Messages and frames

  datatype Message =
    | Syn(syn: SynMessage)
    | Msg(msg: MsgMessage)
    | Fin(fin: FinMessage)
    | Enc(enc: EncMessage)
    | Ping(ping: PingMessage)

  function MessageKindOf(m: Message): MessageKind {
    match m
    case Syn(_) => SYN
    case Msg(_) => MSG
    case Fin(_) => FIN
    case Enc(_) => ENC
    case Ping(_) => PING
  }

  /** The session id every message body starts with. */
  function SessionIdOf(m: Message): u16 {
    match m
    case Syn(s) => s.sessId
    case Msg(s) => s.sessId
    case Fin(s) => s.sessId
    case Enc(s) => s.sessId
    case Ping(s) => s.sessId
  }

  function EncodeMessage(m: Message): (r: seq<u8>)
    ensures |r| >= 2 && r[..2] == U16Bytes(SessionIdOf(m))
  {
    match m
    case Syn(s) => EncodeSynMessage(s)
    case Msg(s) => EncodeMsgMessage(s)
    case Fin(s) => EncodeFinMessage(s)
    case Enc(s) => EncodeEncMessage(s)
    case Ping(s) => EncodePingMessage(s)
  }

  /** `Message::decode_kind`. */
  function DecodeMessageKind(k: MessageKind, b: seq<u8>): Decoding<Message> {
    match k
    case SYN => (match DecodeSynMessage(b) case Err(e) => Err(e) case Ok((rest, m)) => Ok((rest, Syn(m))))
    case MSG => (match DecodeMsgMessage(b) case Err(e) => Err(e) case Ok((rest, m)) => Ok((rest, Msg(m))))
    case FIN => (match DecodeFinMessage(b) case Err(e) => Err(e) case Ok((rest, m)) => Ok((rest, Fin(m))))
    case ENC => (match DecodeEncMessage(b) case Err(e) => Err(e) case Ok((rest, m)) => Ok((rest, Enc(m))))
    case PING => (match DecodePingMessage(b) case Err(e) => Err(e) case Ok((rest, m)) => Ok((rest, Ping(m))))
  }

  datatype MessageFrame = MessageFrame(packetId: u16, message: Message)

  /** An unknown kind byte is rejected before the body is parsed. */
  function DecodeMessageFrame(b: seq<u8>): Decoding<MessageFrame> {
    match Read(BeU16(b), b)
    case Err(e) => Err(e)
    case Ok((b1, packetId)) =>
      match Read(BeU8(b1), b1)
      case Err(e) => Err(e)
      case Ok((b2, kind)) =>
        match MessageKindFromByte(kind)
        case None => Err(UnknownKind(kind))
        case Some(k) =>
          match DecodeMessageKind(k, b2)
          case Err(e) => Err(e)
          case Ok((b3, m)) => Ok((b3, MessageFrame(packetId, m)))
  }

  function EncodeMessageFrame(f: MessageFrame): (r: seq<u8>)
    ensures |r| == 3 + |EncodeMessage(f.message)|
  {
    U16Bytes(f.packetId) + [MessageKindToByte(MessageKindOf(f.message))] + EncodeMessage(f.message)
  }

  //////////////////////////////////////////////////////////////////////////
  // The encoders on a `Writer` and the two fixed 32/16-byte buffers

  /** `encode_enc_hex_part`: hex-encodes `raw` into the front of a zeroed
      32-byte buffer and writes the whole buffer. */
  method EncodeEncHexPart(raw: Part, w: Writer)
    modifies w
    ensures w.data == old(w.data) + HexField(raw)
  {
    var part := new u8[PART_SIZE](_ => 0);
    for i := 0 to |raw|
      modifies part
      invariant part[..2 * i] == HexEncode(raw[..i])
      invariant forall j :: 2 * i <= j < PART_SIZE ==> part[j] == 0
    {
      ghost var before := part[..];
      part[2 * i] := HexDigit(raw[i] / 16);
      part[2 * i + 1] := HexDigit(raw[i] % 16);
      assert raw[..i + 1] == raw[..i] + [raw[i]];
      HexAppend(raw[..i], [raw[i]]);
      assert part[..2 * (i + 1)] == before[..2 * i] + [HexDigit(raw[i] / 16), HexDigit(raw[i] % 16)];
    }
    assert raw[..|raw|] == raw;
    assert part[..] == part[..2 * |raw|] + part[2 * |raw|..];
    assert part[2 * |raw|..] == Zeros(PART_SIZE - 2 * |raw|);
    assert part[..] == HexField(raw);
    w.PutSlice(part[..]);
  }

  /** `decode_enc_hex_part`: the field is decoded into a 16-byte buffer,
      which is then truncated to the decoded length. The hex decoding itself
      is the pure `NpHexString`; the loop copies its bytes into the buffer,
      where the crate decodes straight into `&mut part[..]`. */
  method DecodeEncHexPart(hex: seq<u8>) returns (r: Decoding<Part>)
    ensures r == DecodeHexPart(hex)
  {
    var part := new u8[16](_ => 0);
    match NpHexString(hex, PART_SIZE)
    case Failed(e) =>
      return Err(FromParse(e, hex));
    case Parsed(v, rest) =>
      for i := 0 to |v|
        invariant part[..i] == v[..i]
      {
        part[i] := v[i];
      }
      var partLen := |v|;
      assert part[..partLen] == v;
      return Ok((rest, part[..partLen]));
  }

  method WriteSynMessage(m: SynMessage, w: Writer)
    modifies w
    ensures w.data == old(w.data) + EncodeSynMessage(m)
  {
    w.PutU16(m.sessId);
    w.PutU16(m.initSeq);
    w.PutU16(OptionBits(m.opts));
    if HasSessionName(m) {
      w.PutSlice(m.sessName);
      w.PutU8(0);
    }
  }

  method WriteMsgMessage(m: MsgMessage, w: Writer)
    modifies w
    ensures w.data == old(w.data) + EncodeMsgMessage(m)
  {
    w.PutU16(m.sessId);
    w.PutU16(m.seqNo);
    w.PutU16(m.ack);
    w.PutSlice(m.data);
  }

  method WriteFinMessage(m: FinMessage, w: Writer)
    modifies w
    ensures w.data == old(w.data) + EncodeFinMessage(m)
  {
    w.PutU16(m.sessId);
    w.PutSlice(m.reason);
    w.PutU8(0);
  }

  method WriteEncBody(body: EncMessageBody, w: Writer)
    modifies w
    ensures w.data == old(w.data) + EncodeEncBody(body)
  {
    match body
    case Init(x, y) =>
      EncodeEncHexPart(x, w);
      EncodeEncHexPart(y, w);
    case Auth(a) =>
      EncodeEncHexPart(a, w);
  }

  method WriteEncMessage(m: EncMessage, w: Writer)
    modifies w
    ensures w.data == old(w.data) + EncodeEncMessage(m)
  {
    w.PutU16(m.sessId);
    w.PutU8(EncryptionKindToByte(EncBodyKind(m.body)));
    w.PutU16(m.flags);
    WriteEncBody(m.body, w);
  }

  method WritePingMessage(m: PingMessage, w: Writer)
    modifies w
    ensures w.data == old(w.data) + EncodePingMessage(m)
  {
    w.PutU16(m.sessId);
    w.PutU16(m.pingId);
    w.PutSlice(m.data);
    w.PutU8(0);
  }

  method WriteMessage(m: Message, w: Writer)
    modifies w
    ensures w.data == old(w.data) + EncodeMessage(m)
  {
    match m
    case Syn(s) => WriteSynMessage(s, w);
    case Msg(s) => WriteMsgMessage(s, w);
    case Fin(s) => WriteFinMessage(s, w);
    case Enc(s) => WriteEncMessage(s, w);
    case Ping(s) => WritePingMessage(s, w);
  }

  method WriteMessageFrame(f: MessageFrame, w: Writer)
    modifies w
    ensures w.data == old(w.data) + EncodeMessageFrame(f)
  {
    ghost var d0 := w.data;
    w.PutU16(f.packetId);
    w.PutU8(MessageKindToByte(MessageKindOf(f.message)));
    ghost var d1 := w.data;
    WriteMessage(f.message, w);
    AppendAfter(d0, d1, w.data, U16Bytes(f.packetId) + [MessageKindToByte(MessageKindOf(f.message))], EncodeMessage(f.message));
  }

  /** Writing `a` and then `b` appends `a + b`. */
  lemma AppendAfter(d0: seq<u8>, d1: seq<u8>, d2: seq<u8>, a: seq<u8>, b: seq<u8>)
    requires d1 == d0 + a && d2 == d1 + b
    ensures d2 == d0 + (a + b)
  {
  }
}
