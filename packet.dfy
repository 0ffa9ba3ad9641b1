/** The DNSCAT2 packet codec: a frame is a big-endian `u16` packet id, a
    kind byte and the body for that kind. Bodies of the session kinds (SYN,
    MSG, FIN, ENC) start with a `u16` session id; a PING body does not.

    Rust's `PacketBody` trait (kind of a body, its encoding and a decoder
    for a given kind) is modelled as the record of functions `BodyCodec`;
    the generic layers `Packet<T>`, `SupportedBody<T>` and
    `SessionBodyFrame<T>` take the codec of `T`. Decoders advance a cursor:
    the pure decoders return the result together with what is left in the
    cursor, also on failure, and the methods at the end of the module do the
    same work on a `Buf.Cursor` and a `Buf.Writer`. */
module Packets {
  import opened Common
  import opened Parse
  import opened Buf

  type PacketId = u16
  type SessionId = u16
  type Sequence = u16
  type CryptoFlags = u16
  type PingId = u16

  //////////////////////////////////////////////////////////////////////////
  // Packet kind

  datatype PacketKind = SYN | MSG | FIN | ENC | PING | Other(v: u8)

  /** `u8::from(kind)`. */
  function KindToByte(k: PacketKind): u8 {
    match k
    case SYN => 0x00
    case MSG => 0x01
    case FIN => 0x02
    case ENC => 0x03
    case PING => 0xFF
    case Other(v) => v
  }

  /** `PacketKind::from(byte)`: total; unknown bytes become `Other`. */
  function KindFromByte(v: u8): (k: PacketKind)
    ensures KindToByte(k) == v
    ensures k.Other? <==> v !in {0x00, 0x01, 0x02, 0x03, 0xFF}
  {
    match v
    case 0x00 => SYN
    case 0x01 => MSG
    case 0x02 => FIN
    case 0x03 => ENC
    case 0xFF => PING
    case _ => Other(v)
  }

  /** A kind that survives a trip through its byte (every kind except an
      `Other` holding one of the five assigned bytes). */
  predicate Canonical(k: PacketKind) {
    KindFromByte(KindToByte(k)) == k
  }

  function IsSessionFramed(k: PacketKind): bool {
    match k
    case SYN | MSG | FIN | ENC => true
    case PING | Other(_) => false
  }

  //////////////////////////////////////////////////////////////////////////
  // Packet flags (`bitflags!` over `u16`)

  // Bit positions of the flags (NAME = 0x01 is bit 0, ..., ENCRYPTED = 0x40 is bit 6).
  const NAME: nat := 0
  const TUNNEL: nat := 1
  const DATAGRAM: nat := 2
  const DOWNLOAD: nat := 3
  const CHUNKED_DOWNLOAD: nat := 4
  const COMMAND: nat := 5
  const ENCRYPTED: nat := 6
  /** The number of bits `PacketFlags` knows: 0x7F is its full set. */
  const FLAG_COUNT: nat := 7

  /** A `PacketFlags` value: one truth value per known bit. */
  type PacketFlags = f: seq<bool> | |f| == FLAG_COUNT witness [false, false, false, false, false, false, false]

  /** `PacketFlags::empty()`. */
  const NO_FLAGS: PacketFlags := [false, false, false, false, false, false, false]

  /** `flags.bits()`. */
  function FlagBits(f: PacketFlags): (v: u16)
    ensures v < 0x80
  {
    assert Pow2(FLAG_COUNT) == 0x80;
    Bits(f)
  }

  /** `PacketFlags::from_bits_truncate`: the known bits of `raw`. */
  function FlagsFromBits(raw: u16): (f: PacketFlags)
    ensures forall i :: 0 <= i < FLAG_COUNT ==> (f[i] <==> Bit(raw, i))
  {
    FromBits(raw, FLAG_COUNT)
  }

  //////////////////////////////////////////////////////////////////////////
  // Decode errors and decoder results

  datatype PacketDecodeError =
    | NoNullTerm
    | Hex
    | Utf8
    | UnknownKind(kind: u8)
    | UnknownEncKind(kind: u8)
    | Incomplete(needed: nat)

  /** The `From` conversions of the primitive errors. */
  function FromParse(e: ParseError): PacketDecodeError {
    match e
    case NeedMore(n) => Incomplete(n)
    case MissingNul => NoNullTerm
    case BadUtf8 => Utf8
    case BadHex => Hex
  }

  /** A decoder's result and what it left in the cursor. */
  datatype Decoded<+T> = Decoded(result: Result<T, PacketDecodeError>, rest: seq<u8>)

  function Failure<T>(e: ParseError, at: seq<u8>): Decoded<T> {
    Decoded(Err(FromParse(e)), at)
  }

  /** The `PacketBody` trait: a body's kind, its encoding and its decoder. */
  datatype BodyCodec<!T> = BodyCodec(
    kindOf: T -> PacketKind,
    encode: T -> seq<u8>,
    decodeKind: (PacketKind, seq<u8>) -> Decoded<T>)

  /** The answer of a typed body's `decode_kind` to a kind that is not its own. */
  function WrongKind<T>(k: PacketKind, b: seq<u8>): Decoded<T> {
    Decoded(Err(UnknownKind(KindToByte(k))), b)
  }

  //////////////////////////////////////////////////////////////////////////
  // SYN

  datatype SynBody = SynBody(initSeq: Sequence, flags: PacketFlags, sessName: Str)

  const SYN_HEADER_SIZE: nat := 4

  /** `SynBody::new`: no session name; COMMAND and ENCRYPTED as asked, and
      no other flag. */
  function SynNew(initSeq: Sequence, command: bool, encrypted: bool): (s: SynBody)
    ensures s.initSeq == initSeq && s.sessName == []
    ensures s.flags[COMMAND] == command && s.flags[ENCRYPTED] == encrypted
    ensures forall i :: 0 <= i < FLAG_COUNT && i != COMMAND && i != ENCRYPTED ==> !s.flags[i]
  {
    var f1 := if command then NO_FLAGS[COMMAND := true] else NO_FLAGS;
    var f2 := if encrypted then f1[ENCRYPTED := true] else f1;
    SynBody(initSeq, f2, [])
  }

  predicate HasSessionName(s: SynBody) {
    s.flags[NAME]
  }

  function SessionName(s: SynBody): Option<Str> {
    if HasSessionName(s) then Some(s.sessName) else None
  }

  /** `set_session_name` (which panics on an empty name): sets NAME and the
      name, leaves the other flags, and returns the number of bytes this
      adds to the encoding. */
  function SetSessionName(s: SynBody, name: Str): (r: (SynBody, nat))
    requires |name| > 0
    ensures SessionName(r.0) == Some(name)
    ensures r.0.initSeq == s.initSeq
    ensures forall i :: 0 <= i < FLAG_COUNT && i != NAME ==> r.0.flags[i] == s.flags[i]
    ensures r.1 == |name| + 1
  {
    (SynBody(s.initSeq, s.flags[NAME := true], name), |name| + 1)
  }

  function EncodeSyn(s: SynBody): (r: seq<u8>)
    ensures |r| == SYN_HEADER_SIZE + (if HasSessionName(s) then |s.sessName| + 1 else 0)
  {
    U16Bytes(s.initSeq) + U16Bytes(FlagBits(s.flags))
    + (if HasSessionName(s) then s.sessName + [0] else [])
  }

  function DecodeSyn(b: seq<u8>): Decoded<SynBody> {
    match BeU16(b)
    case Failed(e) => Failure(e, b)
    case Parsed(initSeq, b1) =>
      match BeU16(b1)
      case Failed(e) => Failure(e, b1)
      case Parsed(raw, b2) =>
        var flags := FlagsFromBits(raw);
        var dn := DecodeSynName(flags, b2);
        match dn.result
        case Err(e) => Decoded(Err(e), dn.rest)
        case Ok(name) => Decoded(Ok(SynBody(initSeq, flags, name)), dn.rest)
  }

  /** The session name is present exactly when NAME is set. */
  function DecodeSynName(flags: PacketFlags, b: seq<u8>): Decoded<Str> {
    if flags[NAME] then
      match NtString(b)
      case Failed(e) => Failure(e, b)
      case Parsed(name, b1) => Decoded(Ok(name), b1)
    else Decoded(Ok([]), b)
  }

  function SynDecodeKind(k: PacketKind, b: seq<u8>): Decoded<SynBody> {
    if k == SYN then DecodeSyn(b) else WrongKind(k, b)
  }

  //////////////////////////////////////////////////////////////////////////
  // MSG

  datatype MsgBody = MsgBody(seqNo: Sequence, ack: Sequence, data: seq<u8>)

  const MSG_HEADER_SIZE: nat := 4

  /** `MsgBody::new`: an empty message. */
  function MsgNew(seqNo: Sequence, ack: Sequence): (m: MsgBody)
    ensures m.seqNo == seqNo && m.ack == ack && m.data == []
  {
    MsgBody(seqNo, ack, [])
  }

  function SetSeq(m: MsgBody, seqNo: Sequence): (r: MsgBody)
    ensures r.seqNo == seqNo && r.ack == m.ack && r.data == m.data
  {
    m.(seqNo := seqNo)
  }

  function SetAck(m: MsgBody, ack: Sequence): (r: MsgBody)
    ensures r.ack == ack && r.seqNo == m.seqNo && r.data == m.data
  {
    m.(ack := ack)
  }

  /** `set_data`: replaces the data and returns its length. */
  function SetData(m: MsgBody, data: seq<u8>): (r: (MsgBody, nat))
    ensures r.0.data == data && r.0.seqNo == m.seqNo && r.0.ack == m.ack
    ensures r.1 == |data|
  {
    (m.(data := data), |data|)
  }

  function EncodeMsg(m: MsgBody): (r: seq<u8>)
    ensures |r| == MSG_HEADER_SIZE + |m.data|
  {
    U16Bytes(m.seqNo) + U16Bytes(m.ack) + m.data
  }

  /** The data is everything after `ack`; the cursor is left empty. */
  function DecodeMsg(b: seq<u8>): Decoded<MsgBody> {
    match BeU16(b)
    case Failed(e) => Failure(e, b)
    case Parsed(seqNo, b1) =>
      match BeU16(b1)
      case Failed(e) => Failure(e, b1)
      case Parsed(ack, b2) => Decoded(Ok(MsgBody(seqNo, ack, b2)), [])
  }

  function MsgDecodeKind(k: PacketKind, b: seq<u8>): Decoded<MsgBody> {
    if k == MSG then DecodeMsg(b) else WrongKind(k, b)
  }

  //////////////////////////////////////////////////////////////////////////
  // FIN

  datatype FinBody = FinBody(reason: Str)

  function EncodeFin(f: FinBody): (r: seq<u8>)
    ensures |r| == |f.reason| + 1
  {
    f.reason + [0]
  }

  function DecodeFin(b: seq<u8>): Decoded<FinBody> {
    match NtString(b)
    case Failed(e) => Failure(e, b)
    case Parsed(reason, b1) => Decoded(Ok(FinBody(reason)), b1)
  }

  function FinDecodeKind(k: PacketKind, b: seq<u8>): Decoded<FinBody> {
    if k == FIN then DecodeFin(b) else WrongKind(k, b)
  }

  //////////////////////////////////////////////////////////////////////////
  // ENC

  datatype EncBodyKind = INIT | AUTH

  /** `kind as u8`. */
  function EncKindToByte(k: EncBodyKind): u8 {
    match k
    case INIT => 0x00
    case AUTH => 0x01
  }

  /** `EncBodyKind::from_u8`. */
  function EncKindFromByte(v: u8): (r: Option<EncBodyKind>)
    ensures r.Some? <==> v in {0x00, 0x01}
    ensures r.Some? ==> EncKindToByte(r.value) == v
  {
    match v
    case 0x00 => Some(INIT)
    case 0x01 => Some(AUTH)
    case _ => None
  }

  datatype EncBodyVariant =
    | Init(publicKeyX: seq<u8>, publicKeyY: seq<u8>)
    | Auth(authenticator: seq<u8>)

  function VariantKind(v: EncBodyVariant): EncBodyKind {
    match v
    case Init(_, _) => INIT
    case Auth(_) => AUTH
  }

  datatype EncBody = EncBody(crypFlags: CryptoFlags, body: EncBodyVariant)

  const ENC_HEADER_SIZE: nat := 3

  /** `encode_part`: the hex text resized to `PART_SIZE` bytes, so NUL-padded
      when the part is short and cut off after 16 raw bytes when it is long. */
  function EncodePart(part: seq<u8>): (f: seq<u8>)
    ensures |f| == PART_SIZE
  {
    if |part| <= 16 then HexField(part) else HexEncode(part)[..PART_SIZE]
  }

  /** `decode_part`: one `PART_SIZE`-byte hex field. */
  function DecodePart(b: seq<u8>): Decoded<seq<u8>> {
    match NpHexString(b, PART_SIZE)
    case Failed(e) => Failure(e, b)
    case Parsed(v, b1) => Decoded(Ok(v), b1)
  }

  /** The number of key parts of a variant. */
  function PartCount(v: EncBodyVariant): nat {
    match v
    case Init(_, _) => 2
    case Auth(_) => 1
  }

  function EncodeVariant(v: EncBodyVariant): (r: seq<u8>)
    ensures |r| == PART_SIZE * PartCount(v)
  {
    match v
    case Init(x, y) => EncodePart(x) + EncodePart(y)
    case Auth(a) => EncodePart(a)
  }

  /** `EncBodyVariant::decode_kind`: INIT reads two parts (x first), AUTH one. */
  function DecodeVariantKind(k: EncBodyKind, b: seq<u8>): Decoded<EncBodyVariant> {
    match k
    case INIT =>
      var dx := DecodePart(b);
      (match dx.result
       case Err(e) => Decoded(Err(e), dx.rest)
       case Ok(x) =>
         var dy := DecodePart(dx.rest);
         match dy.result
         case Err(e) => Decoded(Err(e), dy.rest)
         case Ok(y) => Decoded(Ok(Init(x, y)), dy.rest))
    case AUTH =>
      var da := DecodePart(b);
      match da.result
      case Err(e) => Decoded(Err(e), da.rest)
      case Ok(a) => Decoded(Ok(Auth(a)), da.rest)
  }

  function EncodeEnc(e: EncBody): (r: seq<u8>)
    ensures |r| == ENC_HEADER_SIZE + PART_SIZE * PartCount(e.body)
  {
    [EncKindToByte(VariantKind(e.body))] + U16Bytes(e.crypFlags) + EncodeVariant(e.body)
  }

  function DecodeEnc(b: seq<u8>): Decoded<EncBody> {
    match BeU8(b)
    case Failed(e) => Failure(e, b)
    case Parsed(encKind, b1) =>
      match EncKindFromByte(encKind)
      case None => Decoded(Err(UnknownEncKind(encKind)), b1)
      case Some(k) =>
        match BeU16(b1)
        case Failed(e) => Failure(e, b1)
        case Parsed(crypFlags, b2) =>
          var dv := DecodeVariantKind(k, b2);
          match dv.result
          case Err(e) => Decoded(Err(e), dv.rest)
          case Ok(v) => Decoded(Ok(EncBody(crypFlags, v)), dv.rest)
  }

  function EncDecodeKind(k: PacketKind, b: seq<u8>): Decoded<EncBody> {
    if k == ENC then DecodeEnc(b) else WrongKind(k, b)
  }

  //////////////////////////////////////////////////////////////////////////
  // PING

  datatype PingBody = PingBody(pingId: PingId, data: Str)

  const PING_HEADER_SIZE: nat := 2

  function EncodePing(p: PingBody): (r: seq<u8>)
    ensures |r| == PING_HEADER_SIZE + |p.data| + 1
  {
    U16Bytes(p.pingId) + p.data + [0]
  }

  function DecodePing(b: seq<u8>): Decoded<PingBody> {
    match BeU16(b)
    case Failed(e) => Failure(e, b)
    case Parsed(pingId, b1) =>
      match NtString(b1)
      case Failed(e) => Failure(e, b1)
      case Parsed(data, b2) => Decoded(Ok(PingBody(pingId, data)), b2)
  }

  function PingDecodeKind(k: PacketKind, b: seq<u8>): Decoded<PingBody> {
    if k == PING then DecodePing(b) else WrongKind(k, b)
  }

  //////////////////////////////////////////////////////////////////////////
  // The typed session body

  datatype SupportedSessionBody = Syn(syn: SynBody) | Msg(msg: MsgBody) | Fin(fin: FinBody) | Enc(enc: EncBody)

  function SessionBodyKind(b: SupportedSessionBody): PacketKind {
    match b
    case Syn(_) => SYN
    case Msg(_) => MSG
    case Fin(_) => FIN
    case Enc(_) => ENC
  }

  function EncodeSessionBody(b: SupportedSessionBody): seq<u8> {
    match b
    case Syn(s) => EncodeSyn(s)
    case Msg(m) => EncodeMsg(m)
    case Fin(f) => EncodeFin(f)
    case Enc(e) => EncodeEnc(e)
  }

  function DecodeSessionBodyKind(k: PacketKind, b: seq<u8>): Decoded<SupportedSessionBody> {
    match k
    case SYN => var d := DecodeSyn(b); Decoded(if d.result.Ok? then Ok(Syn(d.result.value)) else Err(d.result.error), d.rest)
    case MSG => var d := DecodeMsg(b); Decoded(if d.result.Ok? then Ok(Msg(d.result.value)) else Err(d.result.error), d.rest)
    case FIN => var d := DecodeFin(b); Decoded(if d.result.Ok? then Ok(Fin(d.result.value)) else Err(d.result.error), d.rest)
    case ENC => var d := DecodeEnc(b); Decoded(if d.result.Ok? then Ok(Enc(d.result.value)) else Err(d.result.error), d.rest)
    case _ => WrongKind(k, b)
  }

  //////////////////////////////////////////////////////////////////////////
  // The lazy session body: kind plus the undecoded bytes

  datatype SessionBodyBytes = SessionBodyBytes(kind: PacketKind, body: seq<u8>)

  /** Keeps whatever is left, verbatim, whatever the kind. */
  function LazyDecodeKind(k: PacketKind, b: seq<u8>): Decoded<SessionBodyBytes> {
    Decoded(Ok(SessionBodyBytes(k, b)), [])
  }

  /** `SessionBodyBytes::from_packet_body`. */
  function FromPacketBody<T>(codec: BodyCodec<T>, body: T): SessionBodyBytes {
    SessionBodyBytes(codec.kindOf(body), codec.encode(body))
  }

  //////////////////////////////////////////////////////////////////////////
  // The generic layers

  datatype SessionBodyFrame<T> = SessionBodyFrame(id: SessionId, body: T)

  const SESSION_HEADER_SIZE: nat := 2

  function EncodeFrame<T>(codec: BodyCodec<T>, f: SessionBodyFrame<T>): (r: seq<u8>)
    ensures |r| == SESSION_HEADER_SIZE + |codec.encode(f.body)|
  {
    U16Bytes(f.id) + codec.encode(f.body)
  }

  function DecodeFrameKind<T>(codec: BodyCodec<T>, k: PacketKind, b: seq<u8>): Decoded<SessionBodyFrame<T>> {
    match BeU16(b)
    case Failed(e) => Failure(e, b)
    case Parsed(id, b1) =>
      var d := codec.decodeKind(k, b1);
      match d.result
      case Err(e) => Decoded(Err(e), d.rest)
      case Ok(body) => Decoded(Ok(SessionBodyFrame(id, body)), d.rest)
  }

  datatype SupportedBody<T> = Ping(ping: PingBody) | Session(frame: SessionBodyFrame<T>)

  function SupportedBodyKind<T>(codec: BodyCodec<T>, b: SupportedBody<T>): PacketKind {
    match b
    case Ping(_) => PING
    case Session(f) => codec.kindOf(f.body)
  }

  function EncodeSupported<T>(codec: BodyCodec<T>, b: SupportedBody<T>): seq<u8> {
    match b
    case Ping(p) => EncodePing(p)
    case Session(f) => EncodeFrame(codec, f)
  }

  /** PING goes to `PingBody`, the session kinds to `SessionBodyFrame`,
      anything else is `UnknownKind`. */
  function DecodeSupportedKind<T>(codec: BodyCodec<T>, k: PacketKind, b: seq<u8>): Decoded<SupportedBody<T>> {
    if k == PING then
      var d := DecodePing(b);
      Decoded(if d.result.Ok? then Ok(Ping(d.result.value)) else Err(d.result.error), d.rest)
    else if IsSessionFramed(k) then
      var d := DecodeFrameKind(codec, k, b);
      Decoded(if d.result.Ok? then Ok(Session(d.result.value)) else Err(d.result.error), d.rest)
    else
      WrongKind(k, b)
  }

  /** `SupportedBody<T>` as a `PacketBody`. */
  function SupportedCodec<T>(inner: BodyCodec<T>): BodyCodec<SupportedBody<T>> {
    BodyCodec(
      (b: SupportedBody<T>) => SupportedBodyKind(inner, b),
      (b: SupportedBody<T>) => EncodeSupported(inner, b),
      (k: PacketKind, b: seq<u8>) => DecodeSupportedKind(inner, k, b))
  }

  datatype Packet<T> = Packet(id: PacketId, body: T)

  const PACKET_HEADER_SIZE: nat := 3

  function PacketKindOf<T>(codec: BodyCodec<T>, p: Packet<T>): PacketKind {
    codec.kindOf(p.body)
  }

  function EncodePacket<T>(codec: BodyCodec<T>, p: Packet<T>): (r: seq<u8>)
    ensures |r| == PACKET_HEADER_SIZE + |codec.encode(p.body)|
  {
    U16Bytes(p.id) + [KindToByte(PacketKindOf(codec, p))] + codec.encode(p.body)
  }

  function DecodePacket<T>(codec: BodyCodec<T>, b: seq<u8>): Decoded<Packet<T>> {
    match BeU16(b)
    case Failed(e) => Failure(e, b)
    case Parsed(id, b1) =>
      match BeU8(b1)
      case Failed(e) => Failure(e, b1)
      case Parsed(kind, b2) =>
        var d := codec.decodeKind(KindFromByte(kind), b2);
        match d.result
        case Err(e) => Decoded(Err(e), d.rest)
        case Ok(body) => Decoded(Ok(Packet(id, body)), d.rest)
  }

  //////////////////////////////////////////////////////////////////////////
  // The `PacketBody` implementations

  const SynCodec: BodyCodec<SynBody> := BodyCodec((_: SynBody) => SYN, EncodeSyn, SynDecodeKind)
  const MsgCodec: BodyCodec<MsgBody> := BodyCodec((_: MsgBody) => MSG, EncodeMsg, MsgDecodeKind)
  const FinCodec: BodyCodec<FinBody> := BodyCodec((_: FinBody) => FIN, EncodeFin, FinDecodeKind)
  const EncCodec: BodyCodec<EncBody> := BodyCodec((_: EncBody) => ENC, EncodeEnc, EncDecodeKind)
  const PingCodec: BodyCodec<PingBody> := BodyCodec((_: PingBody) => PING, EncodePing, PingDecodeKind)

  const SessionCodec: BodyCodec<SupportedSessionBody> :=
    BodyCodec(SessionBodyKind, EncodeSessionBody, DecodeSessionBodyKind)

  const LazyCodec: BodyCodec<SessionBodyBytes> :=
    BodyCodec((s: SessionBodyBytes) => s.kind, (s: SessionBodyBytes) => s.body, LazyDecodeKind)

  /** The default `Packet`: fully typed bodies. */
  type TypedPacket = Packet<SupportedBody<SupportedSessionBody>>

  /** `LazyPacket`: session bodies left as bytes. */
  type LazyPacket = Packet<SupportedBody<SessionBodyBytes>>

  const TypedBodyCodec: BodyCodec<SupportedBody<SupportedSessionBody>> := SupportedCodec(SessionCodec)

  const LazyBodyCodec: BodyCodec<SupportedBody<SessionBodyBytes>> := SupportedCodec(LazyCodec)

  //////////////////////////////////////////////////////////////////////////
  // The codec on buffers: each `encode` appends its function's bytes to a
  // `Writer`, each `decode` advances a `Cursor` as its function says.

  method WriteSyn(s: SynBody, w: Writer)
    modifies w
    ensures w.data == old(w.data) + EncodeSyn(s)
  {
    w.PutU16(s.initSeq);
    w.PutU16(FlagBits(s.flags));
    if HasSessionName(s) {
      w.PutSlice(s.sessName);
      w.PutU8(0);
    }
  }

  method ReadSyn(c: Cursor) returns (r: Result<SynBody, PacketDecodeError>)
    modifies c
    ensures Decoded(r, c.rest) == DecodeSyn(old(c.rest))
  {
    var initSeq := c.ReadU16();
    if initSeq.Err? { return Err(FromParse(initSeq.error)); }
    var raw := c.ReadU16();
    if raw.Err? { return Err(FromParse(raw.error)); }
    var flags := FlagsFromBits(raw.value);
    var name := ReadSynName(flags, c);
    if name.Err? { return Err(name.error); }
    return Ok(SynBody(initSeq.value, flags, name.value));
  }

  method ReadSynName(flags: PacketFlags, c: Cursor) returns (r: Result<Str, PacketDecodeError>)
    modifies c
    ensures Decoded(r, c.rest) == DecodeSynName(flags, old(c.rest))
  {
    if flags[NAME] {
      var n := c.ReadNtString();
      if n.Err? { return Err(FromParse(n.error)); }
      return Ok(n.value);
    }
    return Ok([]);
  }

  method WriteMsg(m: MsgBody, w: Writer)
    modifies w
    ensures w.data == old(w.data) + EncodeMsg(m)
  {
    w.PutU16(m.seqNo);
    w.PutU16(m.ack);
    w.PutSlice(m.data);
  }

  method ReadMsg(c: Cursor) returns (r: Result<MsgBody, PacketDecodeError>)
    modifies c
    ensures Decoded(r, c.rest) == DecodeMsg(old(c.rest))
  {
    var seqNo := c.ReadU16();
    if seqNo.Err? { return Err(FromParse(seqNo.error)); }
    var ack := c.ReadU16();
    if ack.Err? { return Err(FromParse(ack.error)); }
    var data := c.ToBytes();
    return Ok(MsgBody(seqNo.value, ack.value, data));
  }

  method WriteFin(f: FinBody, w: Writer)
    modifies w
    ensures w.data == old(w.data) + EncodeFin(f)
  {
    w.PutSlice(f.reason);
    w.PutU8(0);
  }

  method ReadFin(c: Cursor) returns (r: Result<FinBody, PacketDecodeError>)
    modifies c
    ensures Decoded(r, c.rest) == DecodeFin(old(c.rest))
  {
    var reason := c.ReadNtString();
    if reason.Err? { return Err(FromParse(reason.error)); }
    return Ok(FinBody(reason.value));
  }

  method WriteEnc(e: EncBody, w: Writer)
    modifies w
    ensures w.data == old(w.data) + EncodeEnc(e)
  {
    w.PutU8(EncKindToByte(VariantKind(e.body)));
    w.PutU16(e.crypFlags);
    WriteVariant(e.body, w);
  }

  method WriteVariant(v: EncBodyVariant, w: Writer)
    modifies w
    ensures w.data == old(w.data) + EncodeVariant(v)
  {
    match v
    case Init(x, y) =>
      w.PutSlice(EncodePart(x));
      w.PutSlice(EncodePart(y));
    case Auth(a) =>
      w.PutSlice(EncodePart(a));
  }

  method ReadPart(c: Cursor) returns (r: Result<seq<u8>, PacketDecodeError>)
    modifies c
    ensures Decoded(r, c.rest) == DecodePart(old(c.rest))
  {
    var v := c.ReadNpHexString(PART_SIZE);
    if v.Err? { return Err(FromParse(v.error)); }
    return Ok(v.value);
  }

  method ReadEnc(c: Cursor) returns (r: Result<EncBody, PacketDecodeError>)
    modifies c
    ensures Decoded(r, c.rest) == DecodeEnc(old(c.rest))
  {
    var encKind := c.ReadU8();
    if encKind.Err? { return Err(FromParse(encKind.error)); }
    var kind := EncKindFromByte(encKind.value);
    if kind.None? { return Err(UnknownEncKind(encKind.value)); }
    var crypFlags := c.ReadU16();
    if crypFlags.Err? { return Err(FromParse(crypFlags.error)); }
    var body: EncBodyVariant;
    match kind.value {
      case INIT =>
        var x := ReadPart(c);
        if x.Err? { return Err(x.error); }
        var y := ReadPart(c);
        if y.Err? { return Err(y.error); }
        body := Init(x.value, y.value);
      case AUTH =>
        var a := ReadPart(c);
        if a.Err? { return Err(a.error); }
        body := Auth(a.value);
    }
    return Ok(EncBody(crypFlags.value, body));
  }

  method WritePing(p: PingBody, w: Writer)
    modifies w
    ensures w.data == old(w.data) + EncodePing(p)
  {
    w.PutU16(p.pingId);
    w.PutSlice(p.data);
    w.PutU8(0);
  }

  method ReadPing(c: Cursor) returns (r: Result<PingBody, PacketDecodeError>)
    modifies c
    ensures Decoded(r, c.rest) == DecodePing(old(c.rest))
  {
    var pingId := c.ReadU16();
    if pingId.Err? { return Err(FromParse(pingId.error)); }
    var data := c.ReadNtString();
    if data.Err? { return Err(FromParse(data.error)); }
    return Ok(PingBody(pingId.value, data.value));
  }

  method ReadSessionBodyKind(k: PacketKind, c: Cursor) returns (r: Result<SupportedSessionBody, PacketDecodeError>)
    modifies c
    ensures Decoded(r, c.rest) == DecodeSessionBodyKind(k, old(c.rest))
  {
    match k
    case SYN => var b := ReadSyn(c); r := if b.Ok? then Ok(Syn(b.value)) else Err(b.error);
    case MSG => var b := ReadMsg(c); r := if b.Ok? then Ok(Msg(b.value)) else Err(b.error);
    case FIN => var b := ReadFin(c); r := if b.Ok? then Ok(Fin(b.value)) else Err(b.error);
    case ENC => var b := ReadEnc(c); r := if b.Ok? then Ok(Enc(b.value)) else Err(b.error);
    case _ => r := Err(UnknownKind(KindToByte(k)));
  }

  /** `SessionBodyBytes::decode_kind`: takes the rest of the cursor. */
  method ReadLazyKind(k: PacketKind, c: Cursor) returns (r: Result<SessionBodyBytes, PacketDecodeError>)
    modifies c
    ensures Decoded(r, c.rest) == LazyDecodeKind(k, old(c.rest))
  {
    var body := c.ToBytes();
    return Ok(SessionBodyBytes(k, body));
  }

  // A codec value holds functions, not methods, so the generic `decode`
  // layers are read imperatively once for each of the two codecs the crate
  // instantiates: the typed bodies and the lazy `SessionBodyBytes`.

  /** `SessionBodyFrame::<SupportedSessionBody>::decode_kind`: the session id,
      then the typed body. */
  method ReadTypedFrameKind(k: PacketKind, c: Cursor) returns (r: Result<SessionBodyFrame<SupportedSessionBody>, PacketDecodeError>)
    modifies c
    ensures Decoded(r, c.rest) == DecodeFrameKind(SessionCodec, k, old(c.rest))
  {
    var id := c.ReadU16();
    if id.Err? { return Err(FromParse(id.error)); }
    var body := ReadSessionBodyKind(k, c);
    if body.Err? { return Err(body.error); }
    return Ok(SessionBodyFrame(id.value, body.value));
  }

  /** `SupportedBody::<SupportedSessionBody>::decode_kind`. */
  method ReadTypedSupportedKind(k: PacketKind, c: Cursor) returns (r: Result<SupportedBody<SupportedSessionBody>, PacketDecodeError>)
    modifies c
    ensures Decoded(r, c.rest) == DecodeSupportedKind(SessionCodec, k, old(c.rest))
  {
    if k == PING {
      var p := ReadPing(c);
      r := if p.Ok? then Ok(Ping(p.value)) else Err(p.error);
    } else if IsSessionFramed(k) {
      var f := ReadTypedFrameKind(k, c);
      r := if f.Ok? then Ok(Session(f.value)) else Err(f.error);
    } else {
      r := Err(UnknownKind(KindToByte(k)));
    }
  }

  /** `Packet::decode` with typed bodies: the packet id, the kind byte, then
      the body for that kind. */
  method ReadTypedPacket(c: Cursor) returns (r: Result<TypedPacket, PacketDecodeError>)
    modifies c
    ensures Decoded(r, c.rest) == DecodePacket(TypedBodyCodec, old(c.rest))
  {
    var id := c.ReadU16();
    if id.Err? { return Err(FromParse(id.error)); }
    var kind := c.ReadU8();
    if kind.Err? { return Err(FromParse(kind.error)); }
    var body := ReadTypedSupportedKind(KindFromByte(kind.value), c);
    if body.Err? { return Err(body.error); }
    return Ok(Packet(id.value, body.value));
  }

  /** `SessionBodyFrame::<SessionBodyBytes>::decode_kind`. */
  method ReadLazyFrameKind(k: PacketKind, c: Cursor) returns (r: Result<SessionBodyFrame<SessionBodyBytes>, PacketDecodeError>)
    modifies c
    ensures Decoded(r, c.rest) == DecodeFrameKind(LazyCodec, k, old(c.rest))
  {
    var id := c.ReadU16();
    if id.Err? { return Err(FromParse(id.error)); }
    var body := ReadLazyKind(k, c);
    return Ok(SessionBodyFrame(id.value, body.value));
  }

  /** `SupportedBody::<SessionBodyBytes>::decode_kind`. */
  method ReadLazySupportedKind(k: PacketKind, c: Cursor) returns (r: Result<SupportedBody<SessionBodyBytes>, PacketDecodeError>)
    modifies c
    ensures Decoded(r, c.rest) == DecodeSupportedKind(LazyCodec, k, old(c.rest))
  {
    if k == PING {
      var p := ReadPing(c);
      r := if p.Ok? then Ok(Ping(p.value)) else Err(p.error);
    } else if IsSessionFramed(k) {
      var f := ReadLazyFrameKind(k, c);
      r := if f.Ok? then Ok(Session(f.value)) else Err(f.error);
    } else {
      r := Err(UnknownKind(KindToByte(k)));
    }
  }

  /** `Packet::decode` with lazy session bodies. */
  method ReadLazyPacket(c: Cursor) returns (r: Result<LazyPacket, PacketDecodeError>)
    modifies c
    ensures Decoded(r, c.rest) == DecodePacket(LazyBodyCodec, old(c.rest))
  {
    var id := c.ReadU16();
    if id.Err? { return Err(FromParse(id.error)); }
    var kind := c.ReadU8();
    if kind.Err? { return Err(FromParse(kind.error)); }
    var body := ReadLazySupportedKind(KindFromByte(kind.value), c);
    if body.Err? { return Err(body.error); }
    return Ok(Packet(id.value, body.value));
  }

  // The generic `encode` layers likewise, once for the typed bodies and once
  // for the lazy ones.

  /** `SupportedSessionBody::encode`: the variant's own encoding. */
  method WriteSessionBody(b: SupportedSessionBody, w: Writer)
    modifies w
    ensures w.data == old(w.data) + EncodeSessionBody(b)
  {
    match b
    case Syn(s) => WriteSyn(s, w);
    case Msg(m) => WriteMsg(m, w);
    case Fin(f) => WriteFin(f, w);
    case Enc(e) => WriteEnc(e, w);
  }

  /** `SessionBodyFrame::<SupportedSessionBody>::encode`: the session id, then the body. */
  method WriteTypedFrame(f: SessionBodyFrame<SupportedSessionBody>, w: Writer)
    modifies w
    ensures w.data == old(w.data) + EncodeFrame(SessionCodec, f)
  {
    w.PutU16(f.id);
    WriteSessionBody(f.body, w);
  }

  /** `SupportedBody::<SupportedSessionBody>::encode`. */
  method WriteTypedSupported(b: SupportedBody<SupportedSessionBody>, w: Writer)
    modifies w
    ensures w.data == old(w.data) + EncodeSupported(SessionCodec, b)
  {
    match b
    case Ping(p) => WritePing(p, w);
    case Session(f) => WriteTypedFrame(f, w);
  }

  /** `Packet::encode` with typed bodies: the packet id, the kind byte, the body. */
  method WriteTypedPacket(p: TypedPacket, w: Writer)
    modifies w
    ensures w.data == old(w.data) + EncodePacket(TypedBodyCodec, p)
  {
    w.PutU16(p.id);
    w.PutU8(KindToByte(PacketKindOf(TypedBodyCodec, p)));
    WriteTypedSupported(p.body, w);
  }

  /** `SessionBodyBytes::encode`: the kept bytes, verbatim. */
  method WriteLazyBody(s: SessionBodyBytes, w: Writer)
    modifies w
    ensures w.data == old(w.data) + LazyCodec.encode(s)
  {
    w.PutSlice(s.body);
  }

  /** `SessionBodyFrame::<SessionBodyBytes>::encode`. */
  method WriteLazyFrame(f: SessionBodyFrame<SessionBodyBytes>, w: Writer)
    modifies w
    ensures w.data == old(w.data) + EncodeFrame(LazyCodec, f)
  {
    w.PutU16(f.id);
    WriteLazyBody(f.body, w);
  }

  /** `SupportedBody::<SessionBodyBytes>::encode`. */
  method WriteLazySupported(b: SupportedBody<SessionBodyBytes>, w: Writer)
    modifies w
    ensures w.data == old(w.data) + EncodeSupported(LazyCodec, b)
  {
    match b
    case Ping(p) => WritePing(p, w);
    case Session(f) => WriteLazyFrame(f, w);
  }

  /** `Packet::encode` with lazy session bodies. */
  method WriteLazyPacket(p: LazyPacket, w: Writer)
    modifies w
    ensures w.data == old(w.data) + EncodePacket(LazyBodyCodec, p)
  {
    w.PutU16(p.id);
    w.PutU8(KindToByte(PacketKindOf(LazyBodyCodec, p)));
    WriteLazySupported(p.body, w);
  }
}
