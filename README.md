# rust-dnscat2 wire protocol: a verified model

This project models the byte-level core of rust-dnscat2, a Rust implementation
of the DNSCAT2 tunnelling protocol, in Dafny:

- **the packet codec** (`src/packet.rs`). A packet is a `u16` packet id and a
  kind byte (SYN 0x00, MSG 0x01, FIN 0x02, ENC 0x03, PING 0xFF). For the four
  session kinds a `u16` session id and the body follow; a PING carries only its
  body. The body encoders append to a `BufMut`, modelled as `Buf.Writer`. The
  decoders advance a `&mut Bytes` cursor, modelled as `Buf.Cursor`. The
  `PacketBody` trait is a dictionary of functions (`Packets.BodyCodec`). This
  gives the typed body (`SupportedSessionBody`) and the lazy one
  (`SessionBodyBytes`) one generic `Packet`/`SupportedBody`/`SessionBodyFrame`
  layer.
- **the message codec** (`src/message/mod.rs`), a second, slice-based codec.
  It has the same kinds plus a frame with the packet id. Here PING also carries
  a session id. Decoders return `(rest, value)`. `encode_enc_hex_part` and
  `decode_enc_hex_part` fill a fixed 32- or 16-byte buffer in place (an
  `array`).
- **the client SYN handshake** (`src/conn/handshake.rs`): an optional
  encryption sub-handshake, then a send/receive loop retried on receive
  timeouts. The connection then takes the server's session name, COMMAND
  flag and initial sequence. A `Connection` class holds the fields the
  handshake updates. A scripted `Transport` class replaces the asynchronous
  transport: it has a list of rounds and a log of sent SYNs.
- **the default encryption** (`src/conn/enc.rs`): `encrypt` and `decrypt`
  return every remaining payload byte and drain the payload.

The primitives both codecs use are defined once in `Parse` and proved about
there:
- big-endian `u8`/`u16` reads;
- NUL-terminated UTF-8 strings (well-formedness as in the table of section 4
  of RFC 3629);
- NUL-padded 32-byte hex fields.

The `bitflags!` structs are modelled as one truth value per known bit, with
`bits()` and `from_bits_truncate` written over integers (`Common.Bits`,
`Common.FromBits`).

Most functions are specified by separate lemmas in `PacketLaws`,
`MessageLaws` and `Handshake`:
- round trips `decode(encode(x) ++ rest) == (x, rest)`;
- rejection of unknown kinds in both directions;
- truncation of unknown flag bits;
- agreement between the lazy and the typed packet codec;
- all twelve test vectors of the crate, decoded and re-encoded byte for byte.

Each imperative method (`Write…`, `Read…`, `EncodeEncHexPart`, `SynLoop`,
`ClientHandshake`) is proved equal to the pure function it implements. Those
functions' properties are the lemmas.

## Model

| member | source | states |
|---|---|---|
| Common.U16Of | src/packet.rs:83-84 | the `u16` read from two bytes is the one whose big-endian encoding is those bytes |
| Common.Bits | src/packet.rs:160-189 | `bits()` is below 2^n and has bit i exactly when flag i is set |
| Common.FromBits | src/packet.rs:160-189 | `from_bits_truncate` keeps exactly bits 0..n-1 of the raw word |
| Common.FromBitsBits | src/packet.rs:160-189 | reading back `bits()` gives the same flags |
| Common.NoBitAbove | src/message/mod.rs:157-181 | a word below 2^n has no bit n, so an unknown flag is never written |
| Parse.BeU16Inverts | src/packet.rs:83-84 | `be_u16` reads back what `put_u16` wrote and consumes exactly two bytes |
| Parse.BeU16Splits | src/packet.rs:83-84 | the two bytes a `u16` read consumes are the big-endian bytes of the value it returns |
| Parse.NtString | src/packet.rs:586-590 | the string read has no NUL and is followed by the consumed NUL; `MissingNul` exactly when there is no NUL |
| Parse.NtStringInverts | src/packet.rs:742-754 | a NUL-free string written with its terminator reads back exactly |
| Parse.HexAppend | src/message/mod.rs:307-312 | hex text is produced byte by byte |
| Parse.HexDecodeEncode | src/packet.rs:892-901 | hex decoding undoes hex encoding |
| Parse.NpHexString | src/packet.rs:892-894 | a decoded field holds at most half its width in bytes and consumes exactly the field |
| Parse.NpHexStringInverts | src/packet.rs:892-901 | a part of at most 16 bytes written as a padded hex field reads back as itself |
| Packets.KindFromByte | src/packet.rs:131-155 | the kind read converts back to the same byte; it is `Other` exactly for the unassigned bytes |
| Packets.FlagBits | src/packet.rs:160-189 | the SYN flag word only uses the seven known bits (below 0x80) |
| Packets.FlagsFromBits | src/packet.rs:160-189 | flag i is bit i of the raw word, for the seven known bits |
| Packets.SynNew | src/packet.rs:505-518 | a new SYN has the sequence, COMMAND iff command, ENCRYPTED iff encrypted, no other flag and no name |
| Packets.SetSessionName | src/packet.rs:551-560 | sets NAME and the name, keeps the other flags and sequence, returns the name length plus one |
| Packets.EncodeSyn | src/packet.rs:569-576 | the SYN encoding is 4 header bytes long, plus the name and its terminator when NAME is set |
| Packets.MsgNew | src/packet.rs:628-634 | a new MSG has the sequence, the ack and no data |
| Packets.SetSeq | src/packet.rs:647-649 | only the sequence changes |
| Packets.SetAck | src/packet.rs:652-654 | only the ack changes |
| Packets.SetData | src/packet.rs:659-662 | only the data changes; returns its length |
| Packets.EncodeMsg | src/packet.rs:681-685 | the MSG encoding is 4 header bytes plus the data long |
| Packets.EncodeFin | src/packet.rs:742-745 | the FIN encoding is one byte longer than the reason |
| Packets.EncKindFromByte | src/packet.rs:933-939 | only 0 and 1 are enc kinds, and they convert back to their bytes |
| Packets.EncodePart | src/packet.rs:896-901 | every part, whatever its length, fills exactly one 32-byte field |
| Packets.EncodeVariant | src/packet.rs:905-918 | INIT writes two 32-byte fields and AUTH one |
| Packets.EncodeEnc | src/packet.rs:815-819 | the ENC encoding is 3 header bytes plus 32 bytes per part long |
| Packets.EncodePing | src/packet.rs:984-988 | the PING encoding is 2 header bytes plus the data and its terminator long |
| Packets.EncodeFrame | src/packet.rs:345-348 | a session frame is 2 bytes longer than its body |
| Packets.EncodePacket | src/packet.rs:70-74 | a packet is 3 bytes longer than its body |
| Packets.WriteSyn | src/packet.rs:569-576 | appends exactly `EncodeSyn` |
| Packets.ReadSyn | src/packet.rs:582-596 | result and cursor agree with `DecodeSyn` |
| Packets.ReadSynName | src/packet.rs:588-594 | result and cursor agree with the name step of `DecodeSyn` |
| Packets.WriteMsg | src/packet.rs:681-685 | appends exactly `EncodeMsg` |
| Packets.ReadMsg | src/packet.rs:691-699 | result and cursor agree with `DecodeMsg` |
| Packets.WriteFin | src/packet.rs:742-745 | appends exactly `EncodeFin` |
| Packets.ReadFin | src/packet.rs:751-754 | result and cursor agree with `DecodeFin` |
| Packets.WriteEnc | src/packet.rs:815-819 | appends exactly `EncodeEnc` |
| Packets.WriteVariant | src/packet.rs:905-918 | appends exactly `EncodeVariant` |
| Packets.ReadPart | src/packet.rs:892-894 | result and cursor agree with `DecodePart` |
| Packets.ReadEnc | src/packet.rs:825-832 | result and cursor agree with `DecodeEnc` |
| Packets.WritePing | src/packet.rs:984-988 | appends exactly `EncodePing` |
| Packets.ReadPing | src/packet.rs:994-998 | result and cursor agree with `DecodePing` |
| Packets.ReadSessionBodyKind | src/packet.rs:395-403 | result and cursor agree with `DecodeSessionBodyKind` |
| Packets.ReadLazyKind | src/packet.rs:463-465 | result and cursor agree with `LazyDecodeKind` |
| Packets.ReadTypedFrameKind | src/packet.rs:359-363 | with typed bodies, the session id then the imperative body reader give the result and cursor of `DecodeFrameKind` |
| Packets.ReadTypedSupportedKind | src/packet.rs:292-300 | PING, session-framed and unknown kinds, read imperatively, agree with `DecodeSupportedKind` for typed bodies |
| Packets.ReadTypedPacket | src/packet.rs:83-88 | the header reads and the typed body readers give the result and cursor of `DecodePacket` |
| Packets.ReadLazyFrameKind | src/packet.rs:359-363 | with lazy bodies, the session id then the rest of the cursor agree with `DecodeFrameKind` |
| Packets.ReadLazySupportedKind | src/packet.rs:292-300 | the lazy body readers agree with `DecodeSupportedKind` for `SessionBodyBytes` |
| Packets.ReadLazyPacket | src/packet.rs:83-88 | the header reads and the lazy body readers give the result and cursor of `DecodePacket` for `LazyPacket` |
| Packets.WriteSessionBody | src/packet.rs:374-383 | each typed session body, written by its own writer, appends exactly `EncodeSessionBody` |
| Packets.WriteTypedFrame | src/packet.rs:342-348 | the session id then the typed body append exactly `EncodeFrame` for typed bodies |
| Packets.WriteTypedSupported | src/packet.rs:269-278 | a PING or a typed session frame appends exactly `EncodeSupported` for typed bodies |
| Packets.WriteTypedPacket | src/packet.rs:66-74 | the packet id, the kind byte and the typed body writers append exactly `EncodePacket` |
| Packets.WriteLazyBody | src/packet.rs:452-456 | a lazy body appends its kept bytes verbatim |
| Packets.WriteLazyFrame | src/packet.rs:342-348 | the session id then the kept bytes append exactly `EncodeFrame` for lazy bodies |
| Packets.WriteLazySupported | src/packet.rs:269-278 | a PING or a lazy session frame appends exactly `EncodeSupported` for lazy bodies |
| Packets.WriteLazyPacket | src/packet.rs:66-74 | the packet id, the kind byte and the lazy body writers append exactly `EncodePacket` for `LazyPacket` |
| PacketLaws.KindRoundTrip | src/packet.rs:131-155 | a kind survives its byte unless it is an `Other` holding an assigned byte |
| PacketLaws.FlagsRoundTrip | src/packet.rs:160-189 | `from_bits_truncate(bits())` is the identity on SYN flags |
| PacketLaws.SynRoundTrip | src/packet.rs:569-596 | a well-formed SYN reads back as itself and leaves the rest |
| PacketLaws.SynFlagsTruncated | src/packet.rs:582-594 | decoded flags are the known bits of the raw word; without NAME no name is read |
| PacketLaws.MsgRoundTrip | src/packet.rs:681-699 | a MSG reads back as itself |
| PacketLaws.MsgTakesAll | src/packet.rs:691-699 | a MSG decodes exactly when it has its header; it takes all remaining bytes as data |
| PacketLaws.FinRoundTrip | src/packet.rs:742-754 | a FIN with a NUL-free reason reads back as itself |
| PacketLaws.PingRoundTrip | src/packet.rs:984-998 | a PING with NUL-free data reads back as itself |
| PacketLaws.PartRoundTrip | src/packet.rs:892-901 | a part of at most 16 bytes reads back as itself; a longer one reads back as its first 16 bytes |
| PacketLaws.VariantRoundTrip | src/packet.rs:880-918 | INIT and AUTH bodies with parts of at most 16 bytes read back as themselves |
| PacketLaws.InitRoundTrip | src/packet.rs:880-914 | an INIT body reads back its two parts, x first, when each fits its field |
| PacketLaws.EncRoundTrip | src/packet.rs:815-832 | a well-formed ENC reads back as itself |
| PacketLaws.EncUnknownKind | src/packet.rs:825-829 | any enc-kind byte other than 0 and 1 is `UnknownEncKind` of that byte |
| PacketLaws.SingleBodiesCheckKind | src/packet.rs:604-609 | each body decoder accepts only its own kind and rejects any other with `UnknownKind` |
| PacketLaws.SessionBodyKindMatches | src/packet.rs:395-403 | a decoded session body is of the kind it was decoded for, which is session framed |
| PacketLaws.TypedPacketKindMatches | src/packet.rs:51-53 | the kind of a decoded packet is the kind byte it was read from |
| PacketLaws.SessionBodyRoundTrip | src/packet.rs:374-403 | every well-formed session body reads back as itself for its own kind |
| PacketLaws.FrameRoundTrip | src/packet.rs:345-363 | a session frame reads back when its body does |
| PacketLaws.SupportedRoundTrip | src/packet.rs:273-300 | a PING or session body reads back when its body does |
| PacketLaws.PacketRoundTrip | src/packet.rs:70-88 | a packet of a canonical kind reads back when its body does, for any body codec |
| PacketLaws.TypedPacketRoundTrip | src/packet.rs:70-88 | every well-formed typed packet reads back as itself |
| PacketLaws.UnknownKindRejected | src/packet.rs:292-300 | an unassigned kind byte is rejected with `UnknownKind` of that byte, for any codec |
| PacketLaws.SessionBodyNotUnknown | src/packet.rs:395-403 | the typed body decoders never report `UnknownKind` for a session kind |
| PacketLaws.TypedUnknownKindIff | src/packet.rs:83-88 | a typed packet fails with `UnknownKind(v)` exactly when its kind byte v is unassigned |
| PacketLaws.ShortPacket | src/packet.rs:83-84 | input shorter than the header is `Incomplete` with the bytes missing |
| PacketLaws.ShortFrameKind | src/packet.rs:359-360 | for any codec and kind, a frame shorter than its session id is `Incomplete` with the bytes missing, and nothing is consumed |
| PacketLaws.ShortSyn | src/packet.rs:583-584 | a SYN cut inside its header is `Incomplete` with the bytes missing from the field it stopped in |
| PacketLaws.ShortMsg | src/packet.rs:692-693 | a MSG cut inside its header is `Incomplete` with the bytes missing from the field it stopped in |
| PacketLaws.ShortPing | src/packet.rs:995 | a PING cut inside its id is `Incomplete` with the bytes missing, and nothing is consumed |
| PacketLaws.ShortPart | src/packet.rs:892-894 | a key part shorter than 32 bytes is `Incomplete` with the bytes missing, and nothing is consumed |
| PacketLaws.ShortVariant | src/packet.rs:880-889 | a key body shorter than one part is `Incomplete`, for INIT and AUTH alike |
| PacketLaws.ShortEnc | src/packet.rs:826-829 | an ENC cut inside its header is `Incomplete`, unless its kind byte is present and unknown, which is `UnknownEncKind` first |
| PacketLaws.FinNoNullTerm | src/packet.rs:752 | a FIN fails with `NoNullTerm` exactly when its bytes hold no NUL |
| PacketLaws.PingNoNullTerm | src/packet.rs:995-996 | a PING fails with `NoNullTerm` exactly when the bytes after its id hold no NUL |
| PacketLaws.SynNameNoNullTerm | src/packet.rs:583-587 | with NAME set, a SYN fails with `NoNullTerm` exactly when the bytes after its header hold no NUL |
| PacketLaws.SynWithoutName | src/packet.rs:583-596 | without NAME, a full header is the whole SYN: no name, the rest left |
| PacketLaws.LazyReencodes | src/packet.rs:452-466 | re-encoding a lazily read packet gives back exactly the bytes it consumed |
| PacketLaws.LazyBodyReencodes | src/packet.rs:452-466 | a body read as bytes keeps the kind it was read as and re-encodes to the bytes it was read from |
| PacketLaws.PingReencodes | src/packet.rs:984-995 | a PING body that reads re-encodes to exactly the bytes it consumed |
| PacketLaws.LazyFrameReencodes | src/packet.rs:345-363 | a session frame read as bytes re-encodes to exactly the bytes it consumed |
| PacketLaws.LazySessionDecode | src/packet.rs:463-465 | a lazy session body is the kind and all remaining bytes |
| PacketLaws.LazyAgreesWithTyped | src/packet.rs:445-449 | a typed packet read lazily gives `from_packet_body` of its typed body |
| PacketLaws.SetDataSize | src/packet.rs:659-662 | `set_data` returns what the data adds to the MSG encoding |
| PacketLaws.SetSessionNameSize | src/packet.rs:551-560 | `set_session_name` returns what the name adds to the SYN encoding |
| PacketLaws.SynNewWellFormed | src/packet.rs:505-518 | a new SYN is well formed and encodes to its header only |
| PacketLaws.SynVector | src/packet.rs:1046-1064 | the SYN test packet decodes to the given value and re-encodes to the same bytes |
| PacketLaws.SynVectorBytes | src/packet.rs:1046-1064 | the SYN test packet with any name encodes to the listed header bytes, the name and a NUL |
| PacketLaws.MsgVector | src/packet.rs:1066-1084 | the same for the MSG test packet |
| PacketLaws.FinVector | src/packet.rs:1086-1100 | the same for the FIN test packet |
| PacketLaws.FinVectorOf | src/packet.rs:1086-1100 | the FIN test packet for any NUL-free reason decodes and re-encodes both ways |
| PacketLaws.EncInitVector | src/packet.rs:1102-1129 | the same for the ENC INIT test packet |
| PacketLaws.EncAuthVector | src/packet.rs:1131-1151 | the same for the ENC AUTH test packet |
| PacketLaws.PingVector | src/packet.rs:1153-1171 | the same for the PING test packet, which has no session id |
| PacketLaws.PingVectorOf | src/packet.rs:1153-1171 | the PING test packet for any NUL-free data decodes and re-encodes both ways |
| Messages.MessageKindFromByte | src/message/mod.rs:27-36 | exactly the five assigned bytes are kinds, and they convert back to their bytes |
| Messages.EncryptionKindFromByte | src/message/mod.rs:47-53 | exactly 0 and 1 are encryption kinds |
| Messages.OptionBits | src/message/mod.rs:157-181 | the option word uses only the six known bits |
| Messages.OptionsFromBits | src/message/mod.rs:157-181 | option i is bit i of the raw word, for the six known bits |
| Messages.EncodeSynMessage | src/message/mod.rs:226-235 | a SYN message is 6 header bytes long, plus the name and its terminator when NAME is set |
| Messages.EncodeMessage | src/message/mod.rs:119-127 | every message body begins with its session id |
| Messages.DecodeHexPart | src/message/mod.rs:314-319 | a decoded part (at most 16 bytes by type) consumes exactly one 32-byte field |
| Messages.EncodeEncHexPart | src/message/mod.rs:307-312 | the buffer filled in place holds the part's hex text, NUL-padded to 32 bytes |
| Messages.DecodeEncHexPart | src/message/mod.rs:314-319 | the part copied into the 16-byte buffer is the one `DecodeHexPart` gives |
| Messages.WriteSynMessage | src/message/mod.rs:226-235 | appends exactly `EncodeSynMessage` |
| Messages.WriteMsgMessage | src/message/mod.rs:269-274 | appends exactly `EncodeMsgMessage` |
| Messages.WriteFinMessage | src/message/mod.rs:297-301 | appends exactly `EncodeFinMessage` |
| Messages.WriteEncBody | src/message/mod.rs:362-375 | appends exactly `EncodeEncBody` |
| Messages.WriteEncMessage | src/message/mod.rs:407-412 | appends exactly `EncodeEncMessage` |
| Messages.WritePingMessage | src/message/mod.rs:444-449 | appends exactly `EncodePingMessage` |
| Messages.WriteMessage | src/message/mod.rs:119-127 | appends exactly `EncodeMessage` |
| Messages.WriteMessageFrame | src/message/mod.rs:150-154 | appends exactly `EncodeMessageFrame` |
| MessageLaws.KindBytesRoundTrip | src/message/mod.rs:17-54 | both kind conversions invert their byte values |
| MessageLaws.OptionsRoundTrip | src/message/mod.rs:157-181 | reading back `bits()` gives the same options |
| MessageLaws.OptionsNoEncryptedBit | src/message/mod.rs:157-181 | the 0x40 bit is not a message option and is never written |
| MessageLaws.SynMessageRoundTrip | src/message/mod.rs:203-235 | a well-formed SYN message reads back as itself and leaves the rest |
| MessageLaws.SynOptionsTruncated | src/message/mod.rs:203-222 | decoded options are the known bits of the raw word; without NAME no name is read |
| MessageLaws.MsgMessageRoundTrip | src/message/mod.rs:252-274 | a MSG message reads back as itself |
| MessageLaws.MsgMessageTakesAll | src/message/mod.rs:252-265 | a MSG message decodes exactly when it has 6 bytes; it leaves nothing and its data is everything after the ack |
| MessageLaws.FinMessageRoundTrip | src/message/mod.rs:289-301 | a FIN message with a NUL-free reason reads back as itself |
| MessageLaws.PingMessageRoundTrip | src/message/mod.rs:428-449 | a PING message with NUL-free data reads back as itself |
| MessageLaws.HexPartRoundTrip | src/message/mod.rs:307-319 | a hex part reads back as itself |
| MessageLaws.EncBodyRoundTrip | src/message/mod.rs:340-375 | INIT and AUTH bodies read back as themselves |
| MessageLaws.EncMessageRoundTrip | src/message/mod.rs:388-412 | an ENC message reads back as itself |
| MessageLaws.EncMessageUnknownKind | src/message/mod.rs:388-395 | any enc-kind byte other than 0 and 1 is `UnknownEncKind`, before the flags are read |
| MessageLaws.MessageRoundTrip | src/message/mod.rs:107-127 | every well-formed message reads back as itself for its own kind |
| MessageLaws.FrameRoundTrip | src/message/mod.rs:139-154 | every well-formed frame reads back as itself and leaves the rest |
| MessageLaws.SessionIdFirst | src/message/mod.rs:107-115 | the session id of a decoded message is its first two bytes |
| MessageLaws.BodiesNotUnknownKind | src/message/mod.rs:107-115 | the body decoders never report `UnknownKind` |
| MessageLaws.UnknownKindIff | src/message/mod.rs:139-146 | a frame fails with `UnknownKind(v)` exactly when its kind byte v is unassigned |
| MessageLaws.ShortFrame | src/message/mod.rs:139-142 | input shorter than the frame header is `Incomplete` with the bytes missing |
| MessageLaws.ShortSynMessage | src/message/mod.rs:204-206 | a SYN message cut inside its three `u16` fields is `Incomplete` with the bytes missing from the field it stopped in |
| MessageLaws.ShortMsgMessage | src/message/mod.rs:253-255 | a MSG message cut inside its three `u16` fields is `Incomplete` with the bytes missing from the field it stopped in |
| MessageLaws.ShortFinMessage | src/message/mod.rs:290 | a FIN message cut inside its session id is `Incomplete` with the bytes missing |
| MessageLaws.ShortPingMessage | src/message/mod.rs:429-430 | a PING message cut inside its two ids is `Incomplete` with the bytes missing from the field it stopped in |
| MessageLaws.ShortEncMessage | src/message/mod.rs:389-393 | an ENC message cut inside its header is `Incomplete`, unless its kind byte is present and unknown, which is `UnknownEncKind` first |
| MessageLaws.FinMessageMissingNul | src/message/mod.rs:290-291 | a FIN message fails as a `MissingNul` parse error of the bytes after its session id exactly when they hold no NUL |
| MessageLaws.PingMessageMissingNul | src/message/mod.rs:429-431 | a PING message fails as a `MissingNul` parse error of the bytes after its ids exactly when they hold no NUL |
| MessageLaws.SynMessageMissingNul | src/message/mod.rs:204-209 | with NAME set, a SYN message fails as a `MissingNul` parse error of the bytes after its header exactly when they hold no NUL |
| MessageLaws.SynMessageVector | src/message/mod.rs:468-490 | the SYN test message decodes to the given value and re-encodes to the same bytes |
| MessageLaws.SynVectorOf | src/message/mod.rs:468-490 | the SYN test message for any NUL-free name decodes and re-encodes both ways |
| MessageLaws.SynVectorBytes | src/message/mod.rs:468-490 | the SYN test message with any name encodes to the listed header bytes, the name and a NUL |
| MessageLaws.MsgMessageVector | src/message/mod.rs:492-514 | the same for the MSG test message |
| MessageLaws.MsgVectorOf | src/message/mod.rs:492-514 | the MSG test message for any data decodes and re-encodes both ways |
| MessageLaws.FinMessageVector | src/message/mod.rs:516-534 | the same for the FIN test message |
| MessageLaws.FinVectorOf | src/message/mod.rs:516-534 | the FIN test message for any NUL-free reason decodes and re-encodes both ways |
| MessageLaws.EncInitMessageVector | src/message/mod.rs:536-567 | the same for the ENC INIT test message |
| MessageLaws.EncAuthMessageVector | src/message/mod.rs:569-593 | the same for the ENC AUTH test message |
| MessageLaws.PingMessageVector | src/message/mod.rs:595-615 | the same for the PING test message, which has a session id before the ping id |
| MessageLaws.PingVectorOf | src/message/mod.rs:595-615 | the PING test message for any NUL-free data decodes and re-encodes both ways |
| Handshake.ClientSyn | src/conn/handshake.rs:16-20 | each SYN has `self_seq`, COMMAND iff command, ENCRYPTED iff encrypted, the session name iff one is set, and no other flag |
| Handshake.RetryLoop | src/conn/handshake.rs:14-37 | the loop uses no more rounds than the script has and sends no more SYNs than rounds |
| Handshake.TimeoutIff | src/conn/handshake.rs:29-34 | with a retry limit of at least one, the result is `Timeout` after exactly that many SYNs iff the encryption step passes and that many receives time out |
| Handshake.AtMostMaxRetrySyns | src/conn/handshake.rs:14-34 | at most `recv_max_retry` SYNs are sent when it is at least one |
| Handshake.ZeroMaxRetryRetriesForever | src/conn/handshake.rs:14-34 | with a retry limit of zero, every timeout is retried until the transport is used up |
| Handshake.FirstDecisionEndsLoop | src/conn/handshake.rs:22-35 | the first round within the budget that is not a timeout ends the loop: a send error or receive error is returned unchanged, a non-SYN reply is `Unexpected`, and a SYN reply ends the loop with that SYN |
| Handshake.EncryptionStepFirst | src/conn/handshake.rs:11-13 | the encryption step runs first and only when encrypted; its failure ends the handshake before any SYN |
| Handshake.AfterServerSyn | src/conn/handshake.rs:39-54 | the name is adopted iff the server sent one and the client had none or prefers it; `command` is the server's COMMAND; success iff ENCRYPTED matches, with `peer_seq` set on success |
| Handshake.SuccessIff | src/conn/handshake.rs:11-54 | the handshake succeeds iff the encryption step passes and the loop ends with a server SYN whose ENCRYPTED flag matches |
| Handshake.Transport.SendPacket | src/conn/handshake.rs:22 | fails as the next round says, or logs the SYN |
| Handshake.Transport.RecvPacket | src/conn/handshake.rs:24 | gives the next round's reply and consumes the round |
| Handshake.Connection.Attempt | src/conn/handshake.rs:16-36 | one attempt is one round of `RetryLoop`: retry on a timeout before the last attempt, otherwise the round's verdict |
| Handshake.Connection.SynLoop | src/conn/handshake.rs:14-37 | the loop's end, rounds used and SYNs logged are those of `RetryLoop` |
| Handshake.SynLoopAdvance | src/conn/handshake.rs:14-37 | one SYN round either keeps the loop invariant for the next attempt or ends the loop exactly as `RetryLoop` does |
| Handshake.Connection.ClientHandshake | src/conn/handshake.rs:3-55 | the result, new connection fields, rounds used and SYNs logged are those of `ClientHandshakeSpec` |
| Encryption.Encrypt | src/conn/enc.rs:6-8 | returns exactly the remaining payload and leaves the payload empty |
| Encryption.Decrypt | src/conn/enc.rs:10-12 | returns exactly the remaining payload and leaves the payload empty |
| Encryption.EncryptThenDecrypt | src/conn/enc.rs:6-15 | decrypting what was encrypted gives back the original payload |

## Left out

- `crate::util::parse`, `hex` and `StringBytes` are not part of this model.
  `Parse` defines the behaviour the codecs rely on:
  - reads that fail consume nothing;
  - `nt_string` fails with `MissingNul` when there is no NUL;
  - hex decoding accepts both cases of digit and refuses an odd length;
  - hex encoding writes lower-case digits.
- UTF-8 validation is the well-formedness table of RFC 3629. Rust's
  `Utf8Error` details (valid-up-to position, error length) are dropped: a bad
  string is just `BadUtf8`/`Utf8`.
- The payloads of `hex::DecodeError`, `Needed` and `parse::ErrorKind` are
  reduced. `Needed` becomes the number of missing bytes. `MessageError::Parse`
  keeps the input the failed read was given and the `ParseError` cause.
- `Packets.EncodePart` keeps the code's behaviour for a part longer than 16
  bytes: `resize_with` cuts its hex text to the field width. `PartRoundTrip`
  states what such a part reads back as. The message codec's `ArrayVec<[u8; 16]>`
  parts are at most 16 bytes by type (`Parse.Part`), so the slicing panic of
  `encode_enc_hex_part` for longer parts cannot arise in the model.
- The `SynBody`/`MsgBody` setters (`set_session_name`, `set_seq`, `set_ack`,
  `set_data`) are functions that return the updated value. There is no aliasing
  of the owned body structs to model.
- `set_session_name` panics on an empty name. `Packets.SetSessionName` and the
  handshake (`Handshake.NameSendable`) require a non-empty name instead.
- The asynchronous transport (`send_packet`, `recv_packet`, `await`) is a
  scripted `Handshake.Transport`. Its script ends with a `Closed` error of the
  model's own. The transport and encryption error types are folded into
  `Transport(code)`.
- The handshake's `attempt` counter is an unbounded number in the model. With a
  retry limit of zero, `attempt += 1` (src/conn/handshake.rs:33) would
  eventually overflow the counter's integer type, which `src/conn/mod.rs`
  defines; that overflow is not modelled.
- `Handshake.Connection.ClientHandshake` leaves its updated fields in place when
  it fails. In the crate `client_handshake` takes the connection by value and
  hands it back only on success (src/conn/handshake.rs:3-6, 49, 54), so the state
  after an error cannot be observed. The model still states that state (it is
  `ClientHandshakeSpec`'s), but the crate has nothing it corresponds to.
- `client_encryption_handshake` is `unimplemented!()`. It is a parameter of the
  handshake (`encStep`): its error, or `None` for success with the connection
  unchanged.
- `Connection`, `ConnectionError` and the transport traits are defined in files
  outside the modelled core (`src/conn/mod.rs` is not part of this model). Their
  fields are those the handshake reads and writes.
- `Packet`, `SupportedBody` and `SessionBodyFrame` are generic over their body
  type. A `BodyCodec` value holds functions, not methods, so their pure codecs
  (`DecodePacket`, `DecodeSupportedKind`, `DecodeFrameKind` and the `Encode…`
  functions) are generic, while the imperative readers and writers are written
  once for each of the two instances the crate uses: typed bodies
  (`ReadTyped…`, `WriteTyped…`) and `SessionBodyBytes` (`ReadLazy…`, `WriteLazy…`).
- The `message::ip` and `message::payload` modules are not part of this model.
- Accessors without logic (`id()`, `body()`, `into_body()`, `header_size()`
  constants, `From` conversions into the enums) are not modelled as separate
  members. The header sizes are constants used in the size contracts.
