/** The frame of the control protocol: a fixed header and a bounded payload. */
module Frames {
  import opened Basics
  import opened Records
  import opened Codec
  import opened ContainerIO
  import Crc32

  const FRAME_HEADER_SIZE := 32
  const PROTOCOL_VERSION := 1

  /** A frame as a caller hands it over: the type may be no message type at all. */
  datatype Frame = Frame(messageType: u16, flags: u16, sequence: u64, payload: Text)

  /** Hello is 1 and the error response is 14. */
  predicate IsMessageType(n: u16) { 1 <= n <= 14 }

  predicate Legal(f: Frame) { IsMessageType(f.messageType) && |f.payload| <= MAX_FRAME_BYTES }

  function FrameMagic(): (m: Text)
    ensures |m| == 4
  {
    ['P', 'F', 'R', '1']
  }

  datatype FrameBytes = Sealed(bytes: Text) | Rejected(code: OutcomeCode)

  datatype FrameHeader = FrameHeader(
    version: u16, messageType: u16, flags: u16, reserved: u16, sequence: u64, length: u32, payloadCrc: u32)

  /** The header fields between the magic and the header's own checksum. */
  function PutFields(h: FrameHeader, rest: Text): Text {
    PutU16(h.version, PutU16(h.messageType, PutU16(h.flags, PutU16(h.reserved, PutU64(h.sequence, PutU32(h.length,
    PutU32(h.payloadCrc, rest)))))))
  }

  function HeaderOf(f: Frame): FrameHeader
    requires Legal(f)
  {
    FrameHeader(PROTOCOL_VERSION, f.messageType, f.flags, 0, f.sequence, |f.payload|, Crc32.Value(f.payload))
  }

  /** A header sealed with its checksum, in front of the payload. */
  function Sealing(h: FrameHeader, payload: Text): Text {
    FrameMagic() + PutFields(h, PutU32(Crc32.Value(FrameMagic() + PutFields(h, [])), payload))
  }

  function EncodeFrame(f: Frame): FrameBytes {
    if !IsMessageType(f.messageType) then Rejected(MalformedRequest)
    else if |f.payload| > MAX_FRAME_BYTES then Rejected(ResourceBoundExceeded)
    else Sealed(Sealing(HeaderOf(f), f.payload))
  }

  // -------------------------------------------------------------------------
  // Decoding
  // -------------------------------------------------------------------------

  datatype Opening<T> = Opened(value: T) | Refused(code: OutcomeCode)

  function GetFields(s: Text): Parsed<(FrameHeader, u32)> {
    hide GetU16, PutU16, GetU32, PutU32, GetU64, PutU64;
    var (version, s) :- GetU16(s);
    var (messageType, s) :- GetU16(s);
    var (flags, s) :- GetU16(s);
    var (reserved, s) :- GetU16(s);
    var (sequence, s) :- GetU64(s);
    var (length, s) :- GetU32(s);
    var (payloadCrc, s) :- GetU32(s);
    var (headerCrc, s) :- GetU32(s);
    Some(((FrameHeader(version, messageType, flags, reserved, sequence, length, payloadCrc), headerCrc), s))
  }

  function DecodeHeader(header: Text): Opening<FrameHeader> {
    if |header| != FRAME_HEADER_SIZE then Refused(TransportFailure)
    else if header[..4] != FrameMagic() then Refused(TransportFailure)
    else
      match GetFields(header[4..])
      case None => Refused(TransportFailure)
      case Some(((h, headerCrc), rest)) =>
        if Crc32.Value(header[..28]) != headerCrc then Refused(TransportFailure)
        else if h.version != PROTOCOL_VERSION then Refused(TransportFailure)
        else if !IsMessageType(h.messageType) then Refused(TransportFailure)
        else if h.reserved != 0 then Refused(TransportFailure)
        else if h.length > MAX_FRAME_BYTES then Refused(ResourceBoundExceeded)
        else Opened(h)
  }

  function DecodeFrame(bytes: Text): Opening<Frame> {
    if |bytes| < FRAME_HEADER_SIZE then Refused(TransportFailure)
    else
      match DecodeHeader(bytes[..FRAME_HEADER_SIZE])
      case Refused(code) => Refused(code)
      case Opened(h) =>
        var payload := bytes[FRAME_HEADER_SIZE..];
        if |bytes| != FRAME_HEADER_SIZE + h.length then Refused(TransportFailure)
        else if Crc32.Value(payload) != h.payloadCrc then Refused(TransportFailure)
        else Opened(Frame(h.messageType, h.flags, h.sequence, payload))
  }

  // -------------------------------------------------------------------------
  // The two are inverse
  // -------------------------------------------------------------------------

  lemma FieldsLaw(h: FrameHeader, headerCrc: u32, rest: Text)
    ensures GetFields(PutFields(h, PutU32(headerCrc, rest))) == Some(((h, headerCrc), rest))
  {
    hide GetU16, PutU16, GetU32, PutU32, GetU64, PutU64;
    U16Law();
    U32Law();
    U64Law();
  }

  lemma FieldsBack(s: Text)
    requires GetFields(s).Some?
    ensures var ((h, headerCrc), rest) := GetFields(s).value; s == PutFields(h, PutU32(headerCrc, rest))
  {
    hide GetU16, PutU16, GetU32, PutU32, GetU64, PutU64;
  }

  lemma FieldsPrepend(h: FrameHeader, a: Text, b: Text)
    ensures PutFields(h, a) + b == PutFields(h, a + b)
    ensures |PutFields(h, a)| == 24 + |a|
  {
    hide PutU16, PutU32, PutU64;
    var s := PutU32(h.payloadCrc, a);
    U32Prepends(h.payloadCrc, a, b);
    U32Prepends(h.length, s, b);
    s := PutU32(h.length, s);
    U64Appends(h.sequence, s, b);
    s := PutU64(h.sequence, s);
    U16Prepends(h.reserved, s, b);
    s := PutU16(h.reserved, s);
    U16Prepends(h.flags, s, b);
    s := PutU16(h.flags, s);
    U16Prepends(h.messageType, s, b);
    U16Prepends(h.version, PutU16(h.messageType, s), b);
  }

  /** The sealed bytes fall apart into the header, its checksum and the payload. */
  lemma SealingParts(h: FrameHeader, payload: Text)
    ensures var bytes, headerCrc := Sealing(h, payload), Crc32.Value(FrameMagic() + PutFields(h, []));
            && |bytes| == FRAME_HEADER_SIZE + |payload| && bytes[FRAME_HEADER_SIZE..] == payload
            && bytes[..4] == FrameMagic() && bytes[..28] == FrameMagic() + PutFields(h, [])
            && bytes[4..FRAME_HEADER_SIZE] == PutFields(h, PutU32(headerCrc, []))
  {
    hide PutU32, PutFields, Crc32.Value;
    var headerCrc := Crc32.Value(FrameMagic() + PutFields(h, []));
    U32Appends(headerCrc, payload);
    FieldsPrepend(h, PutU32(headerCrc, []), payload);
    assert Sealing(h, payload) == FrameMagic() + (PutFields(h, PutU32(headerCrc, [])) + payload);
    FieldsPrepend(h, [], PutU32(headerCrc, []));
    assert [] + PutU32(headerCrc, []) == PutU32(headerCrc, []);
    var bytes := Sealing(h, payload);
    assert bytes[..28] == FrameMagic() + PutFields(h, []);
  }

  /** Every legal frame survives the wire, and only legal frames are sent. */
  lemma FrameThere(f: Frame)
    ensures EncodeFrame(f).Sealed? <==> Legal(f)
    ensures Legal(f) ==> DecodeFrame(EncodeFrame(f).bytes) == Opened(f)
  {
    hide PutU32, PutFields, GetFields, Sealing, Crc32.Value;
    if Legal(f) {
      var h := HeaderOf(f);
      var bytes := Sealing(h, f.payload);
      SealingParts(h, f.payload);
      FieldsLaw(h, Crc32.Value(FrameMagic() + PutFields(h, [])), []);
      var header := bytes[..FRAME_HEADER_SIZE];
      assert header[..4] == bytes[..4] && header[4..] == bytes[4..FRAME_HEADER_SIZE] && header[..28] == bytes[..28];
    }
  }

  /** Whatever decodes is exactly the encoding of what it decodes to. */
  lemma FrameBack(bytes: Text)
    requires DecodeFrame(bytes).Opened?
    ensures EncodeFrame(DecodeFrame(bytes).value) == Sealed(bytes)
  {
    hide PutU32, PutFields, GetFields, Crc32.Value;
    var header := bytes[..FRAME_HEADER_SIZE];
    var ((h, headerCrc), rest) := GetFields(header[4..]).value;
    var f := DecodeFrame(bytes).value;
    FieldsBack(header[4..]);
    FieldsPrepend(h, PutU32(headerCrc, rest), []);
    assert rest == [];
    FieldsPrepend(h, [], PutU32(headerCrc, []));
    assert [] + PutU32(headerCrc, []) == PutU32(headerCrc, []);
    assert header == FrameMagic() + header[4..];
    assert header[..28] == FrameMagic() + PutFields(h, []);
    assert HeaderOf(f) == h;
    U32Appends(headerCrc, f.payload);
    FieldsPrepend(h, PutU32(headerCrc, []), f.payload);
    assert bytes == header + f.payload;
  }

  // -------------------------------------------------------------------------
  // Step by step
  // -------------------------------------------------------------------------

  method SealFrame(f: Frame) returns (r: FrameBytes)
    ensures r == EncodeFrame(f)
  {
    hide PutU16, PutU32, PutU64, Crc32.Value, Crc32.Checksum;
    if !IsMessageType(f.messageType) {
      return Rejected(MalformedRequest);
    }
    if |f.payload| > MAX_FRAME_BYTES {
      return Rejected(ResourceBoundExceeded);
    }
    var payloadCrc := ChecksumOf(f.payload);
    var h := FrameHeader(PROTOCOL_VERSION, f.messageType, f.flags, 0, f.sequence, |f.payload|, payloadCrc);
    var header := SealHeader(h, f.payload);
    return Sealed(header + f.payload);
  }

  method WriteFields(w: ByteWriter, h: FrameHeader)
    requires w.Valid()
    modifies w
    ensures w.Valid() && w.fits == old(w.fits)
    ensures forall rest :: w.full + rest == old(w.full) + PutFields(h, rest)
  {
    hide PutU16, PutU32, PutU64;
    w.U16(h.version);
    w.U16(h.messageType);
    w.U16(h.flags);
    w.U16(h.reserved);
    w.U64(h.sequence);
    w.U32(h.length);
    w.U32(h.payloadCrc);
  }

  method SealHeader(h: FrameHeader, ghost payload: Text) returns (header: Text)
    ensures header + payload == Sealing(h, payload)
  {
    hide PutFields, PutU32, Crc32.Value, Crc32.Checksum;
    var w := new ByteWriter(FRAME_HEADER_SIZE);
    w.Raw(FrameMagic());
    WriteFields(w, h);
    FieldsPrepend(h, [], []);
    ghost var prologue := FrameMagic() + PutFields(h, []);
    assert w.full == w.full + [] == prologue;
    assert w.out == prologue;
    var headerCrc := ChecksumOf(w.out);
    FieldsPrepend(h, [], PutU32(headerCrc, payload));
    assert [] + PutU32(headerCrc, payload) == PutU32(headerCrc, payload);
    w.U32(headerCrc);
    assert w.full + payload == prologue + PutU32(headerCrc, payload);
    assert prologue + PutU32(headerCrc, payload) == FrameMagic() + (PutFields(h, []) + PutU32(headerCrc, payload));
    assert |w.full + []| == 32;
    header := w.out;
  }

  method ReadFields(r: ByteReader) returns (v: Option<(FrameHeader, u32)>)
    requires r.Valid() && r.ok
    modifies r
    ensures r.Valid() && (v.Some? ==> r.ok)
    ensures Took(v, r.Rest(), GetFields(old(r.Rest())))
  {
    hide GetU16, PutU16, GetU32, PutU32, GetU64, PutU64, ByteReader.Rest;
    var version := r.U16();
    if version.None? {
      return None;
    }
    var messageType := r.U16();
    if messageType.None? {
      return None;
    }
    var flags := r.U16();
    if flags.None? {
      return None;
    }
    var reserved := r.U16();
    if reserved.None? {
      return None;
    }
    var sequence := r.U64();
    if sequence.None? {
      return None;
    }
    var length := r.U32();
    if length.None? {
      return None;
    }
    var payloadCrc := r.U32();
    if payloadCrc.None? {
      return None;
    }
    var headerCrc := r.U32();
    if headerCrc.None? {
      return None;
    }
    return Some((FrameHeader(version.value, messageType.value, flags.value, reserved.value, sequence.value, length.value,
                             payloadCrc.value), headerCrc.value));
  }

  method OpenHeader(header: Text) returns (r: Opening<FrameHeader>)
    ensures r == DecodeHeader(header)
  {
    hide GetFields, Crc32.Value;
    if |header| != FRAME_HEADER_SIZE {
      return Refused(TransportFailure);
    }
    if header[..4] != FrameMagic() {
      return Refused(TransportFailure);
    }
    var reader := new ByteReader(header);
    var magic := reader.Raw(4);
    var fields := ReadFields(reader);
    if fields.None? {
      return Refused(TransportFailure);
    }
    var (h, headerCrc) := fields.value;
    var checksum := ChecksumOf(header[..28]);
    if checksum != headerCrc {
      return Refused(TransportFailure);
    }
    if h.version != PROTOCOL_VERSION {
      return Refused(TransportFailure);
    }
    if !IsMessageType(h.messageType) {
      return Refused(TransportFailure);
    }
    if h.reserved != 0 {
      return Refused(TransportFailure);
    }
    if h.length > MAX_FRAME_BYTES {
      return Refused(ResourceBoundExceeded);
    }
    return Opened(h);
  }

  method OpenFrame(bytes: Text) returns (r: Opening<Frame>)
    ensures r == DecodeFrame(bytes)
  {
    hide DecodeHeader, Crc32.Value;
    if |bytes| < FRAME_HEADER_SIZE {
      return Refused(TransportFailure);
    }
    var accepted := OpenHeader(bytes[..FRAME_HEADER_SIZE]);
    if accepted.Refused? {
      return Refused(accepted.code);
    }
    var h := accepted.value;
    if |bytes| != FRAME_HEADER_SIZE + h.length {
      return Refused(TransportFailure);
    }
    var payload := bytes[FRAME_HEADER_SIZE..];
    var checksum := ChecksumOf(payload);
    if checksum != h.payloadCrc {
      return Refused(TransportFailure);
    }
    return Opened(Frame(h.messageType, h.flags, h.sequence, payload));
  }
}
