/** Big-endian fields and the 20-byte message header (`include/sero/core/message_header.hpp`). */
module Wire {
  import opened Words

  // ----------------------------------------------------------------- big-endian

  function U16(v: u16): (b: Bytes)
    ensures |b| == 2
  {
    [v / 0x100, v % 0x100]
  }

  function U32(v: u32): (b: Bytes)
    ensures |b| == 4
  {
    U16(v / 0x1_0000) + U16(v % 0x1_0000)
  }

  function ReadU16(d: Bytes, at: nat): u16
    requires at + 2 <= |d|
  {
    (d[at] as int) * 0x100 + d[at + 1]
  }

  function ReadU32(d: Bytes, at: nat): u32
    requires at + 4 <= |d|
  {
    (ReadU16(d, at) as int) * 0x1_0000 + ReadU16(d, at + 2)
  }

  lemma U16RoundTrip(v: u16, d: Bytes, at: nat)
    requires at + 2 <= |d| && d[at..at + 2] == U16(v)
    ensures ReadU16(d, at) == v
  {
    assert d[at] == d[at..at + 2][0] && d[at + 1] == d[at..at + 2][1];
  }

  lemma U32RoundTrip(v: u32, d: Bytes, at: nat)
    requires at + 4 <= |d| && d[at..at + 4] == U32(v)
    ensures ReadU32(d, at) == v
  {
    hide U16, ReadU16;
    assert d[at..at + 2] == d[at..at + 4][..2] && d[at + 2..at + 4] == d[at..at + 4][2..];
    U16RoundTrip(v / 0x1_0000, d, at);
    U16RoundTrip(v % 0x1_0000, d, at + 2);
  }

  lemma ReadU16Back(d: Bytes, at: nat)
    requires at + 2 <= |d|
    ensures U16(ReadU16(d, at)) == d[at..at + 2]
  {
  }

  lemma ReadU32Back(d: Bytes, at: nat)
    requires at + 4 <= |d|
    ensures U32(ReadU32(d, at)) == d[at..at + 4]
  {
    hide U16, ReadU16;
    ReadU16Back(d, at);
    ReadU16Back(d, at + 2);
    assert d[at..at + 4] == d[at..at + 2] + d[at + 2..at + 4];
  }

  method WriteU16(out: array<u8>, at: nat, v: u16)
    requires at + 2 <= out.Length
    modifies out
    ensures out[at..at + 2] == U16(v)
    ensures forall k :: 0 <= k < out.Length && !(at <= k < at + 2) ==> out[k] == old(out[k])
  {
    out[at] := v / 0x100;
    out[at + 1] := v % 0x100;
  }

  method WriteU32(out: array<u8>, at: nat, v: u32)
    requires at + 4 <= out.Length
    modifies out
    ensures out[at..at + 4] == U32(v)
    ensures forall k :: 0 <= k < out.Length && !(at <= k < at + 4) ==> out[k] == old(out[k])
  {
    hide U32;
    out[at] := v / 0x100_0000;
    out[at + 1] := v / 0x1_0000 % 0x100;
    out[at + 2] := v / 0x100 % 0x100;
    out[at + 3] := v % 0x100;
    U32Bytes(v);
  }

  lemma U32Bytes(v: u32)
    ensures U32(v) == [v / 0x100_0000, v / 0x1_0000 % 0x100, v / 0x100 % 0x100, v % 0x100]
  {
    var hi, lo := v / 0x1_0000, v % 0x1_0000;
    assert v / 0x100_0000 == hi / 0x100;
    LowHalf(v, lo);
  }

  lemma LowHalf(v: nat, lo: nat)
    requires lo == v % 0x1_0000
    ensures v / 0x100 % 0x100 == lo / 0x100 && v % 0x100 == lo % 0x100
  {
    var q := v / 0x1_0000;
    assert v == 0x100 * (0x100 * q) + lo;
    assert v / 0x100 == 0x100 * q + lo / 0x100;
  }

  // --------------------------------------------------------------------- header

  const HEADER_SIZE: nat := 20
  const PROTOCOL_VERSION: u8 := 1
  const SD_SERVICE_ID: u16 := 0xFFFF
  const FLAG_AUTH: u8 := 1

  const REQUEST: u8 := 0x00
  const REQUEST_NO_RETURN: u8 := 0x01
  const RESPONSE: u8 := 0x02
  const NOTIFICATION: u8 := 0x03
  const ERROR: u8 := 0x80

  datatype Header = Header(
    version: u8, messageType: u8, returnCode: u8, flags: u8,
    serviceId: u16, methodEventId: u16, clientId: u16,
    sequenceCounter: u8, reserved: u8, requestId: u32, payloadLength: u32)

  function HeaderBytes(h: Header): (b: Bytes)
    ensures |b| == HEADER_SIZE
  {
    [h.version, h.messageType, h.returnCode, h.flags]
    + U16(h.serviceId) + U16(h.methodEventId) + U16(h.clientId)
    + [h.sequenceCounter, h.reserved] + U32(h.requestId) + U32(h.payloadLength)
  }

  function ParseHeader(d: Bytes): Header
    requires |d| >= HEADER_SIZE
  {
    Header(d[0], d[1], d[2], d[3], ReadU16(d, 4), ReadU16(d, 6), ReadU16(d, 8), d[10], d[11],
           ReadU32(d, 12), ReadU32(d, 16))
  }

  /** Reading back a serialized header gives the header, whatever follows it. */
  lemma HeaderRoundTrip(h: Header, rest: Bytes)
    ensures ParseHeader(HeaderBytes(h) + rest) == h
  {
    hide U16, U32, ReadU16, ReadU32;
    var d := HeaderBytes(h) + rest;
    assert d[4..6] == U16(h.serviceId) && d[6..8] == U16(h.methodEventId) && d[8..10] == U16(h.clientId);
    assert d[12..16] == U32(h.requestId) && d[16..20] == U32(h.payloadLength);
    U16RoundTrip(h.serviceId, d, 4);
    U16RoundTrip(h.methodEventId, d, 6);
    U16RoundTrip(h.clientId, d, 8);
    U32RoundTrip(h.requestId, d, 12);
    U32RoundTrip(h.payloadLength, d, 16);
  }

  /** And serializing what was read gives the same 20 bytes: the header has no slack. */
  lemma HeaderCanonical(d: Bytes)
    requires |d| >= HEADER_SIZE
    ensures HeaderBytes(ParseHeader(d)) == d[..HEADER_SIZE]
  {
    hide U16, U32, ReadU16, ReadU32;
    ReadU16Back(d, 4);
    ReadU16Back(d, 6);
    ReadU16Back(d, 8);
    ReadU32Back(d, 12);
    ReadU32Back(d, 16);
    var b := d[..4] + d[4..6] + d[6..8] + d[8..10] + [d[10], d[11]] + d[12..16] + d[16..20];
    assert d[..4] == [d[0], d[1], d[2], d[3]];
    assert b == d[..HEADER_SIZE];
  }

  method SerializeHeader(h: Header, out: array<u8>)
    requires out.Length >= HEADER_SIZE
    modifies out
    ensures out[..HEADER_SIZE] == HeaderBytes(h)
    ensures out[HEADER_SIZE..] == old(out[HEADER_SIZE..])
  {
    hide U16, U32;
    out[0], out[1], out[2], out[3] := h.version, h.messageType, h.returnCode, h.flags;
    SerializeIds(h, out);
    out[10], out[11] := h.sequenceCounter, h.reserved;
    SerializeTail(h, out);
    SevenParts(out[..], h);
  }

  method SerializeIds(h: Header, out: array<u8>)
    requires out.Length >= HEADER_SIZE
    modifies out
    ensures out[4..6] == U16(h.serviceId) && out[6..8] == U16(h.methodEventId) && out[8..10] == U16(h.clientId)
    ensures forall k :: 0 <= k < out.Length && !(4 <= k < 10) ==> out[k] == old(out[k])
  {
    hide U16;
    WriteU16(out, 4, h.serviceId);
    WriteU16(out, 6, h.methodEventId);
    WriteU16(out, 8, h.clientId);
  }

  method SerializeTail(h: Header, out: array<u8>)
    requires out.Length >= HEADER_SIZE
    modifies out
    ensures out[12..16] == U32(h.requestId) && out[16..20] == U32(h.payloadLength)
    ensures forall k :: 0 <= k < out.Length && !(12 <= k < 20) ==> out[k] == old(out[k])
  {
    hide U32;
    WriteU32(out, 12, h.requestId);
    WriteU32(out, 16, h.payloadLength);
  }

  lemma SevenParts(d: Bytes, h: Header)
    requires |d| >= HEADER_SIZE && d[..4] == [h.version, h.messageType, h.returnCode, h.flags]
    requires d[4..6] == U16(h.serviceId) && d[6..8] == U16(h.methodEventId) && d[8..10] == U16(h.clientId)
    requires d[10..12] == [h.sequenceCounter, h.reserved]
    requires d[12..16] == U32(h.requestId) && d[16..20] == U32(h.payloadLength)
    ensures d[..HEADER_SIZE] == HeaderBytes(h)
  {
    hide U16, U32;
    assert d[..HEADER_SIZE] == d[..4] + d[4..6] + d[6..8] + d[8..10] + d[10..12] + d[12..16] + d[16..20];
  }

  // ----------------------------------------------------------- header validation

  predicate KnownType(t: u8) {
    t == REQUEST || t == REQUEST_NO_RETURN || t == RESPONSE || t == NOTIFICATION || t == ERROR
  }

  /** Bit 15 set marks an event identifier. */
  predicate IsEventId(id: u16) {
    id >= 0x8000
  }

  predicate TypeIdConsistent(t: u8, id: u16) {
    if t == NOTIFICATION then IsEventId(id) else KnownType(t) && !IsEventId(id)
  }

  predicate ClientIdValid(h: Header) {
    !((h.messageType == REQUEST || h.messageType == REQUEST_NO_RETURN) && h.clientId == 0)
  }

  /** Bit 0 of the flags. */
  predicate HasAuth(h: Header) {
    h.flags % 2 == 1
  }
}

/** Service-discovery messages and their payloads (`include/sero/service/service_discovery.hpp`). */
module SdMessages {
  import opened Words
  import opened Wire

  const SD_OFFER_SERVICE: u16 := 1
  const SD_FIND_SERVICE: u16 := 2
  const SD_SUBSCRIBE_EVENT: u16 := 3
  const SD_SUBSCRIBE_ACK: u16 := 4
  const SD_UNSUBSCRIBE: u16 := 5

  datatype SdMessage =
    | OfferService(serviceId: u16, major: u8, minor: u8, ttl: u16, session: u16, provider: Address)
    | FindService(serviceId: u16)
    | SubscribeEvent(serviceId: u16, eventId: u16, ttl: u16)
    | SubscribeAck(serviceId: u16, eventId: u16, ttl: u16)
    | Unsubscribe(serviceId: u16, eventId: u16)

  function MethodOf(m: SdMessage): u16 {
    match m
    case OfferService(_, _, _, _, _, _) => SD_OFFER_SERVICE
    case FindService(_) => SD_FIND_SERVICE
    case SubscribeEvent(_, _, _) => SD_SUBSCRIBE_EVENT
    case SubscribeAck(_, _, _) => SD_SUBSCRIBE_ACK
    case Unsubscribe(_, _) => SD_UNSUBSCRIBE
  }

  function SubscribePayload(sid: u16, eid: u16, ttl: u16): Bytes {
    U16(sid) + U16(eid) + U16(ttl) + [0, 0]
  }

  function Payload(m: SdMessage): Bytes {
    match m
    case OfferService(sid, major, minor, ttl, session, provider) =>
      U16(sid) + [major, minor] + U16(ttl) + U16(session) + provider
    case FindService(sid) => U16(sid) + [0, 0]
    case SubscribeEvent(sid, eid, ttl) => SubscribePayload(sid, eid, ttl)
    case SubscribeAck(sid, eid, ttl) => SubscribePayload(sid, eid, ttl)
    case Unsubscribe(sid, eid) => SubscribePayload(sid, eid, 0)
  }

  /** What a receiver makes of a payload for a service-discovery method: `None` when the
      method is unknown or the payload is too short. Extra bytes are ignored. */
  function ParsePayload(methodId: u16, d: Bytes, addressSize: nat): Option<SdMessage> {
    if methodId == SD_OFFER_SERVICE then
      if |d| < 8 + addressSize then None
      else Some(OfferService(ReadU16(d, 0), d[2], d[3], ReadU16(d, 4), ReadU16(d, 6), d[8..8 + addressSize]))
    else if methodId == SD_FIND_SERVICE then
      if |d| < 4 then None else Some(FindService(ReadU16(d, 0)))
    else if methodId == SD_SUBSCRIBE_EVENT then
      if |d| < 8 then None else Some(SubscribeEvent(ReadU16(d, 0), ReadU16(d, 2), ReadU16(d, 4)))
    else if methodId == SD_SUBSCRIBE_ACK then
      if |d| < 8 then None else Some(SubscribeAck(ReadU16(d, 0), ReadU16(d, 2), ReadU16(d, 4)))
    else if methodId == SD_UNSUBSCRIBE then
      if |d| < 8 then None else Some(Unsubscribe(ReadU16(d, 0), ReadU16(d, 2)))
    else None
  }

  /** Which payloads say anything: those long enough for their method. What follows the fields
      is ignored. */
  lemma LongEnough(methodId: u16, d: Bytes, extra: Bytes, addressSize: nat)
    ensures ParsePayload(methodId, d, addressSize).Some?
       <==> (1 <= methodId <= 5 && |d| >= [8 + addressSize, 4, 8, 8, 8][methodId - 1])
    ensures ParsePayload(methodId, d, addressSize).Some? ==>
      ParsePayload(methodId, d + extra, addressSize) == ParsePayload(methodId, d, addressSize)
  {
    if methodId == 1 && |d| >= 8 + addressSize {
      assert (d + extra)[8..8 + addressSize] == d[8..8 + addressSize];
    }
  }

  /** Every service-discovery message survives the wire. */
  lemma PayloadRoundTrip(m: SdMessage, addressSize: nat)
    requires m.OfferService? ==> |m.provider| == addressSize
    ensures ParsePayload(MethodOf(m), Payload(m), addressSize) == Some(m)
  {
    hide U16, ReadU16;
    var d := Payload(m);
    assert d[0..2] == U16(m.serviceId);
    U16RoundTrip(m.serviceId, d, 0);
    match m
    case OfferService(sid, major, minor, ttl, session, provider) =>
      assert d[4..6] == U16(ttl) && d[6..8] == U16(session) && d[8..8 + addressSize] == provider;
      U16RoundTrip(ttl, d, 4);
      U16RoundTrip(session, d, 6);
    case FindService(sid) =>
    case SubscribeEvent(sid, eid, ttl) => SubscribeFields(sid, eid, ttl);
    case SubscribeAck(sid, eid, ttl) => SubscribeFields(sid, eid, ttl);
    case Unsubscribe(sid, eid) => SubscribeFields(sid, eid, 0);
  }

  lemma SubscribeFields(sid: u16, eid: u16, ttl: u16)
    ensures var d := SubscribePayload(sid, eid, ttl);
      |d| == 8 && ReadU16(d, 0) == sid && ReadU16(d, 2) == eid && ReadU16(d, 4) == ttl
  {
    var d := SubscribePayload(sid, eid, ttl);
    assert d[0..2] == U16(sid) && d[2..4] == U16(eid) && d[4..6] == U16(ttl);
    U16RoundTrip(sid, d, 0);
    U16RoundTrip(eid, d, 2);
    U16RoundTrip(ttl, d, 4);
  }

  /** The header of every service-discovery message; an acknowledgement carries its
      result in the return code. */
  function SdHeader(clientId: u16, m: SdMessage, returnCode: u8, sequence: u8): Header
    requires |Payload(m)| < TWO_32
  {
    Header(PROTOCOL_VERSION, REQUEST_NO_RETURN, returnCode, 0, SD_SERVICE_ID, MethodOf(m), clientId,
           sequence, 0, 0, |Payload(m)|)
  }

  /** Header and payload as handed to the transport helpers. */
  function SdBytes(clientId: u16, m: SdMessage, returnCode: u8, sequence: u8): Bytes
    requires |Payload(m)| < TWO_32
  {
    HeaderBytes(SdHeader(clientId, m, returnCode, sequence)) + Payload(m)
  }
}
