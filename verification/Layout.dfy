/** The bytes on the wire, one by one (sections 2, 3, 4.3, 9 and 10 of the protocol definition). Reader
and writer agree by the round trips; this is what they agree on. */
module Layout {
  import opened Words
  import opened Wire
  import opened SdMessages
  import opened Frame
  import opened DtcStore
  import opened Diagnostics
  import Crc16
  import Hmac
  import HmacSpec
  import Sha256Spec

  // -------------------------------------------------------------------------- header

  /** The 20 bytes of a header: every field at its offset, high byte first. */
  lemma HeaderLayout(h: Header)
    ensures HeaderBytes(h) == [
      h.version, h.messageType, h.returnCode, h.flags,
      h.serviceId / 256, h.serviceId % 256, h.methodEventId / 256, h.methodEventId % 256,
      h.clientId / 256, h.clientId % 256, h.sequenceCounter, h.reserved,
      h.requestId / 16777216, h.requestId / 65536 % 256, h.requestId / 256 % 256, h.requestId % 256,
      h.payloadLength / 16777216, h.payloadLength / 65536 % 256, h.payloadLength / 256 % 256, h.payloadLength % 256]
  {
    hide U32;
    U32Bytes(h.requestId);
    U32Bytes(h.payloadLength);
  }

  /** The header of a discovery message: version 1, REQUEST_NO_RETURN, service 0xFFFF, the method
      of the message, no flags and no request. */
  lemma SdHeaderIs(clientId: u16, m: SdMessage, result: u8, sequence: u8)
    requires |Payload(m)| < TWO_32
    ensures SdHeader(clientId, m, result, sequence)
         == Header(1, 1, result, 0, 65535,
                   match m {
                     case OfferService(_, _, _, _, _, _) => 1
                     case FindService(_) => 2
                     case SubscribeEvent(_, _, _) => 3
                     case SubscribeAck(_, _, _) => 4
                     case Unsubscribe(_, _) => 5
                   }, clientId, sequence, 0, 0, |Payload(m)|)
  {
  }

  /** The payloads of discovery messages. */
  lemma PayloadLayout(m: SdMessage)
    ensures Payload(m) ==
      match m {
        case OfferService(sid, major, minor, ttl, session, provider) =>
          [sid / 256, sid % 256, major, minor, ttl / 256, ttl % 256, session / 256, session % 256] + provider
        case FindService(sid) => [sid / 256, sid % 256, 0, 0]
        case SubscribeEvent(sid, eid, ttl) => [sid / 256, sid % 256, eid / 256, eid % 256, ttl / 256, ttl % 256, 0, 0]
        case SubscribeAck(sid, eid, ttl) => [sid / 256, sid % 256, eid / 256, eid % 256, ttl / 256, ttl % 256, 0, 0]
        case Unsubscribe(sid, eid) => [sid / 256, sid % 256, eid / 256, eid % 256, 0, 0, 0, 0]
      }
  {
  }

  // --------------------------------------------------------------------------- frame

  /** The leftmost 16 bytes of the HMAC of `text`, or zeros without a key. */
  function TagOrZeros(key: Option<Bytes>, text: Bytes): Bytes {
    match key
    case None => [0, 0, 0, 0, 0, 0, 0, 0, 0, 0, 0, 0, 0, 0, 0, 0]
    case Some(k) => HmacSpec.Hmac(k, text)[..16]
  }

  /** A frame is header, payload, tag and checksum. The tag is the HMAC, under the receiver's key,
      of the bytes before it; without a key it is zero. The checksum is that of everything
      before it, high byte first. */
  lemma FrameLayout(maxPayload: nat, keys: seq<Hmac.KeyEntry>, peer: Address, h: Header, payload: Bytes, auth: bool)
    requires |payload| <= maxPayload
    ensures var d := Build(maxPayload, keys, peer, h, payload, auth);
      var end := 20 + |payload| + (if auth then 16 else 0);
      && |d| == end + 2
      && d[..20] == HeaderBytes(h) && d[20..20 + |payload|] == payload
      && (d[end] as int) * 256 + d[end + 1] == Crc16.Crc(d[..end]) as int
      && (auth ==> d[20 + |payload|..end] == TagOrZeros(Hmac.Lookup(keys, peer), d[..20 + |payload|]))
  {
    hide HeaderBytes, Crc16.Crc, HmacSpec.Hmac, Hmac.Lookup, Crc16.HighByte, Crc16.LowByte;
    var t := TagBytes(keys, peer, h, payload, auth);
    var body := HeaderBytes(h) + payload + t;
    var d := Crc16.Sealed(body);
    assert d[..|body|] == body && d[..20 + |payload|] == HeaderBytes(h) + payload;
    TwoBytes(Crc16.Crc(body));
  }

  lemma TwoBytes(c: bv16)
    ensures (Crc16.HighByte(c) as int) * 256 + Crc16.LowByte(c) == c as int
  {
    BvHalves(c);
  }

  /** A receiver accepts a tag exactly when it holds a key for the sender and the tag is the HMAC,
      under that key, of all bytes before it. */
  lemma TagDecides(keys: seq<Hmac.KeyEntry>, peer: Address, h: Header, d: Bytes)
    requires |d| >= ExpectedSize(h) && HasAuth(h)
    ensures Hmac.Accepts(keys, peer, d[..20], PayloadOf(h, d), TagOf(h, d))
       <==> Hmac.Lookup(keys, peer).Some?
            && d[20 + h.payloadLength..36 + h.payloadLength]
               == HmacSpec.Hmac(Hmac.Lookup(keys, peer).value, d[..20 + h.payloadLength])[..16]
  {
    hide HmacSpec.Hmac, Hmac.Lookup;
    assert d[..20] + PayloadOf(h, d) == d[..20 + h.payloadLength];
  }

  /** HMAC-SHA-256 in the words of section 2 of RFC 2104, with its bytes 0x36 and 0x5C. */
  lemma HmacIs(key: Bytes, text: Bytes, k: Bytes, inner: Bytes, outer: Bytes)
    requires |k| == 64 && |inner| == 64 && |outer| == 64
    requires |key| > 64 ==> k[..32] == Sha256Spec.Digest(key) && forall i :: 32 <= i < 64 ==> k[i] == 0
    requires |key| <= 64 ==> k[..|key|] == key && forall i :: |key| <= i < 64 ==> k[i] == 0
    requires forall i :: 0 <= i < 64 ==> inner[i] == (Bv8(k[i]) ^ 0x36) as int && outer[i] == (Bv8(k[i]) ^ 0x5C) as int
    ensures HmacSpec.Hmac(key, text) == Sha256Spec.Digest(outer + Sha256Spec.Digest(inner + text))
  {
    hide Sha256Spec.Digest;
    assert HmacSpec.KeyBlock(key) == k;
    assert HmacSpec.XorPad(k, 0x36) == inner && HmacSpec.XorPad(k, 0x5C) == outer;
  }

  // --------------------------------------------------------------------- diagnostics

  /** One trouble code: 16 bytes. */
  lemma DtcLayout(d: Dtc)
    ensures DtcBytes(d) == [
      d.code / 256, d.code % 256, d.severity, if d.active then 1 else 0,
      d.occurrences / 16777216, d.occurrences / 65536 % 256, d.occurrences / 256 % 256, d.occurrences % 256,
      d.firstSeenMs / 16777216, d.firstSeenMs / 65536 % 256, d.firstSeenMs / 256 % 256, d.firstSeenMs % 256,
      d.lastSeenMs / 16777216, d.lastSeenMs / 65536 % 256, d.lastSeenMs / 256 % 256, d.lastSeenMs % 256]
  {
    hide U32;
    U32Bytes(d.occurrences);
    U32Bytes(d.firstSeenMs);
    U32Bytes(d.lastSeenMs);
  }

  /** One service: 6 bytes. */
  lemma ServiceLayout(s: Service)
    ensures ServiceBytes(s)
         == [s.serviceId / 256, s.serviceId % 256, s.major, s.minor, if s.authRequired then 1
           else 0, if s.ready then 1 else 0]
  {
  }

  /** The device information: 8 bytes. */
  lemma InfoLayout(clientId: u16, uptimeMs: u32)
    ensures EncodeInfo(clientId, uptimeMs, 8).0 == 0
    ensures EncodeInfo(clientId, uptimeMs, 8).1 == [
      clientId / 256, clientId % 256,
      uptimeMs / 16777216, uptimeMs / 65536 % 256, uptimeMs / 256 % 256, uptimeMs % 256, 1, 0]
  {
    hide U32;
    U32Bytes(uptimeMs);
    assert EncodeInfo(clientId, uptimeMs, 8).1 == U16(clientId) + U32(uptimeMs) + [1, 0];
  }

  /** The order of the nine counters. */
  lemma CounterOrder()
    ensures IndexOf(CrcErrors) == 0 && IndexOf(VersionMismatches) == 1 && IndexOf(OversizedPayloads) == 2
    ensures IndexOf(TypeIdMismatches) == 3 && IndexOf(DuplicateMessages) == 4 && IndexOf(StaleMessages) == 5
    ensures IndexOf(AuthFailures) == 6 && IndexOf(UnknownMessageTypes) == 7 && IndexOf(DroppedMessages) == 8
  {
  }

  /** The i-th counter stands in bytes 4 i to 4 i + 3 of the answer. */
  lemma CountersLayout(counters: Counters, i: nat)
    requires i < 9
    ensures var (rc, d) := EncodeCounters(counters, 36);
      && rc == 0 && |d| == 36
      && d[4 * i..4 * i + 4]
         == [counters[i] / 16777216, counters[i] / 65536 % 256, counters[i] / 256 % 256, counters[i] % 256]
  {
    hide U32;
    CounterListAt(counters, i);
    U32Bytes(counters[i]);
  }
}

/** Values the program's functions have on given inputs, computed by their definitions alone. */
module KnownAnswers {
  import opened Words
  import opened DiscoverySpec
  import opened Crc16

  /** The checksum of "123456789" is 0x29B1 (`test/test_crc16.cpp`). */
  lemma CrcOfDigits()
    ensures Crc([0x31, 0x32, 0x33, 0x34, 0x35, 0x36, 0x37, 0x38, 0x39]) == 0x29B1
  {
    hide Crc, Register, ByteBits, Shifts, High, Xor;
    CrcOfNothing();
    EightClocks();
    MoreClocks();
    var d: Bytes := [];
    OneByte(d, 0x31, 0xFFFF, 0xCEFF, 0xC782);
    var d1 := d + [0x31];
    OneByte(d1, 0x32, 0xC782, 0xF582, 0x3DBA);
    var d2 := d1 + [0x32];
    OneByte(d2, 0x33, 0x3DBA, 0x0EBA, 0x5BCE);
    var d3 := d2 + [0x33];
    OneByte(d3, 0x34, 0x5BCE, 0x6FCE, 0x5349);
    var d4 := d3 + [0x34];
    OneByte(d4, 0x35, 0x5349, 0x6649, 0x4560);
    var d5 := d4 + [0x35];
    OneByte(d5, 0x36, 0x4560, 0x7360, 0x2EF4);
    var d6 := d5 + [0x36];
    OneByte(d6, 0x37, 0x2EF4, 0x19F4, 0x7718);
    var d7 := d6 + [0x37];
    OneByte(d7, 0x38, 0x7718, 0x4F18, 0xA12B);
    var d8 := d7 + [0x38];
    OneByte(d8, 0x39, 0xA12B, 0x982B, 0x29B1);
    var d9 := d8 + [0x39];
    assert d9 == [0x31, 0x32, 0x33, 0x34, 0x35, 0x36, 0x37, 0x38, 0x39];
  }

  lemma CrcOfNothing()
    ensures Crc([]) == 0xFFFF
  {
  }

  lemma EightClocks()
    ensures Xor(0xFFFF, High(0x31)) == 0xCEFF && Shifts(0xCEFF, 8) == 0xC782
    ensures Xor(0xC782, High(0x32)) == 0xF582 && Shifts(0xF582, 8) == 0x3DBA
    ensures Xor(0x3DBA, High(0x33)) == 0x0EBA && Shifts(0x0EBA, 8) == 0x5BCE
    ensures Xor(0x5BCE, High(0x34)) == 0x6FCE && Shifts(0x6FCE, 8) == 0x5349
    ensures Xor(0x5349, High(0x35)) == 0x6649 && Shifts(0x6649, 8) == 0x4560
  {
  }

  lemma MoreClocks()
    ensures Xor(0x4560, High(0x36)) == 0x7360 && Shifts(0x7360, 8) == 0x2EF4
    ensures Xor(0x2EF4, High(0x37)) == 0x19F4 && Shifts(0x19F4, 8) == 0x7718
    ensures Xor(0x7718, High(0x38)) == 0x4F18 && Shifts(0x4F18, 8) == 0xA12B
    ensures Xor(0xA12B, High(0x39)) == 0x982B && Shifts(0x982B, 8) == 0x29B1
  {
  }

  lemma OneByte(data: Bytes, b: u8, c: bv16, x: bv16, c': bv16)
    requires Crc(data) == c && Xor(c, High(b)) == x && Shifts(x, 8) == c'
    ensures Crc(data + [b]) == c'
  {
    hide Crc, Register, ByteBits, Shifts, High, Xor;
    CrcSnoc(data, b);
    FeedByte(c, b);
  }

  /** The session identifier of service 0x1000 offered by client 7 at 123456 ms. */
  lemma SessionOf()
    ensures SessionId(7, 0x1000, 123456) == 48704
  {
    XorOf();
  }

  lemma XorOf()
    ensures Xor16(7, 1) == 6 && Xor16(0x1000, 57920) == 62016
  {
  }

  /** The jitter before the second retry of a search for service 0x1000 by client 7. */
  lemma JitterOf(cfg: SdConfig)
    requires cfg.clientId == 7 && cfg.findJitterMs == 50
    ensures Jitter(cfg, 0x1000, 2) == -25
  {
    hide Jitter;
    SeedOf();
    JitterIs(cfg, 0x1000, 2);
    Remainder(1013965682);
  }

  lemma SeedOf()
    ensures JitterSeed(7, 0x1000, 2) == 1013965682
  {
    hide Or16, Xor16, Wrap32;
    OrOf();
    DoubledConstant();
  }

  lemma DoubledConstant()
    ensures Wrap32(2 * 0x9E3779B9) == 1013904242 && 1013904242 / TWO_16 == 15470 && 1013904242 % TWO_16 == 62322
  {
  }

  lemma JitterIs(cfg: SdConfig, sid: u16, retry: u8)
    requires cfg.findJitterMs == 50
    ensures Jitter(cfg, sid, retry) == Wrap32(JitterSeed(cfg.clientId, sid, retry) * 1103515245 + 12345) % 101 - 50
  {
    hide JitterSeed, Wrap32;
  }

  lemma Remainder(x: nat)
    requires x == 1013965682
    ensures Wrap32(x * 1103515245 + 12345) == 2937897923 && 2937897923 % 101 == 25
  {
  }

  lemma OrOf()
    ensures Or16(7, 15470) == 15471 && Xor16(0x1000, 62322) == 58226
  {
  }
}
