/** Whole frames: how they are built and how a receiver validates them
(`build_message` and `validate_and_dispatch` in `include/sero/runtime.hpp`). */
module Frame {
  import opened Words
  import opened Wire
  import Crc16
  import Hmac

  const HMAC_SIZE: nat := 16
  const CRC_SIZE: nat := 2
  const MIN_MESSAGE_SIZE: nat := 22

  datatype Counter =
    | CrcErrors | VersionMismatches | OversizedPayloads | TypeIdMismatches | DuplicateMessages
    | StaleMessages | AuthFailures | UnknownMessageTypes | DroppedMessages

  function IndexOf(c: Counter): (i: nat)
    ensures i < 9
  {
    match c
    case CrcErrors => 0
    case VersionMismatches => 1
    case OversizedPayloads => 2
    case TypeIdMismatches => 3
    case DuplicateMessages => 4
    case StaleMessages => 5
    case AuthFailures => 6
    case UnknownMessageTypes => 7
    case DroppedMessages => 8
  }

  type Counters = s: seq<u32> | |s| == 9 witness seq(9, _ => 0)

  /** Counters saturate. */
  function Bump(counters: Counters, c: Counter): Counters {
    var i := IndexOf(c);
    if counters[i] < TWO_32 - 1 then counters[i := counters[i] + 1] else counters
  }

  // -------------------------------------------------------------------- building

  /** The bytes between payload and checksum: the tag when the frame is authenticated
      (zeros if there is no key for the peer), nothing otherwise. */
  function TagBytes(keys: seq<Hmac.KeyEntry>, peer: Address, h: Header, payload: Bytes, auth: bool): (t: Bytes)
    ensures |t| == if auth then HMAC_SIZE else 0
  {
    if !auth then []
    else match Hmac.Tag(keys, peer, HeaderBytes(h), payload)
      case None => seq(HMAC_SIZE, _ => 0)
      case Some(tag) => tag
  }

  /** The frame `build_message` leaves in the buffer; nothing at all for an oversized payload. */
  function Build(maxPayload: nat, keys: seq<Hmac.KeyEntry>, peer: Address, h: Header, payload: Bytes,
                 auth: bool): Bytes {
    if |payload| > maxPayload then []
    else Crc16.Sealed(HeaderBytes(h) + payload + TagBytes(keys, peer, h, payload, auth))
  }

  // ------------------------------------------------------------------ validation

  datatype Verdict = Rejected(counter: Counter) | Passed(header: Header)

  function ExpectedSize(h: Header): nat {
    HEADER_SIZE + h.payloadLength + (if HasAuth(h) then HMAC_SIZE else 0) + CRC_SIZE
  }

  /** The checks before the sequence counter, in the code's order. */
  function CheckFrame(maxPayload: nat, d: Bytes): Verdict {
    if |d| < MIN_MESSAGE_SIZE then Rejected(DroppedMessages)
    else if !Crc16.Valid(d) then Rejected(CrcErrors)
    else
      var h := ParseHeader(d);
      if h.version != PROTOCOL_VERSION then Rejected(VersionMismatches)
      else if h.payloadLength > maxPayload then Rejected(OversizedPayloads)
      else if |d| < ExpectedSize(h) then Rejected(DroppedMessages)
      else if !KnownType(h.messageType) then Rejected(UnknownMessageTypes)
      else if !TypeIdConsistent(h.messageType, h.methodEventId) then Rejected(TypeIdMismatches)
      else if !ClientIdValid(h) then Rejected(DroppedMessages)
      else Passed(h)
  }

  function PayloadOf(h: Header, d: Bytes): Bytes
    requires |d| >= ExpectedSize(h)
  {
    d[HEADER_SIZE..HEADER_SIZE + h.payloadLength]
  }

  function TagOf(h: Header, d: Bytes): Bytes
    requires |d| >= ExpectedSize(h) && HasAuth(h)
  {
    d[HEADER_SIZE + h.payloadLength..HEADER_SIZE + h.payloadLength + HMAC_SIZE]
  }

  lemma PassedFits(maxPayload: nat, d: Bytes)
    ensures CheckFrame(maxPayload, d).Passed? ==>
      |d| >= MIN_MESSAGE_SIZE && CheckFrame(maxPayload, d).header == ParseHeader(d)
        && |d| >= ExpectedSize(ParseHeader(d))
      && ParseHeader(d).payloadLength <= maxPayload
  {
  }

  // ------------------------------------------------ the order of the checks, stated apart

  /** Whether check number `k` fails on a frame long enough to look at. */
  predicate Fails(k: nat, maxPayload: nat, d: Bytes) {
    if k == 0 || |d| < MIN_MESSAGE_SIZE then k == 0 && |d| < MIN_MESSAGE_SIZE
    else
      var h := ParseHeader(d);
      if k == 1 then Crc16.Crc(d) != 0
      else if k == 2 then h.version != 1
      else if k == 3 then h.payloadLength > maxPayload
      else if k == 4 then |d| < 22 + h.payloadLength + (if h.flags % 2 == 1 then 16 else 0)
      else if k == 5 then h.messageType !in {0, 1, 2, 3, 0x80}
      else if k == 6 then (h.methodEventId >= 0x8000) != (h.messageType == NOTIFICATION)
      else k == 7 && h.messageType in {0, 1} && h.clientId == 0
  }

  function CounterOf(k: nat): Counter
    requires k < 8
  {
    [DroppedMessages, CrcErrors, VersionMismatches, OversizedPayloads, DroppedMessages,
     UnknownMessageTypes, TypeIdMismatches, DroppedMessages][k]
  }

  /** A frame is rejected by its first failing check, and passes when none fails. */
  lemma FirstFailureDecides(maxPayload: nat, d: Bytes, k: nat)
    requires k < 8 && Fails(k, maxPayload, d) && forall j :: 0 <= j < k ==> !Fails(j, maxPayload, d)
    ensures CheckFrame(maxPayload, d) == Rejected(CounterOf(k))
  {
    hide ParseHeader, Crc16.Crc;
    assert 0 < k ==> !Fails(0, maxPayload, d);
    assert 1 < k ==> !Fails(1, maxPayload, d);
    assert 2 < k ==> !Fails(2, maxPayload, d);
    assert 3 < k ==> !Fails(3, maxPayload, d);
    assert 4 < k ==> !Fails(4, maxPayload, d);
    assert 5 < k ==> !Fails(5, maxPayload, d);
    assert 6 < k ==> !Fails(6, maxPayload, d);
  }

  lemma NoFailurePasses(maxPayload: nat, d: Bytes)
    ensures CheckFrame(maxPayload, d).Passed? <==> forall k :: 0 <= k < 8 ==> !Fails(k, maxPayload, d)
  {
    hide ParseHeader, Crc16.Crc;
    if CheckFrame(maxPayload, d).Passed? {
      forall k | 0 <= k < 8
        ensures !Fails(k, maxPayload, d)
      {
      }
    } else {
      var k := FailingCheck(maxPayload, d);
    }
  }

  lemma FailingCheck(maxPayload: nat, d: Bytes) returns (k: nat)
    requires CheckFrame(maxPayload, d).Rejected?
    ensures k < 8 && Fails(k, maxPayload, d)
  {
    hide ParseHeader, Crc16.Crc;
    k := if Fails(0, maxPayload, d) then 0 else if Fails(1, maxPayload, d) then 1 else if Fails(2, maxPayload, d) then 2
         else if Fails(3, maxPayload, d) then 3 else if Fails(4, maxPayload, d) then 4
         else if Fails(5, maxPayload, d) then 5
         else if Fails(6, maxPayload, d) then 6 else 7;
  }

  // -------------------------------------------------------------------- round trip

  /** What the callers of `build_message` put into a header. */
  ghost predicate WellFormed(h: Header, payload: Bytes, auth: bool) {
    && h.version == PROTOCOL_VERSION && KnownType(h.messageType)
    && TypeIdConsistent(h.messageType, h.methodEventId) && ClientIdValid(h)
    && h.payloadLength == |payload| && (HasAuth(h) <==> auth)
  }

  /** Every frame built from a well-formed header and a payload within the limit passes all
      checks before the sequence counter, and the receiver sees the identical header,
      payload and tag. */
  lemma BuildRoundTrip(maxPayload: nat, keys: seq<Hmac.KeyEntry>, peer: Address, h: Header, payload: Bytes, auth: bool)
    requires WellFormed(h, payload, auth) && |payload| <= maxPayload
    ensures var d := Build(maxPayload, keys, peer, h, payload, auth);
      && CheckFrame(maxPayload, d) == Passed(h)
      && |d| == ExpectedSize(h)
      && d[..HEADER_SIZE] == HeaderBytes(h)
      && PayloadOf(h, d) == payload
      && (auth ==> TagOf(h, d) == TagBytes(keys, peer, h, payload, auth))
  {
    hide HeaderBytes, ParseHeader, Crc16.Crc, Crc16.HighByte, Crc16.LowByte, TagBytes, Hmac.Tag;
    var t := TagBytes(keys, peer, h, payload, auth);
    var body := HeaderBytes(h) + payload + t;
    var d := Crc16.Sealed(body);
    Crc16.SealedIsValid(body);
    assert d == HeaderBytes(h) + (payload + t + d[|body|..]);
    HeaderRoundTrip(h, payload + t + d[|body|..]);
  }

  /** The receiver's table accepts the tag when both sides hold the same key. */
  lemma TagAccepted(senderKeys: seq<Hmac.KeyEntry>, receiverKeys: seq<Hmac.KeyEntry>, from: Address, to: Address,
                    h: Header, payload: Bytes)
    requires Hmac.Lookup(senderKeys, to).Some? && Hmac.Lookup(senderKeys, to) == Hmac.Lookup(receiverKeys, from)
    ensures Hmac.Accepts(receiverKeys, from, HeaderBytes(h), payload, TagBytes(senderKeys, to, h, payload, true))
  {
  }
}
