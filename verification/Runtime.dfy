/** The runtime coordinator (`include/sero/runtime.hpp`): one object that drives the tables in
place, proved to do what `Node` says. `wire` and `app` record what went to the transport
and to the application. */
module Runtime {
  import opened Words
  import opened Wire
  import opened SdMessages
  import opened DiscoverySpec
  import opened Frame
  import opened Node
  import Discovery
  import Crc16
  import Hmac
  import E2E = E2EProtection
  import EM = EventManager
  import RT = RequestTracker

  class Runtime {
    const cfg: NodeConfig
    const sd: Discovery.ServiceDiscovery
    const events: EM.EventManager
    const requests: RT.RequestTracker
    const e2e: E2E.E2EProtection
    const auth: Hmac.MessageAuthenticator
    const crcTable: array<bv16>
    const txBuffer: array<u8>
    var services: map<u16, ServiceInfo>
    var eventHandlers: set<(u16, u16)>
    var sdSeq: u8
    var counters: Counters
    var wire: seq<Packet>
    var app: seq<AppEvent>

    ghost predicate Valid()
      reads this, sd, events, e2e, e2e.peers, auth, auth.keys, crcTable
    {
      && sd.Valid() && events.Valid() && e2e.Valid() && auth.Valid()
      && sd.cfg == cfg.sd && events.limits == cfg.limits
      && e2e.window == cfg.window && e2e.peers.Length == cfg.maxTrackedPeers
      && txBuffer.Length == MaxMessageSize(cfg)
      && TableBuilt()
      && Apart()
    }

    /** The checksum table is no other table's storage. */
    ghost predicate Apart() {
      crcTable as object !in {txBuffer as object, e2e.peers, auth.keys, sd.providers, sd.consumers, sd.trackers,
                              events.events, requests.entries}
    }

    ghost predicate TableBuilt()
      reads crcTable
    {
      Crc16.IsTable(crcTable[..])
    }

    ghost function State(): NodeState
      requires Valid()
      reads this, sd, sd.providers, sd.consumers, sd.trackers, events, events.events, requests, requests.entries,
            e2e, e2e.peers, auth, auth.keys, crcTable
    {
      NodeState(sd.State(), events.Events(), requests.Table(), e2e.Peers(), e2e.txSeq, sdSeq, counters, wire, app)
    }

    ghost function SetupNow(): Setup
      requires Valid()
      reads this, sd, events, e2e, e2e.peers, auth, auth.keys, crcTable
    {
      Setup(auth.Entries(), services, eventHandlers)
    }

    /** Nothing is known, pending or sent. */
    ghost predicate Blank(slots: nat)
      requires Valid()
      reads this, sd, sd.providers, sd.consumers, sd.trackers, events, events.events, requests, requests.entries,
            e2e, e2e.peers, auth, auth.keys, crcTable
    {
      && State() == NodeState(Sd([], [], [], []), [], RT.Requests(seq(slots, _ => RT.FREE), 1), [], 0, 0,
                              seq(9, _ => 0), [], [])
      && SetupNow() == Setup([], map[], {})
    }

    constructor (cfg: NodeConfig, maxPendingRequests: nat, hmacKeySize: nat)
      requires ValidConfig(cfg.sd) && hmacKeySize < Hmac.MAX_TEXT
      ensures Valid() && this.cfg == cfg && Blank(maxPendingRequests)
    {
      hide *;
      this.cfg := cfg;
      sd := new Discovery.ServiceDiscovery(cfg.sd);
      events := new EM.EventManager(cfg.limits);
      requests := new RT.RequestTracker(maxPendingRequests);
      e2e := new E2E.E2EProtection(cfg.maxTrackedPeers, cfg.window);
      auth := new Hmac.MessageAuthenticator(cfg.maxTrackedPeers, hmacKeySize);
      var table := Crc16.BuildTable();
      crcTable := table;
      txBuffer := new u8[MaxMessageSize(cfg)](_ => 0);
      services, eventHandlers, sdSeq, counters, wire, app := map[], {}, 0, seq(9, _ => 0), [], [];
      new;
      Assembled(maxPendingRequests);
    }

    lemma Assembled(slots: nat)
      requires sd.Valid() && events.Valid() && e2e.Valid() && auth.Valid()
      requires sd.cfg == cfg.sd && events.limits == cfg.limits && e2e.window == cfg.window
        && e2e.peers.Length == cfg.maxTrackedPeers
      requires txBuffer.Length == MaxMessageSize(cfg) && Crc16.IsTable(crcTable[..])
      requires crcTable as object !in {txBuffer as object, e2e.peers, auth.keys, sd.providers, sd.consumers,
                                       sd.trackers, events.events, requests.entries}
      requires sd.State() == Sd([], [], [], []) && events.Events() == []
        && requests.Table() == RT.Requests(seq(slots, _ => RT.FREE), 1)
      requires e2e.Peers() == [] && e2e.txSeq == 0 && auth.Entries() == []
      requires services == map[] && eventHandlers == {} && sdSeq == 0 && counters == seq(9, _ => 0) && wire == []
        && app == []
      ensures Valid() && Blank(slots)
    {
    }

    /** `set_local_address`: what the device's offers carry. */
    method SetLocalAddress(addr: Address)
      requires Valid()
      modifies sd`localAddr
      ensures Valid() && SetupNow() == old(SetupNow())
      ensures State() == old(State()).(sd := old(State()).sd.(localAddr := addr))
    {
      sd.SetLocalAddress(addr);
    }

    // ----------------------------------------------------------- the transmit buffer

    /** Copies `bytes` to position `at`. */
    method CopyToBuffer(bytes: Bytes, at: nat)
      requires at + |bytes| <= txBuffer.Length
      modifies txBuffer
      ensures txBuffer[at..at + |bytes|] == bytes
      ensures txBuffer[..at] == old(txBuffer[..at])
    {
      for i := 0 to |bytes|
        invariant forall k :: 0 <= k < i ==> txBuffer[at + k] == bytes[k]
        invariant forall k :: 0 <= k < at ==> txBuffer[k] == old(txBuffer[k])
      {
        txBuffer[at + i] := bytes[i];
      }
    }

    /** `build_message`: header, payload, tag and checksum, in the transmit buffer. */
    method BuildMessage(h: Header, payload: Bytes, authenticate: bool, peer: Address) returns (total: nat)
      requires Valid()
      modifies txBuffer
      ensures Valid() && SetupNow() == old(SetupNow()) && State() == old(State()) && total <= txBuffer.Length
      ensures txBuffer[..total] == Build(cfg.maxPayloadSize, SetupNow().keys, peer, h, payload, authenticate)
    {
      hide HeaderBytes, Crc16.Sealed, Crc16.IsTable, Hmac.Tag, Hmac.Lookup;
      if |payload| > cfg.maxPayloadSize {
        return 0;
      }
      SerializeHeader(h, txBuffer);
      CopyToBuffer(payload, HEADER_SIZE);
      var offset := HEADER_SIZE + |payload|;
      assert txBuffer[..offset] == HeaderBytes(h) + payload by {
        assert txBuffer[..offset] == txBuffer[..HEADER_SIZE] + txBuffer[HEADER_SIZE..offset];
      }
      if authenticate {
        var tag := MessageTag(h, payload, peer);
        CopyToBuffer(tag, offset);
        assert txBuffer[..offset + HMAC_SIZE] == txBuffer[..offset] + txBuffer[offset..offset + HMAC_SIZE];
        offset := offset + HMAC_SIZE;
      }
      assert txBuffer[..offset] == HeaderBytes(h) + payload + TagBytes(auth.Entries(), peer, h, payload, authenticate);
      Crc16.Append(crcTable, txBuffer, offset);
      return offset + CRC_SIZE;
    }

    /** The tag, or zeros when there is no key for the peer. */
    method MessageTag(h: Header, payload: Bytes, peer: Address) returns (tag: Bytes)
      requires Valid() && |payload| < TWO_32
      ensures tag == TagBytes(auth.Entries(), peer, h, payload, true)
    {
      hide HeaderBytes, Hmac.Tag, Hmac.Lookup;
      var out := new u8[HMAC_SIZE](_ => 0);
      var ok := auth.Compute(HeaderBytes(h), payload, peer, out);
      tag := out[..];
    }

    // --------------------------------------------------------------------- sending

    /** Hands the first `length` bytes of the buffer to the transport. */
    method Send(dest: Option<Address>, length: nat) returns (ok: bool)
      requires Valid() && length <= txBuffer.Length
      modifies this`wire
      ensures Valid() && ok == cfg.linkUp(|old(wire)|)
      ensures SetupNow() == old(SetupNow()) && ok == cfg.linkUp(|old(State()).wire|)
      ensures State() == old(State()).(wire := old(State()).wire + [Packet(dest, txBuffer[..length], ok)])
    {
      ok := cfg.linkUp(|wire|);
      wire := wire + [Packet(dest, txBuffer[..length], ok)];
    }

    method Increment(c: Counter)
      requires Valid()
      modifies this`counters
      ensures Valid() && SetupNow() == old(SetupNow())
        && State() == old(State()).(counters := Bump(old(State()).counters, c))
    {
      var i := IndexOf(c);
      if counters[i] < TWO_32 - 1 {
        counters := counters[i := counters[i] + 1];
      }
    }

    method Transmitted(dest: Option<Address>, length: nat)
      requires Valid() && length <= txBuffer.Length
      modifies this`wire, this`counters
      ensures Valid() && SetupNow() == old(SetupNow())
        && State() == Transmit(cfg, old(State()), dest, txBuffer[..length])
    {
      var ok := Send(dest, length);
      if !ok {
        Increment(DroppedMessages);
      }
    }

    /** `send_sd_broadcast` and `send_sd_unicast`. */
    method SendSdMessage(dest: Option<Address>, m: SdMessage, result: u8)
      requires Valid()
      modifies this`wire, this`counters, this`sdSeq, txBuffer
      ensures Valid() && State() == SendSd(cfg, old(State()), dest, m, result)
    {
      hide Payload, SdFrame;
      if (m.OfferService? && |m.provider| >= TWO_16) || HEADER_SIZE + |Payload(m)| + CRC_SIZE > txBuffer.Length {
        return;
      }
      var length := WriteSdMessage(m, result);
      Transmitted(dest, length);
    }

    /** The message comes with sequence byte zero and gets the counter of its own at
        position 10, then the checksum. */
    method WriteSdMessage(m: SdMessage, result: u8) returns (length: nat)
      requires Valid() && ShortAddress(m) && HEADER_SIZE + |Payload(m)| + CRC_SIZE <= txBuffer.Length
      modifies this`sdSeq, txBuffer
      ensures Valid() && SetupNow() == old(SetupNow())
        && State() == old(State()).(sdSeq := (old(State()).sdSeq + 1) % 256)
      ensures length <= txBuffer.Length && txBuffer[..length] == SdFrame(cfg.sd.clientId, m, result, old(State()).sdSeq)
    {
      hide HeaderBytes, Payload, Crc16.Sealed, Crc16.IsTable, State;
      SdLength(m);
      var message := SdBytes(cfg.sd.clientId, m, result, 0);
      length := |message|;
      SequencePatched(cfg.sd.clientId, m, result, sdSeq);
      CopyToBuffer(message, 0);
      PatchByte(message);
      Crc16.Append(crcTable, txBuffer, length);
      StampTaken();
      length := length + CRC_SIZE;
    }

    method PatchByte(message: Bytes)
      requires 10 < |message| <= txBuffer.Length && txBuffer[..|message|] == message
      modifies txBuffer
      ensures txBuffer[..|message|] == message[10 := sdSeq]
    {
      txBuffer[10] := sdSeq;
    }

    method StampTaken()
      requires Valid()
      modifies this`sdSeq
      ensures Valid() && SetupNow() == old(SetupNow())
        && State() == old(State()).(sdSeq := (old(State()).sdSeq + 1) % 256)
      ensures old(sdSeq) == old(State()).sdSeq
    {
      sdSeq := (sdSeq + 1) % 256;
    }

    /** Carries out what discovery hands out. */
    method CarryOut(out: seq<Output>)
      requires Valid()
      modifies this`wire, this`counters, this`sdSeq, this`app, txBuffer, e2e, e2e.peers
      ensures Valid() && State() == CarryAll(cfg, old(State()), out)
    {
      hide Carry, State;
      assert out[..0] == [];
      for i := 0 to |out|
        invariant Valid() && State() == CarryAll(cfg, old(State()), out[..i])
      {
        CarryOne(out[i]);
        assert out[..i + 1][..i] == out[..i];
      }
      assert out[..|out|] == out;
    }

    method CarryOne(o: Output)
      requires Valid()
      modifies this`wire, this`counters, this`sdSeq, this`app, txBuffer, e2e, e2e.peers
      ensures Valid() && State() == Carry(cfg, old(State()), o)
    {
      hide SendSd, E2E.ResetPeer;
      match o {
        case Broadcast(m) => SendSdMessage(None, m, 0);
        case Unicast(dest, m) => SendSdMessage(Some(dest), m, 0);
        case PeerExpired(addr) => e2e.ResetPeerState(addr);
        case _ => app := app + [Discovered(o)];
      }
    }

    // -------------------------------------------------------------------- handlers

    /** The requests that left their table call back, when they can. */
    method CallBack(done: seq<RT.Completion>)
      requires Valid()
      modifies this`app
      ensures Valid() && SetupNow() == old(SetupNow()) && State() == old(State()).(app := old(app) + Completions(done))
    {
      hide State;
      assert done[..0] == [];
      for i := 0 to |done|
        invariant Valid() && app == old(app) + Completions(done[..i])
      {
        if done[i].entry.callback.Some? {
          app := app + [RequestDone(done[i])];
        }
        assert done[..i + 1][..i] == done[..i];
      }
      assert done[..|done|] == done;
      AppOnly(old(app) + Completions(done));
    }

    /** Only the application log differs. */
    twostate lemma AppOnly(app': seq<AppEvent>)
      requires old(Valid()) && Valid() && app == app'
        && unchanged(this`services, this`eventHandlers, this`sdSeq, this`counters, this`wire)
      requires unchanged(sd, sd.providers, sd.consumers, sd.trackers, events, events.events, requests,
                         requests.entries, e2e, e2e.peers)
      ensures State() == old(State()).(app := app')
    {
    }

    /** `handle_subscribe_request`. */
    method HandleSubscribeRequest(source: Address, client: u16, sid: u16, eid: u16, ttl: u16, now: u32)
      requires Valid()
      modifies this`wire, this`counters, this`sdSeq, txBuffer, events.events
      ensures Valid() && SetupNow() == old(SetupNow())
        && State() == SubscribeRequest(cfg, old(State()), source, client, sid, eid, ttl, now)
    {
      hide EM.Subscribe, SdFrame, State, Valid, SetupNow;
      var r := EnterSubscriber(sid, eid, client, source, ttl, now);
      var granted: u16 := 0;
      if r.Accepted? {
        granted := if ttl > 0 then ttl else cfg.limits.defaultTtl;
      }
      AckLength(sid, eid, granted);
      RoomForAck();
      var length := WriteSdMessage(SubscribeAck(sid, eid, granted), if r.Accepted? then E_OK else E_NOT_OK);
      Transmitted(Some(source), length);
    }

    lemma RoomForAck()
      requires Valid()
      ensures HEADER_SIZE + 8 + CRC_SIZE <= txBuffer.Length
    {
    }

    method EnterSubscriber(sid: u16, eid: u16, client: u16, source: Address, ttl: u16, now: u32)
        returns (r: EM.SubscribeResult)
      requires Valid()
      modifies events.events
      ensures Valid() && SetupNow() == old(SetupNow())
      ensures State() == old(State()).(events := EM.Subscribe(old(State()).events, cfg.limits, sid, eid, client,
                                                              source, ttl, now).0)
      ensures r == EM.Subscribe(old(State()).events, cfg.limits, sid, eid, client, source, ttl, now).1
    {
      hide EM.Subscribe;
      r := events.SubscribeClient(sid, eid, client, source, ttl, now);
    }

    /** One discovery step and its outputs. */
    method SdOffer(sid: u16, major: u8, ttl: u16, session: u16, provider: Address, now: u32)
      requires Valid()
      modifies this`wire, this`counters, this`sdSeq, this`app, txBuffer, e2e, e2e.peers, sd.consumers, sd.trackers
      ensures Valid() && SetupNow() == old(SetupNow())
        && State() == SdStep(cfg, old(State()), RxOffer(sid, major, ttl, session, provider), now)
    {
      hide Step, CarryAll;
      var out := sd.OnOffer(sid, major, ttl, session, provider, now);
      CarryOut(out);
    }

    method SdFind(sid: u16, source: Address, now: u32)
      requires Valid()
      modifies this`wire, this`counters, this`sdSeq, this`app, txBuffer, e2e, e2e.peers
      ensures Valid() && SetupNow() == old(SetupNow()) && State() == SdStep(cfg, old(State()), RxFind(sid, source), now)
    {
      hide FindReplies, CarryAll;
      var out := sd.OnFind(sid, source);
      CarryOut(out);
    }

    method SdAck(sid: u16, eid: u16, result: u8, ttl: u16, now: u32)
      requires Valid()
      modifies this`wire, this`counters, this`sdSeq, this`app, txBuffer, e2e, e2e.peers, sd.trackers
      ensures Valid() && SetupNow() == old(SetupNow())
        && State() == SdStep(cfg, old(State()), RxAck(sid, eid, result, ttl), now)
    {
      hide HandleAck, CarryAll;
      var out := sd.OnAck(sid, eid, result, ttl);
      CarryOut(out);
    }

    /** `handle_sd_message`. */
    method HandleSdMessage(source: Address, h: Header, payload: Bytes, now: u32)
      requires Valid()
      modifies this`wire, this`counters, this`sdSeq, this`app, txBuffer, e2e, e2e.peers, sd.consumers, sd.trackers,
        events.events
      ensures Valid() && SetupNow() == old(SetupNow())
        && State() == HandleSd(cfg, old(State()), source, h, payload, now)
    {
      hide SdStep, SubscribeRequest, ParsePayload, E2E.ResetPeer, EM.Unsubscribe, State, Valid, SetupNow;
      match ParsePayload(h.methodEventId, payload, cfg.addressSize) {
        case None =>
        case Some(OfferService(sid, major, minor, ttl, session, provider)) =>
          var reboot := RebootOf(sid, session);
          if reboot {
            ForgetSequence(provider);
          }
          SdOffer(sid, major, ttl, session, provider, now);
        case Some(FindService(sid)) =>
          ForgetSequence(source);
          SdFind(sid, source, now);
        case Some(SubscribeEvent(sid, eid, ttl)) =>
          HandleSubscribeRequest(source, h.clientId, sid, eid, ttl, now);
        case Some(SubscribeAck(sid, eid, ttl)) =>
          SdAck(sid, eid, h.returnCode, ttl, now);
        case Some(Unsubscribe(sid, eid)) =>
          DropSubscriber(sid, eid, h.clientId);
      }
    }

    method RebootOf(sid: u16, session: u16) returns (reboot: bool)
      requires Valid()
      ensures reboot == DetectReboot(State().sd.consumers, sid, session)
    {
      reboot := sd.DetectProviderReboot(sid, session);
    }

    method ForgetSequence(peer: Address)
      requires Valid()
      modifies e2e, e2e.peers
      ensures Valid() && SetupNow() == old(SetupNow())
        && State() == old(State()).(peers := E2E.ResetPeer(old(State()).peers, peer))
    {
      hide E2E.ResetPeer;
      e2e.ResetPeerState(peer);
    }

    method DropSubscriber(sid: u16, eid: u16, client: u16)
      requires Valid()
      modifies events.events
      ensures Valid() && SetupNow() == old(SetupNow())
        && State() == old(State()).(events := EM.Unsubscribe(old(State()).events, sid, eid, client))
    {
      hide EM.Unsubscribe;
      events.UnsubscribeClient(sid, eid, client);
    }

    /** `handle_request`. */
    method HandleServiceRequest(source: Address, h: Header, payload: Bytes)
      requires Valid()
      modifies this`wire, this`counters, this`app, txBuffer, e2e
      ensures Valid() && SetupNow() == old(SetupNow())
        && State() == HandleRequest(cfg, old(SetupNow()), old(State()), source, h, payload)
    {
      hide *;
      var (rc, response, invoked) := Answered(h, payload);
      if invoked {
        Tell(Invoked(h.serviceId, h.methodEventId, payload));
      }
      SendAnswer(source, h, rc, response);
      RequestAnsweredIs(cfg, old(SetupNow()), old(State()), source, h, payload);
    }

    /** What the dispatcher answers. */
    function Answered(h: Header, payload: Bytes): (r: (u8, Bytes, bool))
      requires Valid()
      reads this, sd, events, e2e, e2e.peers, auth, auth.keys, crcTable
      ensures r == Answer(cfg, SetupNow(), h, payload) && |r.1| <= cfg.maxPayloadSize
    {
      AnswerSetup(cfg, Setup([], services, {}), SetupNow(), h, payload);
      Answer(cfg, Setup([], services, {}), h, payload)
    }

    method SendAnswer(source: Address, h: Header, rc: u8, response: Bytes)
      requires Valid() && |response| <= cfg.maxPayloadSize
      modifies this`wire, this`counters, txBuffer, e2e
      ensures Valid() && SetupNow() == old(SetupNow())
      ensures var n := old(State());
        var auth := Hmac.Lookup(SetupNow().keys, source).Some?;
        State() == Transmit(cfg, n.(txSeq := (n.txSeq + 1) % 256), Some(source),
          Build(cfg.maxPayloadSize, SetupNow().keys, source, ResponseHeader(h, rc, auth, n.txSeq, |response|),
                response, auth))
    {
      hide Build, Transmit, Hmac.Lookup, State, Valid, SetupNow, ResponseHeader;
      var authenticate := HoldsKey(source);
      var sequence := Stamp();
      var total := BuildMessage(ResponseHeader(h, rc, authenticate, sequence, |response|), response, authenticate,
                                source);
      Transmitted(Some(source), total);
    }

    method Tell(e: AppEvent)
      requires Valid()
      modifies this`app
      ensures Valid() && SetupNow() == old(SetupNow()) && State() == old(State()).(app := old(State()).app + [e])
    {
      app := app + [e];
    }

    /** `should_auth_outgoing`. */
    method HoldsKey(peer: Address) returns (has: bool)
      requires Valid()
      ensures has <==> Hmac.Lookup(SetupNow().keys, peer).Some?
    {
      has := auth.HasKey(peer);
    }

    method Stamp() returns (sequence: u8)
      requires Valid()
      modifies e2e`txSeq
      ensures Valid() && SetupNow() == old(SetupNow())
      ensures sequence == old(State()).txSeq && State() == old(State()).(txSeq := (old(State()).txSeq + 1) % 256)
    {
      sequence := e2e.NextSequence();
    }

    /** `handle_fire_and_forget`. */
    method HandleOneWay(h: Header, payload: Bytes)
      requires Valid()
      modifies this`counters, this`app
      ensures Valid() && SetupNow() == old(SetupNow())
        && State() == HandleFireAndForget(SetupNow(), old(State()), h, payload)
    {
      if h.serviceId !in services {
        Increment(DroppedMessages);
      } else if services[h.serviceId].ready {
        app := app + [Invoked(h.serviceId, h.methodEventId, payload)];
      }
    }

    /** `handle_response` and `handle_error`. */
    method HandleCompletion(id: u32, rc: u8, payload: Bytes)
      requires Valid()
      modifies this`app, requests.entries
      ensures Valid() && SetupNow() == old(SetupNow()) && State() == CompleteRequest(old(State()), id, rc, payload)
    {
      hide RT.CompleteIn, Completions;
      var done := requests.Complete(id, rc, payload);
      CallBack(done);
    }

    /** `dispatch_message`. */
    method DispatchMessage(source: Address, h: Header, payload: Bytes, now: u32)
      requires Valid()
      modifies this`wire, this`counters, this`sdSeq, this`app, txBuffer, e2e, e2e.peers, sd.consumers, sd.trackers,
        events.events, requests.entries
      ensures Valid() && SetupNow() == old(SetupNow())
        && State() == Dispatch(cfg, old(SetupNow()), old(State()), source, h, payload, now)
    {
      hide HandleSd, HandleRequest, HandleFireAndForget, CompleteRequest;
      if h.serviceId == SD_SERVICE_ID {
        HandleSdMessage(source, h, payload, now);
      } else if h.messageType == REQUEST {
        HandleServiceRequest(source, h, payload);
      } else if h.messageType == REQUEST_NO_RETURN {
        HandleOneWay(h, payload);
      } else if h.messageType == RESPONSE || h.messageType == ERROR {
        HandleCompletion(h.requestId, h.returnCode, payload);
      } else if h.messageType == NOTIFICATION && (h.serviceId, h.methodEventId) in eventHandlers {
        app := app + [Notified(h.serviceId, h.methodEventId, payload)];
      }
    }

    // ------------------------------------------------------------------- receiving

    /** Steps 1 to 7 of `validate_and_dispatch`, in the code's order. */
    method Validate(data: array<u8>) returns (v: Verdict)
      requires Valid()
      ensures v == CheckFrame(cfg.maxPayloadSize, data[..])
    {
      hide ParseHeader, Crc16.Valid, Crc16.IsTable;
      if data.Length < MIN_MESSAGE_SIZE {
        return Rejected(DroppedMessages);
      }
      assert data[..data.Length] == data[..];
      var intact := Crc16.Verify(crcTable, data, data.Length);
      if !intact {
        return Rejected(CrcErrors);
      }
      var h := ParseHeader(data[..]);
      if h.version != PROTOCOL_VERSION {
        return Rejected(VersionMismatches);
      }
      if h.payloadLength > cfg.maxPayloadSize {
        return Rejected(OversizedPayloads);
      }
      var expected := HEADER_SIZE + h.payloadLength + (if HasAuth(h) then HMAC_SIZE else 0) + CRC_SIZE;
      if data.Length < expected {
        return Rejected(DroppedMessages);
      }
      if !KnownType(h.messageType) {
        return Rejected(UnknownMessageTypes);
      }
      if !TypeIdConsistent(h.messageType, h.methodEventId) {
        return Rejected(TypeIdMismatches);
      }
      if !ClientIdValid(h) {
        return Rejected(DroppedMessages);
      }
      return Passed(h);
    }

    /** Step 8: the sequence counter; discovery messages are exempt. */
    method CheckSequence(source: Address, h: Header) returns (goesOn: bool)
      requires Valid()
      modifies this`counters, e2e, e2e.peers
      ensures Valid() && SetupNow() == old(SetupNow())
        && (State(), goesOn) == SequenceCheck(cfg, old(State()), source, h)
    {
      hide E2E.Validate;
      if h.serviceId == SD_SERVICE_ID {
        return true;
      }
      var r := e2e.ValidateSequence(source, h.sequenceCounter);
      match r {
        case Duplicate =>
          Increment(DuplicateMessages);
          return false;
        case Stale =>
          Increment(StaleMessages);
          return false;
        case TableFull =>
          Increment(DroppedMessages);
          return true;
        case _ =>
          return true;
      }
    }

    /** Step 9: the tag, or the policy for frames without one. */
    method CheckAuth(source: Address, h: Header, data: array<u8>) returns (ok: bool)
      requires Valid() && data.Length >= ExpectedSize(h) && h.payloadLength < TWO_32
      ensures ok == Authentic(SetupNow(), source, h, data[..])
    {
      hide Hmac.Accepts;
      if HasAuth(h) {
        ok := auth.Verify(data[..HEADER_SIZE], data[HEADER_SIZE..HEADER_SIZE + h.payloadLength], source,
                          data[HEADER_SIZE + h.payloadLength..HEADER_SIZE + h.payloadLength + HMAC_SIZE]);
        assert data[..][..HEADER_SIZE] == data[..HEADER_SIZE];
        assert data[..][HEADER_SIZE..HEADER_SIZE + h.payloadLength] == data[HEADER_SIZE..HEADER_SIZE + h.payloadLength];
        assert data[..][HEADER_SIZE + h.payloadLength..HEADER_SIZE + h.payloadLength + HMAC_SIZE]
            == data[HEADER_SIZE + h.payloadLength..HEADER_SIZE + h.payloadLength + HMAC_SIZE];
      } else {
        ok := !(h.serviceId != SD_SERVICE_ID && h.serviceId in services && services[h.serviceId].authRequired);
      }
    }

    /** `validate_and_dispatch` on a frame in the transport's receive buffer. */
    method ValidateAndDispatch(source: Address, data: array<u8>, now: u32)
      requires Valid() && data != txBuffer
      modifies this`wire, this`counters, this`sdSeq, this`app, txBuffer, e2e, e2e.peers, sd.consumers, sd.trackers,
        events.events, requests.entries
      ensures Valid() && SetupNow() == old(SetupNow())
      ensures State() == Receive(cfg, old(SetupNow()), old(State()), source, old(data[..]), now)
    {
      hide CheckFrame, SequenceCheck, Authentic, Dispatch, State, Valid, SetupNow, Bump, ParseHeader;
      PassedFits(cfg.maxPayloadSize, data[..]);
      var v := Validate(data);
      match v {
        case Rejected(c) =>
          Increment(c);
        case Passed(h) =>
          var goesOn := CheckSequence(source, h);
          if !goesOn {
            return;
          }
          var ok := CheckAuth(source, h, data);
          if !ok {
            Increment(AuthFailures);
            return;
          }
          var payload := data[HEADER_SIZE..HEADER_SIZE + h.payloadLength];
          assert payload == PayloadOf(h, data[..]);
          DispatchMessage(source, h, payload, now);
      }
    }

    // --------------------------------------------------------------- the main cycle

    /** The draining loop: at most `MaxReceiveQueueSize` frames of what waits. */
    method DrainQueue(inbox: seq<Inbound>, now: u32)
      requires Valid()
      modifies this`wire, this`counters, this`sdSeq, this`app, txBuffer, e2e, e2e.peers, sd.consumers, sd.trackers,
        events.events, requests.entries
      ensures Valid() && SetupNow() == old(SetupNow())
      ensures State() == Drain(cfg, old(SetupNow()), old(State()), Taken(cfg, inbox), now)
    {
      hide Receive, State, Valid, SetupNow;
      var drain := 0;
      var frames := Taken(cfg, inbox);
      assert frames[..0] == [];
      while drain < cfg.maxReceiveQueue && drain < |inbox|
        invariant drain <= |frames| && frames == inbox[..|frames|]
        invariant Valid() && SetupNow() == old(SetupNow())
        invariant State() == Drain(cfg, old(SetupNow()), old(State()), frames[..drain], now)
      {
        var data := new u8[|inbox[drain].frame|](i requires 0 <= i < |inbox[drain].frame| => inbox[drain].frame[i]);
        assert data[..] == inbox[drain].frame;
        ValidateAndDispatch(inbox[drain].source, data, now);
        assert frames[..drain + 1][..drain] == frames[..drain];
        drain := drain + 1;
      }
      assert frames[..drain] == frames;
    }

    /** Steps 2 to 7 of `process`, in its order. */
    method RunHousekeeping(now: u32)
      requires Valid()
      modifies this`wire, this`counters, this`sdSeq, this`app, txBuffer, e2e, e2e.peers, sd.providers, sd.consumers,
        sd.trackers, events.events, requests.entries
      ensures Valid() && SetupNow() == old(SetupNow()) && State() == Housekeeping(cfg, old(State()), now)
    {
      hide SdStep, EvictRequests, EM.Evict, State, Valid, SetupNow;
      EvictPending(now);
      EvictSubscribers(now);
      PassOffers(now);
      PassRenewals(now);
      PassTtls(now);
      PassFinds(now);
    }

    method EvictPending(now: u32)
      requires Valid()
      modifies this`app, requests.entries
      ensures Valid() && SetupNow() == old(SetupNow()) && State() == EvictRequests(old(State()), now)
    {
      hide RT.EvictFrom, Completions;
      var done := requests.EvictExpired(now);
      CallBack(done);
    }

    method EvictSubscribers(now: u32)
      requires Valid()
      modifies events.events
      ensures Valid() && SetupNow() == old(SetupNow())
        && State() == old(State()).(events := EM.Evict(old(State()).events, now))
    {
      hide EM.Evict;
      events.EvictExpired(now);
    }

    method PassOffers(now: u32)
      requires Valid()
      modifies this`wire, this`counters, this`sdSeq, this`app, txBuffer, e2e, e2e.peers, sd.providers
      ensures Valid() && SetupNow() == old(SetupNow()) && State() == SdStep(cfg, old(State()), ProcessOffers, now)
    {
      hide OffersStepped, OffersOutput, CarryAll;
      var out := sd.RunOffers(now);
      CarryOut(out);
    }

    method PassRenewals(now: u32)
      requires Valid()
      modifies this`wire, this`counters, this`sdSeq, this`app, txBuffer, e2e, e2e.peers, sd.trackers
      ensures Valid() && SetupNow() == old(SetupNow()) && State() == SdStep(cfg, old(State()), ProcessRenewals, now)
    {
      hide RenewalsStepped, RenewalsOutput, CarryAll;
      var out := sd.RunRenewals(now);
      CarryOut(out);
    }

    method PassTtls(now: u32)
      requires Valid()
      modifies this`wire, this`counters, this`sdSeq, this`app, txBuffer, e2e, e2e.peers, sd.consumers
      ensures Valid() && SetupNow() == old(SetupNow()) && State() == SdStep(cfg, old(State()), ProcessTtls, now)
    {
      hide TtlsStepped, TtlsOutput, CarryAll;
      var out := sd.RunConsumerTtls(now);
      CarryOut(out);
    }

    method PassFinds(now: u32)
      requires Valid()
      modifies this`wire, this`counters, this`sdSeq, this`app, txBuffer, e2e, e2e.peers, sd.consumers
      ensures Valid() && SetupNow() == old(SetupNow()) && State() == SdStep(cfg, old(State()), ProcessFinds, now)
    {
      hide FindsStepped, FindsOutput, CarryAll;
      var out := sd.RunFinds(now);
      CarryOut(out);
    }

    /** `process`: drain the receive queue, then the housekeeping. */
    method RunCycle(inbox: seq<Inbound>, now: u32)
      requires Valid()
      modifies this`wire, this`counters, this`sdSeq, this`app, txBuffer, e2e, e2e.peers, sd.providers, sd.consumers,
        sd.trackers, events.events, requests.entries
      ensures Valid() && SetupNow() == old(SetupNow())
      ensures State() == Process(cfg, old(SetupNow()), old(State()), inbox, now)
    {
      hide Drain, Housekeeping, Taken, State, Valid, SetupNow;
      DrainQueue(inbox, now);
      RunHousekeeping(now);
    }

    // --------------------------------------------------------------------- requests

    method Allocated(sid: u16, mid: u16, callback: Option<nat>, timeoutMs: u32, now: u32) returns (id: Option<u32>)
      requires Valid()
      modifies requests, requests.entries
      ensures Valid() && SetupNow() == old(SetupNow())
      ensures var entry := RT.PendingEntry(0, sid, mid, RT.Deadline(timeoutMs, cfg.requestTimeoutMs, now), callback,
                                           true);
        && State() == old(State()).(requests := RT.AllocateIn(old(State()).requests, entry).0)
        && id == RT.AllocateIn(old(State()).requests, entry).1
        && (id == None ==> State() == old(State()))
    {
      ghost var entry := RT.PendingEntry(0, sid, mid, RT.Deadline(timeoutMs, cfg.requestTimeoutMs, now), callback,
                                         true);
      NoneAllocated(State().requests, entry);
      hide RT.AllocateIn;
      id := requests.Allocate(sid, mid, timeoutMs, cfg.requestTimeoutMs, now, callback);
    }

    /** `request_impl`. */
    method Request(target: Address, sid: u16, mid: u16, payload: Bytes, callback: Option<nat>, timeoutMs: u32, now: u32)
        returns (id: Option<u32>)
      requires Valid()
      modifies this`wire, this`counters, this`app, txBuffer, e2e, requests, requests.entries
      ensures Valid()
      ensures (State(), id) == RequestTo(cfg, old(SetupNow()), old(State()), target, sid, mid, payload, callback,
                                         timeoutMs, now)
    {
      hide *;
      RequestToIs(cfg, SetupNow(), State(), target, sid, mid, payload, callback, timeoutMs, now);
      id := Allocated(sid, mid, callback, timeoutMs, now);
      if id == None {
        return;
      }
      var total := BuildRequest(target, sid, mid, payload, id.value);
      id := SendRequest(target, id.value, total);
    }

    method BuildRequest(target: Address, sid: u16, mid: u16, payload: Bytes, id: u32) returns (total: nat)
      requires Valid()
      modifies txBuffer, e2e`txSeq
      ensures Valid() && SetupNow() == old(SetupNow()) && total <= txBuffer.Length
      ensures State() == old(State()).(txSeq := (old(State()).txSeq + 1) % 256)
      ensures var auth := Hmac.Lookup(SetupNow().keys, target).Some?;
        var h := RequestHeader(cfg, sid, mid, id, auth, old(State()).txSeq, Wrap32(|payload|));
        txBuffer[..total] == Build(cfg.maxPayloadSize, SetupNow().keys, target, h, payload, auth)
    {
      hide *;
      var authenticate := HoldsKey(target);
      var sequence := Stamp();
      total := BuildMessage(RequestHeader(cfg, sid, mid, id, authenticate, sequence, Wrap32(|payload|)), payload,
                            authenticate, target);
    }

    /** Sends the frame in the buffer; a failed send completes the request at once. */
    method SendRequest(target: Address, id: u32, total: nat) returns (r: Option<u32>)
      requires Valid() && total <= txBuffer.Length
      modifies this`wire, this`counters, this`app, requests.entries
      ensures Valid() && SetupNow() == old(SetupNow())
      ensures var n := old(State());
        var n1 := n.(wire := n.wire + [Packet(Some(target), txBuffer[..total], cfg.linkUp(|n.wire|))]);
        var n2 := CompleteRequest(n1, id, E_NOT_OK, []);
        if cfg.linkUp(|n.wire|) then State() == n1 && r == Some(id)
        else State() == n2.(counters := Bump(n2.counters, DroppedMessages)) && r == None
    {
      hide *;
      var ok := Send(Some(target), total);
      r := Some(id);
      if !ok {
        HandleCompletion(id, E_NOT_OK, []);
        Increment(DroppedMessages);
        r := None;
      }
    }

    // ------------------------------------------------- notifications and one-way calls

    /** Stamps, builds and sends one frame that is not answered. */
    method SendFrame(dest: Address, h: Header, payload: Bytes) returns (ok: bool)
      requires Valid() && h.sequenceCounter == State().txSeq
      modifies this`wire, this`counters, txBuffer, e2e
      ensures Valid() && SetupNow() == old(SetupNow()) && ok == cfg.linkUp(|old(State()).wire|)
      ensures State() == SendOneWay(cfg, SetupNow(), old(State()), dest, h, payload)
    {
      hide Build, Hmac.Lookup, Bump, State, Valid, SetupNow;
      var authenticate := HoldsKey(dest);
      var sequence := Stamp();
      var total := BuildMessage(h, payload, authenticate, dest);
      ok := Send(Some(dest), total);
      if !ok {
        Increment(DroppedMessages);
      }
    }

    /** `notify_event`. */
    method NotifyEvent(sid: u16, eid: u16, payload: Bytes) returns (told: bool)
      requires Valid()
      modifies this`wire, this`counters, txBuffer, e2e
      ensures Valid() && SetupNow() == old(SetupNow())
      ensures (State(), told) == Notify(cfg, SetupNow(), old(State()), sid, eid, payload)
    {
      hide *;
      ghost var subs := EM.SubsOf(State().events, sid, eid);
      var dests := Subscribers(sid, eid);
      NotifySteps(cfg, SetupNow(), State(), sid, eid, payload, 0);
      for i := 0 to |dests|
        invariant Valid() && SetupNow() == old(SetupNow())
        invariant State() == NotifyAll(cfg, SetupNow(), old(State()), subs[..i], sid, eid, payload)
      {
        NotifySteps(cfg, SetupNow(), old(State()), sid, eid, payload, i);
        TellSubscriber(dests[i].0, sid, eid, payload);
      }
      told := dests != [];
    }

    method TellSubscriber(dest: Address, sid: u16, eid: u16, payload: Bytes)
      requires Valid()
      modifies this`wire, this`counters, txBuffer, e2e
      ensures Valid() && SetupNow() == old(SetupNow())
      ensures State() == NotifyOne(cfg, SetupNow(), old(State()), dest, sid, eid, payload)
    {
      hide SendOneWay, NotificationHeader, Hmac.Lookup, State, Valid, SetupNow;
      var authenticate := HoldsKey(dest);
      var sequence := SequenceNow();
      HeaderSequence(cfg, sid, eid, authenticate, sequence, Wrap32(|payload|));
      var ok := SendFrame(dest, NotificationHeader(sid, eid, authenticate, sequence, Wrap32(|payload|)), payload);
    }

    method Subscribers(sid: u16, eid: u16) returns (dests: seq<(Address, u16)>)
      requires Valid()
      ensures |dests| == |EM.SubsOf(State().events, sid, eid)|
      ensures forall i :: 0 <= i < |dests| ==> dests[i].0 == EM.SubsOf(State().events, sid, eid)[i].addr
    {
      dests := events.Notify(sid, eid);
    }

    method SequenceNow() returns (sequence: u8)
      requires Valid()
      ensures sequence == State().txSeq
    {
      sequence := e2e.txSeq;
    }

    /** `fire_and_forget`. */
    method SendAndForget(sid: u16, mid: u16, payload: Bytes) returns (ok: bool)
      requires Valid()
      modifies this`wire, this`counters, txBuffer, e2e
      ensures Valid() && SetupNow() == old(SetupNow())
      ensures (State(), ok) == FireAndForget(cfg, SetupNow(), old(State()), sid, mid, payload)
    {
      hide SendOneWay, OneWayHeader, Hmac.Lookup, State, Valid, SetupNow, ProviderOf;
      var dest := ProviderAddress(sid);
      if dest == None {
        return false;
      }
      var authenticate := HoldsKey(dest.value);
      var sequence := SequenceNow();
      HeaderSequence(cfg, sid, mid, authenticate, sequence, Wrap32(|payload|));
      ok := SendFrame(dest.value, OneWayHeader(cfg, sid, mid, authenticate, sequence, Wrap32(|payload|)), payload);
    }

    method ProviderAddress(sid: u16) returns (dest: Option<Address>)
      requires Valid()
      ensures dest == ProviderOf(State().sd.consumers, sid)
    {
      dest := sd.GetProviderAddress(sid);
    }
  }

  /** `Notify`, one subscriber after the other. */
  lemma NotifySteps(cfg: NodeConfig, setup: Setup, n: NodeState, sid: u16, eid: u16, payload: Bytes, i: nat)
    ensures var subs := EM.SubsOf(n.events, sid, eid);
      && NotifyAll(cfg, setup, n, subs[..0], sid, eid, payload) == n
      && Notify(cfg, setup, n, sid, eid, payload)
        == (NotifyAll(cfg, setup, n, subs[..|subs|], sid, eid, payload), subs != [])
      && (i < |subs| ==>
            var told := NotifyAll(cfg, setup, n, subs[..i], sid, eid, payload);
            NotifyAll(cfg, setup, n, subs[..i + 1], sid, eid, payload)
              == NotifyOne(cfg, setup, told, subs[i].addr, sid, eid, payload))
  {
    hide NotifyOne, EM.SubsOf;
    var subs := EM.SubsOf(n.events, sid, eid);
    assert subs[..|subs|] == subs;
    if i < |subs| {
      assert subs[..i + 1][..i] == subs[..i];
    }
  }

  /** `RequestTo`, one change of the tables after the other. */
  lemma RequestToIs(cfg: NodeConfig, setup: Setup, n: NodeState, target: Address, sid: u16, mid: u16, payload: Bytes,
                    callback: Option<nat>, timeoutMs: u32, now: u32)
    ensures var entry := RT.PendingEntry(0, sid, mid, RT.Deadline(timeoutMs, cfg.requestTimeoutMs, now), callback,
                                         true);
      var (requests', id) := RT.AllocateIn(n.requests, entry);
      var r := RequestTo(cfg, setup, n, target, sid, mid, payload, callback, timeoutMs, now);
      if id == None then r == (n, None)
      else
        var n1 := n.(requests := requests');
        var auth := Hmac.Lookup(setup.keys, target).Some?;
        var h := RequestHeader(cfg, sid, mid, id.value, auth, n1.txSeq, Wrap32(|payload|));
        var n2 := n1.(txSeq := (n1.txSeq + 1) % 256);
        var frame := Build(cfg.maxPayloadSize, setup.keys, target, h, payload, auth);
        var n3 := n2.(wire := n2.wire + [Packet(Some(target), frame, cfg.linkUp(|n2.wire|))]);
        var n4 := CompleteRequest(n3, id.value, E_NOT_OK, []);
        r == if cfg.linkUp(|n2.wire|) then (n3, id) else (n4.(counters := Bump(n4.counters, DroppedMessages)), None)
  {
    hide RT.AllocateIn, RT.CompleteIn, Completions, Build, Hmac.Lookup, RT.Deadline, Bump;
  }

  lemma HeaderSequence(cfg: NodeConfig, sid: u16, id: u16, auth: bool, sequence: u8, length: u32)
    ensures OneWayHeader(cfg, sid, id, auth, sequence, length).sequenceCounter == sequence
    ensures NotificationHeader(sid, id, auth, sequence, length).sequenceCounter == sequence
  {
  }

  lemma NoneAllocated(t: RT.Requests, e: RT.PendingEntry)
    ensures RT.AllocateIn(t, e).1 == None ==> RT.AllocateIn(t, e).0 == t
  {
  }

  lemma RequestAnsweredIs(cfg: NodeConfig, setup: Setup, n: NodeState, source: Address, h: Header, payload: Bytes)
    ensures var (rc, response, invoked) := Answer(cfg, setup, h, payload);
      var auth := Hmac.Lookup(setup.keys, source).Some?;
      var told := if invoked then n.(app := n.app + [Invoked(h.serviceId, h.methodEventId, payload)]) else n;
      HandleRequest(cfg, setup, n, source, h, payload)
        == Transmit(cfg, told.(txSeq := (told.txSeq + 1) % 256), Some(source),
        Build(cfg.maxPayloadSize, setup.keys, source, ResponseHeader(h, rc, auth, told.txSeq, |response|), response,
              auth))
  {
    hide Answer, Build, Transmit, Hmac.Lookup, ResponseHeader;
  }

  lemma AckLength(sid: u16, eid: u16, granted: u16)
    ensures |Payload(SubscribeAck(sid, eid, granted))| == 8
  {
  }

  /** The answer depends on the registered services alone. */
  lemma AnswerSetup(cfg: NodeConfig, a: Setup, b: Setup, h: Header, payload: Bytes)
    requires a.services == b.services
    ensures Answer(cfg, a, h, payload) == Answer(cfg, b, h, payload)
  {
  }

  lemma SdLength(m: SdMessage)
    requires ShortAddress(m)
    ensures |Payload(m)| < TWO_32
  {
    hide U16;
  }

  /** Overwriting byte 10 of a message is choosing its sequence counter. */
  lemma SequencePatched(clientId: u16, m: SdMessage, result: u8, sequence: u8)
    requires |Payload(m)| < TWO_32
    ensures |SdBytes(clientId, m, result, 0)| == HEADER_SIZE + |Payload(m)|
    ensures SdBytes(clientId, m, result, 0)[10 := sequence] == SdBytes(clientId, m, result, sequence)
  {
    hide U16, U32, Payload;
  }
}
