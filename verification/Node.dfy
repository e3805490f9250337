/** One device: what the runtime coordinator (`include/sero/runtime.hpp`) does with its
tables, as a function of them. */
module Node {
  import opened Words
  import opened Wire
  import opened SdMessages
  import opened DiscoverySpec
  import opened Frame
  import Crc16
  import Hmac
  import E2E = E2EProtection
  import EM = EventManager
  import RT = RequestTracker

  /** Configuration. `linkUp(n)` is the result of the n-th attempt to send; `handler` stands
      for the registered services' `on_request`. */
  datatype NodeConfig = NodeConfig(
    sd: SdConfig, limits: EM.Limits, maxPayloadSize: u32, maxReceiveQueue: nat,
    requestTimeoutMs: u32, window: u8, maxTrackedPeers: nat, addressSize: nat,
    linkUp: nat -> bool, handler: (u16, u16, Bytes) -> (u8, Bytes))

  datatype ServiceInfo = ServiceInfo(authRequired: bool, ready: bool)

  /** What the application has set up and a process cycle leaves alone. */
  datatype Setup = Setup(keys: seq<Hmac.KeyEntry>, services: map<u16, ServiceInfo>, eventHandlers: set<(u16, u16)>)

  /** One attempt to send; a broadcast has no destination. */
  datatype Packet = Packet(dest: Option<Address>, frame: Bytes, sent: bool)

  datatype AppEvent =
    | Discovered(output: Output)
    | RequestDone(completion: RT.Completion)
    | Invoked(serviceId: u16, methodId: u16, payload: Bytes)
    | Notified(serviceId: u16, eventId: u16, payload: Bytes)

  datatype NodeState = NodeState(
    sd: Sd, events: seq<EM.EventSlot>, requests: RT.Requests, peers: seq<E2E.Peer>,
    txSeq: u8, sdSeq: u8, counters: Counters, wire: seq<Packet>, app: seq<AppEvent>)

  const E_OK: u8 := 0
  const E_NOT_OK: u8 := 1
  const E_UNKNOWN_SERVICE: u8 := 2
  const E_NOT_READY: u8 := 4

  /** Large enough for the acknowledgements the runtime writes without a check. */
  function MaxMessageSize(cfg: NodeConfig): nat {
    HEADER_SIZE + cfg.maxPayloadSize + HMAC_SIZE + CRC_SIZE
  }

  // --------------------------------------------------------------------- sending

  function Transmit(cfg: NodeConfig, n: NodeState, dest: Option<Address>, frame: Bytes): NodeState {
    var ok := cfg.linkUp(|n.wire|);
    n.(wire := n.wire + [Packet(dest, frame, ok)],
       counters := if ok then n.counters else Bump(n.counters, DroppedMessages))
  }

  /** An address fits the payload length field. */
  predicate ShortAddress(m: SdMessage) {
    m.OfferService? ==> |m.provider| < TWO_16
  }

  function SdFrame(clientId: u16, m: SdMessage, result: u8, sequence: u8): Bytes
    requires ShortAddress(m)
  {
    Crc16.Sealed(SdBytes(clientId, m, result, sequence))
  }

  /** `send_sd_broadcast`, `send_sd_unicast`: an over-long message is silently not sent. */
  function SendSd(cfg: NodeConfig, n: NodeState, dest: Option<Address>, m: SdMessage, result: u8): NodeState {
    if !ShortAddress(m) || HEADER_SIZE + |Payload(m)| + CRC_SIZE > MaxMessageSize(cfg) then n
    else Transmit(cfg, n.(sdSeq := (n.sdSeq + 1) % 256), dest, SdFrame(cfg.sd.clientId, m, result, n.sdSeq))
  }

  /** What the discovery tables hand out, carried out in order. */
  function Carry(cfg: NodeConfig, n: NodeState, o: Output): NodeState {
    match o
    case Broadcast(m) => SendSd(cfg, n, None, m, 0)
    case Unicast(dest, m) => SendSd(cfg, n, Some(dest), m, 0)
    case PeerExpired(addr) => n.(peers := E2E.ResetPeer(n.peers, addr))
    case _ => n.(app := n.app + [Discovered(o)])
  }

  function CarryAll(cfg: NodeConfig, n: NodeState, out: seq<Output>): NodeState {
    if out == [] then n else Carry(cfg, CarryAll(cfg, n, out[..|out| - 1]), out[|out| - 1])
  }

  function SdStep(cfg: NodeConfig, n: NodeState, e: Event, now: u32): NodeState {
    var (sd', out) := Step(cfg.sd, n.sd, e, now);
    CarryAll(cfg, n.(sd := sd'), out)
  }

  function Completions(done: seq<RT.Completion>): seq<AppEvent> {
    if done == [] then []
    else
      var last := done[|done| - 1];
      Completions(done[..|done| - 1]) + (if last.entry.callback.Some? then [RequestDone(last)] else [])
  }

  // --------------------------------------------------------------------- handlers

  /** `handle_subscribe_request`. */
  function SubscribeRequest(cfg: NodeConfig, n: NodeState, source: Address, client: u16, sid: u16, eid: u16, ttl: u16,
                            now: u32): NodeState {
    var (events', r) := EM.Subscribe(n.events, cfg.limits, sid, eid, client, source, ttl, now);
    var granted := if r.Accepted? then EM.GrantedTtl(ttl, cfg.limits) else 0;
    var m := SubscribeAck(sid, eid, granted);
    Transmit(cfg, n.(events := events', sdSeq := (n.sdSeq + 1) % 256), Some(source),
             SdFrame(cfg.sd.clientId, m, if r.Accepted? then E_OK else E_NOT_OK, n.sdSeq))
  }

  /** What a device does with one service-discovery message. */
  function HandleMessage(cfg: NodeConfig, n: NodeState, source: Address, client: u16, result: u8, m: SdMessage,
                         now: u32): NodeState {
    match m
    case OfferService(sid, major, minor, ttl, session, provider) =>
      var n1 := if DetectReboot(n.sd.consumers, sid, session) then n.(peers := E2E.ResetPeer(n.peers, provider)) else n;
      SdStep(cfg, n1, RxOffer(sid, major, ttl, session, provider), now)
    case FindService(sid) => SdStep(cfg, n.(peers := E2E.ResetPeer(n.peers, source)), RxFind(sid, source), now)
    case SubscribeEvent(sid, eid, ttl) => SubscribeRequest(cfg, n, source, client, sid, eid, ttl, now)
    case SubscribeAck(sid, eid, ttl) => SdStep(cfg, n, RxAck(sid, eid, result, ttl), now)
    case Unsubscribe(sid, eid) => n.(events := EM.Unsubscribe(n.events, sid, eid, client))
  }

  /** `handle_sd_message`: a payload too short for its method is ignored. */
  function HandleSd(cfg: NodeConfig, n: NodeState, source: Address, h: Header, payload: Bytes, now: u32): NodeState {
    match ParsePayload(h.methodEventId, payload, cfg.addressSize)
    case None => n
    case Some(m) => HandleMessage(cfg, n, source, h.clientId, h.returnCode, m, now)
  }

  /** The dispatcher's answer to a request, and whether the handler ran; a handler fills at
      most the response buffer, and an error carries no payload. */
  function Answer(cfg: NodeConfig, setup: Setup, h: Header, payload: Bytes): (r: (u8, Bytes, bool))
    ensures |r.1| <= cfg.maxPayloadSize
  {
    if h.serviceId !in setup.services then (E_UNKNOWN_SERVICE, [], false)
    else if !setup.services[h.serviceId].ready then (E_NOT_READY, [], false)
    else
      var (rc, response) := cfg.handler(h.serviceId, h.methodEventId, payload);
      (rc,
       if rc != E_OK then []
       else if |response| <= cfg.maxPayloadSize then response else response[..cfg.maxPayloadSize],
       true)
  }

  function ResponseHeader(h: Header, rc: u8, auth: bool, sequence: u8, length: u32): Header {
    Header(PROTOCOL_VERSION, if rc != E_OK then ERROR else RESPONSE, rc, if auth then FLAG_AUTH else 0,
           h.serviceId, h.methodEventId, h.clientId, sequence, 0, h.requestId, length)
  }

  /** `handle_request`. */
  function HandleRequest(cfg: NodeConfig, setup: Setup, n: NodeState, source: Address, h: Header,
                         payload: Bytes): NodeState {
    var (rc, response, invoked) := Answer(cfg, setup, h, payload);
    var auth := Hmac.Lookup(setup.keys, source).Some?;
    var n1 := n.(txSeq := (n.txSeq + 1) % 256,
                 app := if invoked then n.app + [Invoked(h.serviceId, h.methodEventId, payload)] else n.app);
    Transmit(cfg, n1, Some(source),
             Build(cfg.maxPayloadSize, setup.keys, source, ResponseHeader(h, rc, auth, n.txSeq, |response|), response,
                   auth))
  }

  function HandleFireAndForget(setup: Setup, n: NodeState, h: Header, payload: Bytes): NodeState {
    if h.serviceId !in setup.services then n.(counters := Bump(n.counters, DroppedMessages))
    else if !setup.services[h.serviceId].ready then n
    else n.(app := n.app + [Invoked(h.serviceId, h.methodEventId, payload)])
  }

  /** `complete` for a response, an error, or a failed send. */
  function CompleteRequest(n: NodeState, id: u32, rc: u8, payload: Bytes): NodeState {
    var (requests', done) := RT.CompleteIn(n.requests, id, rc, payload);
    n.(requests := requests', app := n.app + Completions(done))
  }

  /** `dispatch_message`. */
  function Dispatch(cfg: NodeConfig, setup: Setup, n: NodeState, source: Address, h: Header, payload: Bytes,
                    now: u32): NodeState {
    if h.serviceId == SD_SERVICE_ID then HandleSd(cfg, n, source, h, payload, now)
    else if h.messageType == REQUEST then HandleRequest(cfg, setup, n, source, h, payload)
    else if h.messageType == REQUEST_NO_RETURN then HandleFireAndForget(setup, n, h, payload)
    else if h.messageType == RESPONSE || h.messageType == ERROR then
      CompleteRequest(n, h.requestId, h.returnCode, payload)
    else if h.messageType == NOTIFICATION && (h.serviceId, h.methodEventId) in setup.eventHandlers then
      n.(app := n.app + [Notified(h.serviceId, h.methodEventId, payload)])
    else n
  }

  // -------------------------------------------------------------------- receiving

  /** The sequence check: `None` lets the frame go on. */
  function SequenceCheck(cfg: NodeConfig, n: NodeState, source: Address, h: Header): (NodeState, bool) {
    if h.serviceId == SD_SERVICE_ID then (n, true)
    else
      var (peers', r) := E2E.Validate(n.peers, cfg.maxTrackedPeers, cfg.window, source, h.sequenceCounter);
      var n' := n.(peers := peers');
      match r
      case Duplicate => (n'.(counters := Bump(n.counters, DuplicateMessages)), false)
      case Stale => (n'.(counters := Bump(n.counters, StaleMessages)), false)
      case TableFull => (n'.(counters := Bump(n.counters, DroppedMessages)), true)
      case _ => (n', true)
  }

  /** The authentication check. Any frame with the AUTH flag is verified, whatever the
      service asks for; a service that asks for it refuses frames without. */
  predicate Authentic(setup: Setup, source: Address, h: Header, d: Bytes)
    requires |d| >= ExpectedSize(h)
  {
    if HasAuth(h) then Hmac.Accepts(setup.keys, source, d[..HEADER_SIZE], PayloadOf(h, d), TagOf(h, d))
    else !(h.serviceId != SD_SERVICE_ID && h.serviceId in setup.services && setup.services[h.serviceId].authRequired)
  }

  /** `validate_and_dispatch`. */
  function Receive(cfg: NodeConfig, setup: Setup, n: NodeState, source: Address, d: Bytes, now: u32): NodeState {
    PassedFits(cfg.maxPayloadSize, d);
    match CheckFrame(cfg.maxPayloadSize, d)
    case Rejected(c) => n.(counters := Bump(n.counters, c))
    case Passed(h) =>
      var (n1, goesOn) := SequenceCheck(cfg, n, source, h);
      if !goesOn then n1
      else if !Authentic(setup, source, h, d) then n1.(counters := Bump(n1.counters, AuthFailures))
      else Dispatch(cfg, setup, n1, source, h, PayloadOf(h, d), now)
  }

  /** A frame waiting in the receive queue. */
  datatype Inbound = Inbound(source: Address, frame: Bytes)

  function Drain(cfg: NodeConfig, setup: Setup, n: NodeState, inbox: seq<Inbound>, now: u32): NodeState {
    if inbox == [] then n
    else
      var last := inbox[|inbox| - 1];
      Receive(cfg, setup, Drain(cfg, setup, n, inbox[..|inbox| - 1], now), last.source, last.frame, now)
  }

  /** The frames one cycle takes from the queue. */
  function Taken(cfg: NodeConfig, inbox: seq<Inbound>): seq<Inbound> {
    if |inbox| <= cfg.maxReceiveQueue then inbox else inbox[..cfg.maxReceiveQueue]
  }

  function EvictRequests(n: NodeState, now: u32): NodeState {
    var (requests', done) := RT.EvictFrom(n.requests, now);
    n.(requests := requests', app := n.app + Completions(done))
  }

  /** Everything in a cycle after the queue was drained, in the code's order. */
  function Housekeeping(cfg: NodeConfig, n: NodeState, now: u32): NodeState {
    var n1 := EvictRequests(n, now);
    var n2 := n1.(events := EM.Evict(n1.events, now));
    var n3 := SdStep(cfg, n2, ProcessOffers, now);
    var n4 := SdStep(cfg, n3, ProcessRenewals, now);
    var n5 := SdStep(cfg, n4, ProcessTtls, now);
    SdStep(cfg, n5, ProcessFinds, now)
  }

  /** `Runtime::process`. */
  function Process(cfg: NodeConfig, setup: Setup, n: NodeState, inbox: seq<Inbound>, now: u32): NodeState {
    Housekeeping(cfg, Drain(cfg, setup, n, Taken(cfg, inbox), now), now)
  }

  // --------------------------------------------------------------- outgoing requests

  function RequestHeader(cfg: NodeConfig, sid: u16, mid: u16, id: u32, auth: bool, sequence: u8, length: u32): Header {
    Header(PROTOCOL_VERSION, REQUEST, 0, if auth then FLAG_AUTH else 0,
           sid, mid, cfg.sd.clientId, sequence, 0, id, length)
  }

  /** `request_impl`: allocate, build, send; a failed send completes the request at once. */
  function RequestTo(cfg: NodeConfig, setup: Setup, n: NodeState, target: Address, sid: u16, mid: u16, payload: Bytes,
                     callback: Option<nat>, timeoutMs: u32, now: u32): (NodeState, Option<u32>)
  {
    var entry := RT.PendingEntry(0, sid, mid, RT.Deadline(timeoutMs, cfg.requestTimeoutMs, now), callback, true);
    var (requests', rid) := RT.AllocateIn(n.requests, entry);
    match rid
    case None => (n, None)
    case Some(id) =>
      var auth := Hmac.Lookup(setup.keys, target).Some?;
      var h := RequestHeader(cfg, sid, mid, id, auth, n.txSeq, Wrap32(|payload|));
      var n1 := n.(requests := requests', txSeq := (n.txSeq + 1) % 256);
      var ok := cfg.linkUp(|n.wire|);
      var n2 := n1.(wire := n.wire + [
        Packet(Some(target), Build(cfg.maxPayloadSize, setup.keys, target, h, payload, auth), ok)]);
      if ok then (n2, Some(id))
      else
        var n3 := CompleteRequest(n2, id, E_NOT_OK, []);
        (n3.(counters := Bump(n3.counters, DroppedMessages)), None)
  }

  // ------------------------------------------------- notifications and one-way calls

  const CLIENT_ID_PROVIDER: u16 := 0

  function NotificationHeader(sid: u16, eid: u16, auth: bool, sequence: u8, length: u32): Header {
    Header(PROTOCOL_VERSION, NOTIFICATION, 0, if auth then FLAG_AUTH else 0,
           sid, eid, CLIENT_ID_PROVIDER, sequence, 0, 0, length)
  }

  /** Builds and sends one frame that is not answered. */
  function SendOneWay(cfg: NodeConfig, setup: Setup, n: NodeState, dest: Address, h: Header,
                      payload: Bytes): NodeState {
    var auth := Hmac.Lookup(setup.keys, dest).Some?;
    Transmit(cfg, n.(txSeq := (n.txSeq + 1) % 256), Some(dest),
             Build(cfg.maxPayloadSize, setup.keys, dest, h, payload, auth))
  }

  function NotifyOne(cfg: NodeConfig, setup: Setup, n: NodeState, dest: Address, sid: u16, eid: u16,
                     payload: Bytes): NodeState {
    SendOneWay(cfg, setup, n, dest,
      NotificationHeader(sid, eid, Hmac.Lookup(setup.keys, dest).Some?, n.txSeq, Wrap32(|payload|)), payload)
  }

  function NotifyAll(cfg: NodeConfig, setup: Setup, n: NodeState, subs: seq<EM.Subscriber>, sid: u16, eid: u16,
                     payload: Bytes): NodeState {
    if subs == [] then n
    else NotifyOne(cfg, setup, NotifyAll(cfg, setup, n, subs[..|subs| - 1], sid, eid, payload), subs[|subs| - 1].addr,
                   sid, eid, payload)
  }

  /** `notify_event`: every subscriber in table order, nothing when there is none. */
  function Notify(cfg: NodeConfig, setup: Setup, n: NodeState, sid: u16, eid: u16, payload: Bytes): (NodeState, bool) {
    var subs := EM.SubsOf(n.events, sid, eid);
    (NotifyAll(cfg, setup, n, subs, sid, eid, payload), subs != [])
  }

  function OneWayHeader(cfg: NodeConfig, sid: u16, mid: u16, auth: bool, sequence: u8, length: u32): Header {
    Header(PROTOCOL_VERSION, REQUEST_NO_RETURN, 0, if auth then FLAG_AUTH else 0,
           sid, mid, cfg.sd.clientId, sequence, 0, 0, length)
  }

  /** `fire_and_forget`: to the provider while the service is FOUND. */
  function FireAndForget(cfg: NodeConfig, setup: Setup, n: NodeState, sid: u16, mid: u16,
                         payload: Bytes): (NodeState, bool) {
    match ProviderOf(n.sd.consumers, sid)
    case None => (n, false)
    case Some(dest) =>
      var h := OneWayHeader(cfg, sid, mid, Hmac.Lookup(setup.keys, dest).Some?, n.txSeq, Wrap32(|payload|));
      (SendOneWay(cfg, setup, n, dest, h, payload), cfg.linkUp(|n.wire|))
  }
}
