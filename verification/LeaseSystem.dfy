/** Two devices and the network between them, in true time: one offers a service and
publishes an event, the other searches the service and may subscribe to the event. */
module LeaseSystem {
  import opened Words
  import opened SdMessages
  import opened DiscoverySpec
  import opened Node
  import opened NodeEffects
  import EM = EventManager

  /** The two devices, their true clock offsets, the service, the subscription, and the
      timing bounds in milliseconds. Without `sub` there need be no such subscription; with
      `before` the consumer may still hold the session of the provider's boot before. */
  datatype Link = Link(
    p: NodeConfig, setupP: Setup, addrP: Address, offP: nat,
    c: NodeConfig, setupC: Setup, addrC: Address, offC: nat,
    sid: u16, eid: u16, major: u8, minor: u8, ttl: u16, session: u16, before: Option<u16>, sub: bool, requested: u16,
    gapP: nat, gapC: nat, delay: nat)

  /** The lease the provider grants for the subscription. */
  function Granted(l: Link): u16 {
    if l.requested > 0 then l.requested else l.p.limits.defaultTtl
  }

  function OfferMsg(l: Link): SdMessage {
    OfferService(l.sid, l.major, l.minor, l.ttl, l.session, l.addrP)
  }

  /** Devices with identities, addresses of the configured size, payload limits that admit
      an offer, and sends that do not fail. */
  ghost predicate Usable(l: Link) {
    && l.p.sd.clientId != 0 && l.c.sd.clientId != 0
    && |l.addrP| == l.p.addressSize == l.c.addressSize < TWO_16
    && 8 + l.c.addressSize <= l.c.maxPayloadSize && 8 + l.p.addressSize <= l.p.maxPayloadSize
    && AlwaysUp(l.p) && AlwaysUp(l.c)
  }

  /** The timing bounds of both leases. */
  ghost predicate Bounds(l: Link) {
    && l.ttl > 0 && 500 * l.ttl + l.gapP + l.delay <= 1000 * l.ttl
    && (l.sub ==> SubBounds(l))
  }

  ghost predicate SubBounds(l: Link) {
    && Granted(l) > 0
    && 2 * l.delay <= 500 * Granted(l)
    && 2 * l.delay < 1000 * l.c.sd.subscriptionTtl
    && 500 * Granted(l) + l.gapC + l.delay <= 1000 * Granted(l)
  }

  datatype InFlight = InFlight(toConsumer: bool, source: Address, frame: Bytes, sentAt: nat)

  /** `cycleP`, `cycleC`: when each device last ran the housekeeping half of `process`. */
  datatype System = System(p: NodeState, c: NodeState, net: seq<InFlight>, now: nat, cycleP: nat, cycleC: nat)

  function ClockP(l: Link, s: System): u32 {
    Wrap32(s.now + l.offP)
  }

  function ClockC(l: Link, s: System): u32 {
    Wrap32(s.now + l.offC)
  }

  /** A call of `process` is any number of receive actions and then one housekeeping
      action of that device, at one instant; foreign frames come from other devices. */
  datatype Action =
    | Tick(d: nat)
    | DeliverToP(i: nat)
    | DeliverToC(i: nat)
    | ForeignToP(source: Address, frame: Bytes)
    | ForeignToC(source: Address, frame: Bytes)
    | HousekeepP
    | HousekeepC
    | CallP(e: Event)
    | RegisterP(sid: u16, eid: u16)
    | CallC(e: Event)

  predicate IsCall(e: Event) {
    e.OfferCall? || e.StopOfferCall? || e.FindCall? || e.SubscribeCall? || e.UnsubscribeCall?
  }

  /** What other devices may send: anything, except frames that speak for this consumer's
      subscription, or for this service towards the consumer. */
  predicate BenignToP(l: Link, source: Address, frame: Bytes) {
    match Seen(l.p, l.setupP, source, frame)
    case None => true
    case Some(x) =>
      l.sub && (x.m.SubscribeEvent? || x.m.Unsubscribe?) && x.m.serviceId == l.sid && x.m.eventId == l.eid ==>
        x.client != l.c.sd.clientId && source != l.addrC
  }

  predicate BenignToC(l: Link, source: Address, frame: Bytes) {
    match Seen(l.c, l.setupC, source, frame)
    case None => true
    case Some(x) =>
      && (x.m.OfferService? ==> x.m.serviceId != l.sid)
      && (l.sub && x.m.SubscribeAck? ==> !(x.m.serviceId == l.sid && x.m.eventId == l.eid))
  }

  /** The first offer of the service: with its versions and lease, and with the session
      identifier that follows from the clock. */
  predicate FirstOffer(l: Link, s: System, e: Event)
    requires e.OfferCall?
  {
    && ProviderIndex(s.p.sd.providers, l.sid) == |s.p.sd.providers|
    && e.major == l.major && e.minor == l.minor && (if e.ttl > 0 then e.ttl else l.p.sd.offerTtl) == l.ttl
    && SessionId(l.p.sd.clientId, l.sid, ClockP(l, s)) == l.session
  }

  /** The first subscription to the event. */
  predicate FirstSubscription(l: Link, s: System, e: Event)
    requires e.SubscribeCall?
  {
    TrackerIndex(s.c.sd.trackers, l.sid, l.eid) == |s.c.sd.trackers| && e.ttl == l.requested
  }

  /** What may happen: the applications do what they like, except that the provider's offers
      the service once and does not stop; the consumer's does not search the service again
      while it has it; and, if the subscription counts, subscribes once and stays. */
  predicate Enabled(l: Link, s: System, a: Action) {
    match a
    case Tick(_) => true
    case DeliverToP(i) => i < |s.net| && !s.net[i].toConsumer
    case DeliverToC(i) => i < |s.net| && s.net[i].toConsumer
    case ForeignToP(source, frame) => BenignToP(l, source, frame)
    case ForeignToC(source, frame) => BenignToC(l, source, frame)
    case HousekeepP => true
    case HousekeepC => true
    case CallP(e) =>
      && IsCall(e) && !(e.StopOfferCall? && e.sid == l.sid)
      && (e.OfferCall? && e.sid == l.sid ==> FirstOffer(l, s, e))
    case RegisterP(_, _) => true
    case CallC(e) =>
      && IsCall(e) && !(e.FindCall? && e.sid == l.sid && ProviderOf(s.c.sd.consumers, l.sid).Some?)
      && (l.sub && e.UnsubscribeCall? ==> !(e.sid == l.sid && e.eid == l.eid))
      && (l.sub && e.SubscribeCall? && e.sid == l.sid && e.eid == l.eid ==> FirstSubscription(l, s, e))
  }

  /** The packets of one device that travel to the other. */
  function Routed(toConsumer: bool, to: Address, from: Address, packets: seq<Packet>, now: nat): seq<InFlight> {
    if packets == [] then []
    else
      var last := packets[|packets| - 1];
      Routed(toConsumer, to, from, packets[..|packets| - 1], now)
      + (if last.sent && (last.dest == None || last.dest == Some(to))
        then [InFlight(toConsumer, from, last.frame, now)] else [])
  }

  function Without(net: seq<InFlight>, i: nat): seq<InFlight>
    requires i < |net|
  {
    net[..i] + net[i + 1..]
  }

  function NewPackets(n: NodeState, n': NodeState): seq<Packet> {
    if |n.wire| <= |n'.wire| then n'.wire[|n.wire|..] else []
  }

  /** The provider moves to `p'`; what it sent is on its way. */
  function MoveP(l: Link, s: System, p': NodeState, net: seq<InFlight>): System {
    s.(p := p', net := net + Routed(true, l.addrC, l.addrP, NewPackets(s.p, p'), s.now))
  }

  function MoveC(l: Link, s: System, c': NodeState, net: seq<InFlight>): System {
    s.(c := c', net := net + Routed(false, l.addrP, l.addrC, NewPackets(s.c, c'), s.now))
  }

  function Next(l: Link, s: System, a: Action): System
    requires Enabled(l, s, a)
  {
    match a
    case Tick(d) => s.(now := s.now + d)
    case DeliverToP(i) =>
      MoveP(l, s, Receive(l.p, l.setupP, s.p, s.net[i].source, s.net[i].frame, ClockP(l, s)), Without(s.net, i))
    case DeliverToC(i) =>
      MoveC(l, s, Receive(l.c, l.setupC, s.c, s.net[i].source, s.net[i].frame, ClockC(l, s)), Without(s.net, i))
    case ForeignToP(source, frame) => MoveP(l, s, Receive(l.p, l.setupP, s.p, source, frame, ClockP(l, s)), s.net)
    case ForeignToC(source, frame) => MoveC(l, s, Receive(l.c, l.setupC, s.c, source, frame, ClockC(l, s)), s.net)
    case HousekeepP => MoveP(l, s, Housekeeping(l.p, s.p, ClockP(l, s)), s.net).(cycleP := s.now)
    case HousekeepC => MoveC(l, s, Housekeeping(l.c, s.c, ClockC(l, s)), s.net).(cycleC := s.now)
    case CallP(e) => MoveP(l, s, SdStep(l.p, s.p, e, ClockP(l, s)), s.net)
    case RegisterP(sid, eid) => s.(p := s.p.(events := EM.Register(s.p.events, l.p.limits, sid, eid).0))
    case CallC(e) => MoveC(l, s, SdStep(l.c, s.c, e, ClockC(l, s)), s.net)
  }

  /** Each device runs a cycle at least every `gap` ms, and each packet is handled within
      `delay` ms of being sent. */
  predicate Timely(l: Link, s: System) {
    && s.now <= s.cycleP + l.gapP
    && s.now <= s.cycleC + l.gapC
    && forall i :: 0 <= i < |s.net| ==> s.now <= s.net[i].sentAt + l.delay
  }

  /** A run: every action enabled, every state reached in time. */
  predicate IsRun(l: Link, s: System, run: seq<Action>)
    decreases |run|
  {
    run == [] || (Enabled(l, s, run[0]) && Timely(l, Next(l, s, run[0])) && IsRun(l, Next(l, s, run[0]), run[1..]))
  }

  function After(l: Link, s: System, run: seq<Action>): System
    requires IsRun(l, s, run)
    decreases |run|
  {
    if run == [] then s else After(l, Next(l, s, run[0]), run[1..])
  }

  // --------------------------------------------------------------------- routing

  lemma {:induction false} RoutedFrom(toConsumer: bool, to: Address, from: Address, packets: seq<Packet>, now: nat,
                                      i: nat)
    requires i < |Routed(toConsumer, to, from, packets, now)|
    ensures var f := Routed(toConsumer, to, from, packets, now)[i];
      f.toConsumer == toConsumer && f.source == from && f.sentAt == now
      && exists k ::
        0 <= k < |packets| && f.frame == packets[k].frame && (packets[k].dest == None || packets[k].dest == Some(to))
    decreases |packets|
  {
    var n := |packets| - 1;
    if i < |Routed(toConsumer, to, from, packets[..n], now)| {
      RoutedFrom(toConsumer, to, from, packets[..n], now, i);
      var f := Routed(toConsumer, to, from, packets[..n], now)[i];
      var k :| 0 <= k < n && f.frame == packets[..n][k].frame
        && (packets[..n][k].dest == None || packets[..n][k].dest == Some(to));
      assert f.frame == packets[k].frame;
    } else {
      assert Routed(toConsumer, to, from, packets, now)[i].frame == packets[n].frame;
    }
  }

  lemma {:induction false} RoutedAll(toConsumer: bool, to: Address, from: Address, packets: seq<Packet>, now: nat,
                                     k: nat)
    requires k < |packets| && packets[k].sent && (packets[k].dest == None || packets[k].dest == Some(to))
    ensures InFlight(toConsumer, from, packets[k].frame, now) in Routed(toConsumer, to, from, packets, now)
    decreases |packets|
  {
    if k < |packets| - 1 {
      RoutedAll(toConsumer, to, from, packets[..|packets| - 1], now, k);
    }
  }
}
