/** Before the lease: from two devices with empty tables to the first offer the consumer hears. */
module LeaseBefore {
  import opened Words
  import opened Wire
  import opened SdMessages
  import opened DiscoverySpec
  import opened DiscoveryLog
  import opened Frame
  import opened Node
  import opened NodeEffects
  import opened NodeOutputs
  import opened LeaseSystem
  import opened LeaseProvider
  import opened LeaseConsumer
  import opened Leases
  import Crc16
  import EM = EventManager
  import RT = RequestTracker

  /** A device that knows its address and nothing else. */
  function PoweredOn(addr: Address, slots: nat): NodeState {
    NodeState(Sd([], [], [], addr), [], RT.Requests(seq(slots, _ => RT.FREE), 1), [], 0, 0, seq(9, _ => 0), [], [])
  }

  /** Two such devices, at time `t`, and nothing on the wires. */
  function PowerOn(l: Link, t: nat, slotsP: nat, slotsC: nat): System {
    System(PoweredOn(l.addrP, slotsP), PoweredOn(l.addrC, slotsC), [], t, t, t)
  }

  // ------------------------------------------------------------- what a frame causes

  /** The discovery operation a message causes, if any. */
  function Caused(source: Address, x: SdSeen): Option<Event> {
    match x.m
    case OfferService(sid, major, minor, ttl, session, provider) => Some(RxOffer(sid, major, ttl, session, provider))
    case FindService(sid) => Some(RxFind(sid, source))
    case SubscribeAck(sid, eid, ttl) => Some(RxAck(sid, eid, x.result, ttl))
    case _ => None
  }

  function CausedBy(cfg: NodeConfig, setup: Setup, source: Address, d: Bytes): Option<Event> {
    match Seen(cfg, setup, source, d)
    case None => None
    case Some(x) => Caused(source, x)
  }

  function SdAfter(cfg: SdConfig, sd: Sd, e: Option<Event>, now: u32): Sd {
    match e
    case None => sd
    case Some(e) => Step(cfg, sd, e, now).0
  }

  function OutAfter(cfg: SdConfig, sd: Sd, e: Option<Event>, now: u32): seq<Output> {
    match e
    case None => []
    case Some(e) => Step(cfg, sd, e, now).1
  }

  /** Receiving a frame is one discovery operation, or none; what it sends carries the
      operation's outputs, answers a subscribe message, or is no discovery frame. */
  ghost predicate SendsOrElse(cfg: NodeConfig, setup: Setup, n: NodeState, n': NodeState, source: Address, d: Bytes,
                              out: seq<Output>) {
    && n.wire <= n'.wire
    && forall i :: |n.wire| <= i < |n'.wire| ==>
      NotDiscovery(n'.wire[i].frame) || SentFrom(cfg, n'.wire[i], out) || IsAnswer(cfg, setup, n'.wire[i], source, d)
  }

  /** The packet answers the subscribe message in `d`. */
  ghost predicate IsAnswer(cfg: NodeConfig, setup: Setup, p: Packet, source: Address, d: Bytes) {
    match Seen(cfg, setup, source, d)
    case None => false
    case Some(x) =>
      x.m.SubscribeEvent? && p.dest == Some(source)
      && exists granted: u16, rc: u8, s: u8 ::
        p.frame == SdFrame(cfg.sd.clientId, SubscribeAck(x.m.serviceId, x.m.eventId, granted), rc, s)
  }

  lemma ReceivesAsStep(cfg: NodeConfig, setup: Setup, n: NodeState, source: Address, d: Bytes, now: u32)
    ensures var n' := Receive(cfg, setup, n, source, d, now);
      var e := CausedBy(cfg, setup, source, d);
      && n'.sd == SdAfter(cfg.sd, n.sd, e, now)
      && SendsOrElse(cfg, setup, n, n', source, d, OutAfter(cfg.sd, n.sd, e, now))
  {
    hide Receive, Seen, HandleMessage, Step, NotDiscovery, SentFrom;
    ReceiveIsHandle(cfg, setup, n, source, d, now);
    var n' := Receive(cfg, setup, n, source, d, now);
    match Seen(cfg, setup, source, d)
    case None =>
    case Some(x) =>
      match x.m {
        case SubscribeEvent(sid, eid, ttl) => AnswersSubscribe(cfg, setup, n, source, d, x, sid, eid, ttl, now);
        case Unsubscribe(sid, eid) => DropsSubscriber(cfg, n, source, x, sid, eid, now);
        case _ => HandlesAsStep(cfg, n, source, x, now);
      }
  }

  lemma AnswersSubscribe(cfg: NodeConfig, setup: Setup, n: NodeState, source: Address, d: Bytes, x: SdSeen, sid: u16,
                         eid: u16, ttl: u16, now: u32)
    requires Seen(cfg, setup, source, d) == Some(x) && x.m == SubscribeEvent(sid, eid, ttl)
    ensures var n' := HandleMessage(cfg, n, source, x.client, x.result, x.m, now);
      && n'.sd == n.sd && n.wire <= n'.wire
      && forall i :: |n.wire| <= i < |n'.wire| ==> IsAnswer(cfg, setup, n'.wire[i], source, d)
  {
    hide Seen, SdFrame, EM.Subscribe;
    var n' := HandleMessage(cfg, n, source, x.client, x.result, x.m, now);
    var (events', r) := EM.Subscribe(n.events, cfg.limits, sid, eid, x.client, source, ttl, now);
    var granted := if r.Accepted? then EM.GrantedTtl(ttl, cfg.limits) else 0;
    var rc := if r.Accepted? then E_OK else E_NOT_OK;
    assert n'.wire == n.wire + [Packet(Some(source),
                                       SdFrame(cfg.sd.clientId, SubscribeAck(sid, eid, granted), rc, n.sdSeq),
                                       cfg.linkUp(|n.wire|))];
  }

  lemma DropsSubscriber(cfg: NodeConfig, n: NodeState, source: Address, x: SdSeen, sid: u16, eid: u16, now: u32)
    requires x.m == Unsubscribe(sid, eid)
    ensures var n' := HandleMessage(cfg, n, source, x.client, x.result, x.m, now);
      n'.sd == n.sd && n'.wire == n.wire
  {
  }

  lemma HandlesAsStep(cfg: NodeConfig, n: NodeState, source: Address, x: SdSeen, now: u32)
    requires x.m.OfferService? || x.m.FindService? || x.m.SubscribeAck?
    ensures var n' := HandleMessage(cfg, n, source, x.client, x.result, x.m, now);
      var e := Caused(source, x);
      && e.Some? && n'.sd == Step(cfg.sd, n.sd, e.value, now).0 && n'.events == n.events && n.wire <= n'.wire
      && forall i :: |n.wire| <= i < |n'.wire| ==> SentFrom(cfg, n'.wire[i], Step(cfg.sd, n.sd, e.value, now).1)
  {
    hide SdStep, Step, SentFrom;
    SdStepEmits(cfg, HandleBase(cfg, n, source, x.m), Caused(source, x).value, now);
  }

  // ------------------------------------------------------ the provider before it offers

  ghost predicate NotYet(l: Link, sd: Sd) {
    DistinctProviders(sd.providers) && sd.localAddr == l.addrP && ProviderIndex(sd.providers, l.sid) == |sd.providers|
  }

  /** A frame that shows the consumer no offer of the service. */
  ghost predicate Silent(l: Link, frame: Bytes) {
    match Seen(l.c, l.setupC, l.addrP, frame)
    case None => true
    case Some(x) => !(x.m.OfferService? && x.m.serviceId == l.sid)
  }

  ghost predicate SilentOutputs(l: Link, out: seq<Output>) {
    forall o :: o in out && (o.Broadcast? || o.Unicast?) ==> !(o.msg.OfferService? && o.msg.serviceId == l.sid)
  }

  ghost predicate SendsSilent(l: Link, n: NodeState, n': NodeState) {
    n.wire <= n'.wire && forall i :: |n.wire| <= i < |n'.wire| ==> Silent(l, n'.wire[i].frame)
  }

  /** Messages of one kind about one service and event. */
  predicate SameSubject(a: SdMessage, b: SdMessage) {
    MethodOf(a) == MethodOf(b) && a.serviceId == b.serviceId && KeyEvent(a) == KeyEvent(b)
  }

  function KeyEvent(m: SdMessage): u16 {
    if m.SubscribeEvent? || m.Unsubscribe? || m.SubscribeAck? then m.eventId else 0
  }

  /** Whatever its configuration, a receiver sees in a discovery frame a message on the same
      subject, or nothing. */
  ghost predicate ShowsOnly(cfg: NodeConfig, setup: Setup, source: Address, frame: Bytes, client: u16, result: u8,
                            m: SdMessage) {
    match Seen(cfg, setup, source, frame)
    case None => true
    case Some(x) => x.client == client && x.result == result && SameSubject(x.m, m)
  }

  lemma FrameShows(cfg: NodeConfig, setup: Setup, source: Address, client: u16, m: SdMessage, result: u8, sequence: u8)
    requires ShortAddress(m)
    ensures ShowsOnly(cfg, setup, source, SdFrame(client, m, result, sequence), client, result, m)
  {
    hide HeaderBytes, ParseHeader, Crc16.Crc, Crc16.HighByte, Crc16.LowByte, CheckFrame, Payload, Authentic,
      ParsePayload, SameSubject;
    PayloadSize(m);
    var h := SdHeader(client, m, result, sequence);
    var body := SdBytes(client, m, result, sequence);
    var d := Crc16.Sealed(body);
    assert d == HeaderBytes(h) + (Payload(m) + d[|body|..]);
    HeaderRoundTrip(h, Payload(m) + d[|body|..]);
    PassedFits(cfg.maxPayloadSize, d);
    if Seen(cfg, setup, source, d).Some? {
      assert PayloadOf(h, d) == Payload(m);
      ParsedShows(m, cfg.addressSize);
    }
  }

  /** Parsing a payload with any address size keeps method, service and event. */
  lemma ParsedShows(m: SdMessage, addressSize: nat)
    ensures match ParsePayload(MethodOf(m), Payload(m), addressSize)
      case None => true
      case Some(x) => SameSubject(x, m)
  {
    hide U16, ReadU16;
    var d := Payload(m);
    assert d[0..2] == U16(m.serviceId);
    U16RoundTrip(m.serviceId, d, 0);
    if m.SubscribeEvent? || m.SubscribeAck? || m.Unsubscribe? {
      assert d[2..4] == U16(m.eventId);
      U16RoundTrip(m.eventId, d, 2);
    }
  }

  lemma CarriedShows(cfg: NodeConfig, setup: Setup, source: Address, sender: NodeConfig, p: Packet, o: Output)
    requires Carries(sender, p, o)
    ensures (o.Broadcast? || o.Unicast?) && ShowsOnly(cfg, setup, source, p.frame, sender.sd.clientId, 0, o.msg)
  {
    hide Payload, SdFrame, Seen;
    var s: u8 :| p.frame == SdFrame(sender.sd.clientId, o.msg, 0, s);
    FrameShows(cfg, setup, source, sender.sd.clientId, o.msg, 0, s);
  }

  lemma SilentSends(l: Link, n: NodeState, n': NodeState, source: Address, d: Bytes, out: seq<Output>)
    requires SendsOrElse(l.p, l.setupP, n, n', source, d, out) && SilentOutputs(l, out)
    ensures SendsSilent(l, n, n')
  {
    hide Seen, Carries, SdFrame, NotDiscovery, Payload;
    forall i | |n.wire| <= i < |n'.wire|
      ensures Silent(l, n'.wire[i].frame)
    {
      var p := n'.wire[i];
      if NotDiscovery(p.frame) {
        NotDiscoveryUnseen(l.c, l.setupC, l.addrP, p.frame);
      } else if SentFrom(l.p, p, out) {
        SilentPacket(l, p, out);
      } else {
        AnswerSilent(l, p, source, d);
      }
    }
  }

  lemma SilentPacket(l: Link, p: Packet, out: seq<Output>)
    requires SentFrom(l.p, p, out) && SilentOutputs(l, out)
    ensures Silent(l, p.frame)
  {
    hide Seen, Carries;
    var k :| 0 <= k < |out| && Carries(l.p, p, out[k]);
    assert out[k] in out;
    CarriedShows(l.c, l.setupC, l.addrP, l.p, p, out[k]);
  }

  lemma AnswerSilent(l: Link, p: Packet, source: Address, d: Bytes)
    requires IsAnswer(l.p, l.setupP, p, source, d)
    ensures Silent(l, p.frame)
  {
    hide Seen, SdFrame, Payload;
    var x := Seen(l.p, l.setupP, source, d).value;
    var granted: u16, rc: u8, s: u8 :| p.frame
      == SdFrame(l.p.sd.clientId, SubscribeAck(x.m.serviceId, x.m.eventId, granted), rc, s);
    FrameShows(l.c, l.setupC, l.addrP, l.p.sd.clientId, SubscribeAck(x.m.serviceId, x.m.eventId, granted), rc, s);
  }

  lemma SilentEmits(l: Link, n: NodeState, n': NodeState, out: seq<Output>)
    requires Emits(l.p, n, n', out) && SilentOutputs(l, out)
    ensures SendsSilent(l, n, n')
  {
    hide Seen, Carries, Reached, Sendable, SentFrom, Silent;
    forall i | |n.wire| <= i < |n'.wire|
      ensures Silent(l, n'.wire[i].frame)
    {
      SilentPacket(l, n'.wire[i], out);
    }
  }

  /** A call, a received message and a cycle before the first offer. */
  lemma SilentStep(l: Link, sd: Sd, e: Event, now: u32)
    requires NotYet(l, sd) && !e.ProcessRenewals? && !e.ProcessTtls? && !e.ProcessFinds?
      && !(e.OfferCall? && e.sid == l.sid)
    ensures var (sd', out) := Step(l.p.sd, sd, e, now);
      NotYet(l, sd') && SilentOutputs(l, out)
  {
    hide SessionId, FindReplies, OffersOutput, FlagResubscribe, OfferDue;
    var s, s' := sd.providers, Step(l.p.sd, sd, e, now).0.providers;
    assert forall k :: 0 <= k < |s| ==> s[k].serviceId != l.sid;
    if e.RxFind? {
      forall o | o in FindReplies(s, sd.localAddr, e.sid, e.source)
        ensures o.Unicast? && o.msg.OfferService? && o.msg.serviceId != l.sid
      {
        RepliesFrom(s, sd.localAddr, e.sid, e.source, o);
      }
    } else if e.ProcessOffers? {
      forall o | o in OffersOutput(s, sd.localAddr, now)
        ensures o.Broadcast? && o.msg.OfferService? && o.msg.serviceId != l.sid
      {
        OffersFrom(s, sd.localAddr, now, o);
      }
    }
    assert forall k :: 0 <= k < |s'| ==> s'[k].serviceId != l.sid;
  }

  lemma SilentCycle(l: Link, n: NodeState, now: u32)
    requires NotYet(l, n.sd)
    ensures var n' := Housekeeping(l.p, n, now);
      NotYet(l, n'.sd) && SendsSilent(l, n, n')
  {
    hide Housekeeping, Emits, Step, RenewalsOutput, TtlsOutput, FindsOutput, NotYet;
    HousekeepingEmits(l.p, n, now);
    var sd := n.sd;
    var (sd1, o1) := Step(l.p.sd, sd, ProcessOffers, now);
    var (sd2, o2) := Step(l.p.sd, sd1, ProcessRenewals, now);
    var (sd3, o3) := Step(l.p.sd, sd2, ProcessTtls, now);
    var (sd4, o4) := Step(l.p.sd, sd3, ProcessFinds, now);
    SilentStep(l, sd, ProcessOffers, now);
    SilentPasses(l, sd1, sd2, sd3, now);
    var out := o1 + o2 + o3 + o4;
    forall o | o in out && (o.Broadcast? || o.Unicast?)
      ensures !(o.msg.OfferService? && o.msg.serviceId == l.sid)
    {
      assert o in o1 || o in o2 || o in o3 || o in o4;
    }
    SilentEmits(l, n, Housekeeping(l.p, n, now), out);
  }

  lemma SilentPasses(l: Link, sd1: Sd, sd2: Sd, sd3: Sd, now: u32)
    requires NotYet(l, sd1)
    requires sd2 == Step(l.p.sd, sd1, ProcessRenewals, now).0 && sd3 == Step(l.p.sd, sd2, ProcessTtls, now).0
    ensures NotYet(l, Step(l.p.sd, sd3, ProcessFinds, now).0)
    ensures SilentOutputs(l, Step(l.p.sd, sd1, ProcessRenewals, now).1)
      && SilentOutputs(l, Step(l.p.sd, sd2, ProcessTtls, now).1)
    ensures SilentOutputs(l, Step(l.p.sd, sd3, ProcessFinds, now).1)
  {
    hide RenewalsOutput, TtlsOutput, FindsOutput, RenewStep, TtlStep, FindStep, GoodMsgToC;
    forall o | o in RenewalsOutput(l.p.sd, sd1.consumers, sd1.trackers, now) && (o.Broadcast? || o.Unicast?)
      ensures !o.msg.OfferService?
    {
      RenewalNotOffer(l, sd1, now, o);
    }
    forall o | o in TtlsOutput(sd2.consumers, now)
      ensures !o.Broadcast? && !o.Unicast?
    {
      TtlsFrom(sd2.consumers, now, o);
    }
    forall o | o in FindsOutput(l.p.sd, sd3.consumers, now) && (o.Broadcast? || o.Unicast?)
      ensures !o.msg.OfferService?
    {
      FindsFrom(l.p.sd, sd3.consumers, now, o);
    }
  }

  lemma RenewalNotOffer(l: Link, sd: Sd, now: u32, o: Output)
    requires o in RenewalsOutput(l.p.sd, sd.consumers, sd.trackers, now)
    ensures o.Unicast? && !o.msg.OfferService?
  {
    hide TimeAfterOrEq, RenewalsOutput;
    RenewalsFrom(l.p.sd, sd.consumers, sd.trackers, now, o);
  }

  lemma SilentReceives(l: Link, n: NodeState, source: Address, d: Bytes, now: u32)
    requires NotYet(l, n.sd)
    ensures var n' := Receive(l.p, l.setupP, n, source, d, now);
      NotYet(l, n'.sd) && SendsSilent(l, n, n')
  {
    hide Receive, Seen, NotYet, SendsOrElse, Step;
    ReceivesAsStep(l.p, l.setupP, n, source, d, now);
    var e := CausedBy(l.p, l.setupP, source, d);
    if e.Some? {
      SilentStep(l, n.sd, e.value, now);
    }
    SilentSends(l, n, Receive(l.p, l.setupP, n, source, d, now), source, d, OutAfter(l.p.sd, n.sd, e, now));
  }

  lemma SilentCalls(l: Link, n: NodeState, e: Event, now: u32)
    requires NotYet(l, n.sd) && IsCall(e) && !(e.OfferCall? && e.sid == l.sid)
    ensures var n' := SdStep(l.p, n, e, now);
      NotYet(l, n'.sd) && SendsSilent(l, n, n')
  {
    hide SdStep, Step, Emits, NotYet;
    SdStepEmits(l.p, n, e, now);
    SilentStep(l, n.sd, e, now);
    SilentEmits(l, n, SdStep(l.p, n, e, now), Step(l.p.sd, n.sd, e, now).1);
  }

  /** The first offer. */
  lemma FirstOfferCall(l: Link, n: NodeState, e: Event, now: u32)
    requires NotYet(l, n.sd) && e.OfferCall? && e.sid == l.sid && e.major == l.major && e.minor == l.minor
    requires (if e.ttl > 0 then e.ttl else l.p.sd.offerTtl) == l.ttl
      && SessionId(l.p.sd.clientId, l.sid, now) == l.session
    ensures var n' := SdStep(l.p, n, e, now);
      && SendsSilent(l, n, n') && n'.wire == n.wire
      && (NotYet(l, n'.sd) || (Offering(l, n'.sd) && EntryP(l, n'.sd).lastOfferMs == now))
  {
    hide SdStep, SessionId, Emits, Silent;
    SdStepEmits(l.p, n, e, now);
    NothingSent(l.p, n, SdStep(l.p, n, e, now), Step(l.p.sd, n.sd, e, now).1);
    var s, s' := n.sd.providers, Step(l.p.sd, n.sd, e, now).0.providers;
    assert forall k :: 0 <= k < |s| ==> s[k].serviceId != l.sid;
    if |s| < l.p.sd.maxServices {
      assert s' == s + [s'[|s|]] && s'[|s|].serviceId == l.sid;
      assert ProviderIndex(s', l.sid) == |s|;
    }
  }

  lemma NothingSent(cfg: NodeConfig, n: NodeState, n': NodeState, out: seq<Output>)
    requires Emits(cfg, n, n', out) && out == []
    ensures n'.wire == n.wire
  {
    hide Carries;
    assert |n.wire| < |n'.wire| ==> SentFrom(cfg, n'.wire[|n.wire|], out);
  }

  // ------------------------------------------------- the consumer before it finds it

  /** The consumer has not heard this boot of the provider. */
  ghost predicate Waiting(l: Link, sd: Sd) {
    DistinctConsumers(sd.consumers) && (ProviderOf(sd.consumers, l.sid) == None || Stale(l, sd))
  }

  /** It has the service from the boot before. */
  ghost predicate Stale(l: Link, sd: Sd) {
    && l.before.Some? && l.before.value != l.session
    && ConsumerIndex(sd.consumers, l.sid) < |sd.consumers|
    && var ce := sd.consumers[ConsumerIndex(sd.consumers, l.sid)];
      ce.state == FOUND && ce.sessionValid && ce.session == l.before.value
  }

  /** The event is the provider's offer, or no offer of the service. */
  ghost predicate Trusted(l: Link, e: Event) {
    e.RxOffer? && e.sid == l.sid ==>
      e.major == l.major && e.ttl == l.ttl && e.session == l.session && e.provider == l.addrP
  }

  /** Nothing but the offer finds the service, and the offer finds it with a full lease. */
  lemma WaitingStep(l: Link, sd: Sd, e: Event, now: u32)
    requires Waiting(l, sd) && Trusted(l, e)
    ensures var sd' := Step(l.c.sd, sd, e, now).0;
      || Waiting(l, sd')
      || (e.RxOffer? && e.sid == l.sid && Following(l, sd') && EntryC(l, sd').ttlExpiryMs == Wrap32(now + 1000 * l.ttl))
  {
    hide Waiting, Following, HandleOffer, Wrap32;
    if e.FindCall? {
      SearchedNotFound(l, sd, e, now);
    } else if e.RxOffer? && e.sid == l.sid {
      WaitingHears(l, sd, now);
    } else {
      WaitingElse(l, sd, e, now);
    }
  }

  lemma WaitingHears(l: Link, sd: Sd, now: u32)
    requires Waiting(l, sd)
    ensures var sd' := HandleOffer(sd, l.sid, l.major, l.ttl, l.session, l.addrP, now).0;
      Waiting(l, sd') || (Following(l, sd') && EntryC(l, sd').ttlExpiryMs == Wrap32(now + 1000 * l.ttl))
  {
    hide Wrap32, FlagResubscribe;
    var s, s' := sd.consumers, HandleOffer(sd, l.sid, l.major, l.ttl, l.session, l.addrP, now).0.consumers;
    if s' != s {
      var i := ConsumerIndex(s, l.sid);
      assert s' == s[i := s'[i]] && s'[i].serviceId == l.sid;
      SameConsumerIndex(s, s', l.sid);
    }
  }

  /** An operation other than `find` and the service's offer leaves its entry, or ends it. */
  lemma WaitingElse(l: Link, sd: Sd, e: Event, now: u32)
    requires Waiting(l, sd) && !e.FindCall? && !(e.RxOffer? && e.sid == l.sid)
    ensures Waiting(l, Step(l.c.sd, sd, e, now).0)
  {
    hide FlagResubscribe, RenewalsStepped, OffersStepped, Offer, StopOffer, SubscribeTo, UnsubscribeFrom, HandleAck,
      Reboot, TtlsOutput, OffersOutput, RenewalsOutput, FindsOutput, FindReplies, NextRetry, TimeAfter,
      TimeAfterOrEq, Wrap32;
    ConsumersDistinct(l.c.sd, sd, e, now);
    ConsumerKeys(l.c.sd, sd, e, now);
    SameConsumerIndex(sd.consumers, Step(l.c.sd, sd, e, now).0.consumers, l.sid);
  }

  lemma SameConsumerIndex(s: seq<ConsumerEntry>, s': seq<ConsumerEntry>, sid: u16)
    requires |s'| == |s| && forall i :: 0 <= i < |s| ==> s'[i].serviceId == s[i].serviceId
    ensures ConsumerIndex(s', sid) == ConsumerIndex(s, sid)
  {
    var i := ConsumerIndex(s, sid);
    assert forall k :: 0 <= k < i ==> s'[k].serviceId != sid;
  }

  lemma SearchedNotFound(l: Link, sd: Sd, e: Event, now: u32)
    requires Waiting(l, sd) && e.FindCall?
    ensures Waiting(l, Step(l.c.sd, sd, e, now).0)
  {
    ConsumersDistinct(l.c.sd, sd, e, now);
    var s, s' := sd.consumers, Step(l.c.sd, sd, e, now).0.consumers;
    var i := ConsumerIndex(s, l.sid);
    if i < |s| {
      assert s'[i].serviceId == l.sid && (s'[i] == s[i] || s'[i].state != FOUND);
      ConsumerIndexIs(s', i);
    } else {
      assert forall k :: 0 <= k < |s| ==> s[k].serviceId != l.sid;
      assert forall k :: 0 <= k < |s'| && s'[k].serviceId == l.sid ==> s'[k].state != FOUND;
    }
  }

  lemma WaitingCycle(l: Link, n: NodeState, now: u32)
    requires Waiting(l, n.sd)
    ensures var n' := Housekeeping(l.c, n, now);
      Waiting(l, n'.sd) && n.wire <= n'.wire
  {
    hide Housekeeping, Step, Waiting;
    HousekeepingEmits(l.c, n, now);
    WaitingStep(l, n.sd, ProcessOffers, now);
    var sd1 := Step(l.c.sd, n.sd, ProcessOffers, now).0;
    WaitingStep(l, sd1, ProcessRenewals, now);
    var sd2 := Step(l.c.sd, sd1, ProcessRenewals, now).0;
    WaitingStep(l, sd2, ProcessTtls, now);
    WaitingStep(l, Step(l.c.sd, sd2, ProcessTtls, now).0, ProcessFinds, now);
  }

  lemma WaitingReceives(l: Link, n: NodeState, source: Address, d: Bytes, now: u32)
    requires Waiting(l, n.sd) && (CausedBy(l.c, l.setupC, source, d).Some? ==>
                                  Trusted(l, CausedBy(l.c, l.setupC, source, d).value))
    ensures var n' := Receive(l.c, l.setupC, n, source, d, now);
      && n.wire <= n'.wire
      && (Waiting(l, n'.sd)
          || (ShowsOffer(l, source, d) && Following(l, n'.sd)
              && EntryC(l, n'.sd).ttlExpiryMs == Wrap32(now + 1000 * l.ttl)))
  {
    hide Receive, Seen, Waiting, Following, Step, Wrap32;
    ReceivesAsStep(l.c, l.setupC, n, source, d, now);
    var e := CausedBy(l.c, l.setupC, source, d);
    if e.Some? {
      WaitingStep(l, n.sd, e.value, now);
    }
  }

  /** The frame shows the consumer some offer of the service. */
  ghost predicate ShowsOffer(l: Link, source: Address, d: Bytes) {
    match Seen(l.c, l.setupC, source, d)
    case None => false
    case Some(x) => x.m.OfferService? && x.m.serviceId == l.sid
  }

  lemma WaitingCalls(l: Link, n: NodeState, e: Event, now: u32)
    requires Waiting(l, n.sd) && IsCall(e)
    ensures var n' := SdStep(l.c, n, e, now);
      Waiting(l, n'.sd) && n.wire <= n'.wire
  {
    hide SdStep, Step, Waiting;
    SdStepEmits(l.c, n, e, now);
    WaitingStep(l, n.sd, e, now);
  }

  // ------------------------------------------------------------------------ phases

  ghost predicate Common(l: Link, s: System) {
    Usable(l) && Bounds(l) && !l.sub && Timely(l, s) && NetGood(l, s.net) && s.cycleP <= s.now
  }

  /** The provider has not offered: no packet shows an offer of the service. */
  ghost predicate NotOffered(l: Link, s: System) {
    && NotYet(l, s.p.sd) && Waiting(l, s.c.sd)
    && forall f :: f in s.net && f.toConsumer ==> Silent(l, f.frame)
  }

  /** The provider offers at least every half lease, and the consumer has not heard it. */
  ghost predicate NotHeard(l: Link, s: System, g: Times) {
    && Offering(l, s.p.sd) && Waiting(l, s.c.sd)
    && EntryP(l, s.p.sd).lastOfferMs == Wrap32(g.offered + l.offP)
    && g.offered <= s.now && s.cycleP <= g.offered + 500 * l.ttl
  }

  /** Every state of a run from power-on: no offer yet, not heard yet, or under lease. */
  ghost predicate OnCourse(l: Link, s: System, g: Times) {
    Common(l, s) && (NotOffered(l, s) || NotHeard(l, s, g) || Inv(l, s, g))
  }

  lemma AllGoodToP(l: Link, n: NodeState, n': NodeState)
    requires !l.sub && n.wire <= n'.wire
    ensures SendsGoodToP(l, n, n')
  {
    hide Seen;
  }

  lemma SilentIsGood(l: Link, n: NodeState, n': NodeState)
    requires !l.sub && SendsSilent(l, n, n')
    ensures SendsGoodToC(l, n, n')
  {
    hide Seen;
    forall i | |n.wire| <= i < |n'.wire|
      ensures GoodToC(l, n'.wire[i].frame)
    {
      assert Silent(l, n'.wire[i].frame);
    }
  }

  lemma MovedSilent(l: Link, s: System, p': NodeState, net: seq<InFlight>)
    requires SendsSilent(l, s.p, p') && forall f :: f in net && f.toConsumer ==> Silent(l, f.frame)
    ensures forall f :: f in MoveP(l, s, p', net).net && f.toConsumer ==> Silent(l, f.frame)
  {
    hide Silent;
    var packets := NewPackets(s.p, p');
    var r := Routed(true, l.addrC, l.addrP, packets, s.now);
    forall f | f in r
      ensures Silent(l, f.frame)
    {
      var i :| 0 <= i < |r| && r[i] == f;
      RoutedFrom(true, l.addrC, l.addrP, packets, s.now, i);
      var k :| 0 <= k < |packets| && f.frame == packets[k].frame
        && (packets[k].dest == None || packets[k].dest == Some(l.addrC));
      assert packets[k] == p'.wire[|s.p.wire| + k];
    }
  }

  lemma MovedSilentC(l: Link, s: System, c': NodeState, net: seq<InFlight>)
    requires forall f :: f in net && f.toConsumer ==> Silent(l, f.frame)
    ensures forall f :: f in MoveC(l, s, c', net).net && f.toConsumer ==> Silent(l, f.frame)
  {
    hide Silent;
    var packets := NewPackets(s.c, c');
    var r := Routed(false, l.addrP, l.addrC, packets, s.now);
    forall f | f in r
      ensures !f.toConsumer
    {
      var i :| 0 <= i < |r| && r[i] == f;
      RoutedFrom(false, l.addrP, l.addrC, packets, s.now, i);
    }
  }

  /** The provider moves before its first offer. */
  lemma QuietP(l: Link, s: System, p': NodeState, net: seq<InFlight>)
    requires Common(l, s) && NotOffered(l, s) && NotYet(l, p'.sd) && SendsSilent(l, s.p, p')
    requires NetGood(l, net) && (forall f :: f in net ==> f in s.net) && Timely(l, MoveP(l, s, p', net))
    ensures var s' := MoveP(l, s, p', net); Common(l, s') && NotOffered(l, s')
  {
    hide Timely, NetGood, Silent, SendsSilent, NotYet, Waiting, MoveP, SendsGoodToC, Usable, Bounds;
    SilentIsGood(l, s.p, p');
    MovedP(l, s, p', net);
    MovedSilent(l, s, p', net);
    MoveFrame(l, s, p', s.c, net);
  }

  /** The consumer moves and still waits. */
  lemma QuietC(l: Link, s: System, c': NodeState, net: seq<InFlight>, g: Times)
    requires Common(l, s) && (NotOffered(l, s) || NotHeard(l, s, g)) && Waiting(l, c'.sd) && s.c.wire <= c'.wire
    requires NetGood(l, net) && (forall f :: f in net ==> f in s.net) && Timely(l, MoveC(l, s, c', net))
    ensures var s' := MoveC(l, s, c', net); Common(l, s') && (NotOffered(l, s') || NotHeard(l, s', g))
  {
    hide Timely, NetGood, Silent, NotYet, Waiting, MoveC, SendsGoodToP, Usable, Bounds, Offering, EntryP, Wrap32;
    AllGoodToP(l, s.c, c');
    MovedC(l, s, c', net);
    if NotOffered(l, s) {
      MovedSilentC(l, s, c', net);
    }
    MoveFrame(l, s, s.p, c', net);
  }

  /** The consumer hears the offer: the lease begins. */
  lemma HeardC(l: Link, s: System, c': NodeState, net: seq<InFlight>, g: Times)
    requires Common(l, s) && NotHeard(l, s, g) && s.c.wire <= c'.wire
    requires Following(l, c'.sd) && EntryC(l, c'.sd).ttlExpiryMs == Wrap32(ClockC(l, s) + 1000 * l.ttl)
    requires NetGood(l, net) && (forall f :: f in net ==> f in s.net) && Timely(l, MoveC(l, s, c', net))
    ensures Inv(l, MoveC(l, s, c', net), g.(offerEnd := s.now + 1000 * l.ttl))
  {
    hide Timely, NetGood, Waiting, MoveC, SendsGoodToP, Usable, Offering, Following, EntryP, EntryC, Wrap32,
      OfferComing;
    AllGoodToP(l, s.c, c');
    MovedC(l, s, c', net);
    MoveFrame(l, s, s.p, c', net);
    WrapSum(s.now + l.offC, 1000 * l.ttl);
  }

  /** The provider moves and keeps offering; the consumer has not heard it. */
  lemma OfferingP(l: Link, s: System, p': NodeState, net: seq<InFlight>, g: Times)
    requires Common(l, s) && NotHeard(l, s, g) && Offering(l, p'.sd) && EntryP(l, p'.sd) == EntryP(l, s.p.sd)
      && SendsGoodToC(l, s.p, p')
    requires NetGood(l, net) && Timely(l, MoveP(l, s, p', net))
    ensures var s' := MoveP(l, s, p', net); Common(l, s') && NotHeard(l, s', g)
  {
    hide Timely, NetGood, Waiting, MoveP, SendsGoodToC, Usable, Bounds, Offering, EntryP, Wrap32;
    MovedP(l, s, p', net);
    MoveFrame(l, s, p', s.c, net);
  }

  // -------------------------------------------------------------- one action at a time

  /** What the consumer may receive before the lease is no false offer. */
  lemma NetTrusted(l: Link, s: System, i: nat)
    requires NetGood(l, s.net) && !l.sub && i < |s.net| && s.net[i].toConsumer
    ensures var e := CausedBy(l.c, l.setupC, s.net[i].source, s.net[i].frame); e.Some? ==> Trusted(l, e.value)
  {
    hide Seen;
    FrameGood(l, s.net, i);
  }

  lemma ForeignTrusted(l: Link, source: Address, d: Bytes)
    requires BenignToC(l, source, d)
    ensures var e := CausedBy(l.c, l.setupC, source, d); e.Some? ==> Trusted(l, e.value)
    ensures !ShowsOffer(l, source, d)
  {
    hide Seen;
  }

  lemma SilentShowsNone(l: Link, f: InFlight)
    requires f.source == l.addrP && Silent(l, f.frame)
    ensures !ShowsOffer(l, f.source, f.frame)
  {
    hide Seen;
  }

  lemma RestWithin(net: seq<InFlight>, i: nat)
    requires i < |net|
    ensures forall f :: f in Without(net, i) ==> f in net
  {
  }

  /** The provider's actions before its first offer. */
  lemma BeforeP(l: Link, s: System, a: Action, g: Times) returns (g': Times)
    requires Common(l, s) && NotOffered(l, s) && Enabled(l, s, a) && Timely(l, Next(l, s, a))
    requires a.DeliverToP? || a.ForeignToP? || a.HousekeepP? || a.CallP? || a.RegisterP?
    ensures OnCourse(l, Next(l, s, a), g')
  {
    hide Timely, NetGood, NotYet, Waiting, SendsSilent, Silent, Receive, Housekeeping, SdStep, Usable, Bounds, Inv,
      MoveP, BenignToP;
    g' := g;
    match a
    case DeliverToP(i) =>
      Rest(l, s.net, i);
      RestWithin(s.net, i);
      SilentReceives(l, s.p, s.net[i].source, s.net[i].frame, ClockP(l, s));
      QuietP(l, s, Receive(l.p, l.setupP, s.p, s.net[i].source, s.net[i].frame, ClockP(l, s)), Without(s.net, i));
    case ForeignToP(source, frame) =>
      SilentReceives(l, s.p, source, frame, ClockP(l, s));
      QuietP(l, s, Receive(l.p, l.setupP, s.p, source, frame, ClockP(l, s)), s.net);
    case HousekeepP =>
      SilentCycle(l, s.p, ClockP(l, s));
      var p' := Housekeeping(l.p, s.p, ClockP(l, s));
      CyclesDoNotMatter(l, s, p');
      QuietP(l, s, p', s.net);
      MoveFrame(l, s, p', s.c, s.net);
      CycleNow(l, MoveP(l, s, p', s.net), s.now);
    case CallP(e) =>
      if e.OfferCall? && e.sid == l.sid {
        g' := OffersNow(l, s, e, g);
      } else {
        SilentCalls(l, s.p, e, ClockP(l, s));
        QuietP(l, s, SdStep(l.p, s.p, e, ClockP(l, s)), s.net);
      }
    case RegisterP(sid, eid) =>
      OnlyEvents(l, s, Next(l, s, a));
    case _ =>
  }

  /** A cycle that ends now was in time before it ended, if it is in time after. */
  lemma CyclesDoNotMatter(l: Link, s: System, p': NodeState)
    requires Common(l, s) && Timely(l, MoveP(l, s, p', s.net).(cycleP := s.now))
    ensures Timely(l, MoveP(l, s, p', s.net))
  {
  }

  lemma CycleNow(l: Link, s: System, now: nat)
    requires Common(l, s) && NotOffered(l, s) && s.now == now
    ensures Common(l, s.(cycleP := now)) && NotOffered(l, s.(cycleP := now))
  {
    hide NetGood, NotYet, Waiting, Silent, Usable;
  }

  lemma OnlyEvents(l: Link, s: System, s': System)
    requires Common(l, s) && NotOffered(l, s) && s' == s.(p := s'.p) && s'.p == s.p.(events := s'.p.events)
    ensures Common(l, s') && NotOffered(l, s')
  {
    hide NetGood, Waiting, Silent, Usable;
  }

  /** The first offer: the lease of the provider's side begins. */
  lemma OffersNow(l: Link, s: System, e: Event, g: Times) returns (g': Times)
    requires Common(l, s) && NotOffered(l, s) && Enabled(l, s, CallP(e)) && e.OfferCall? && e.sid == l.sid
    requires Timely(l, Next(l, s, CallP(e)))
    ensures OnCourse(l, Next(l, s, CallP(e)), g')
  {
    hide Timely, Common, Waiting, SendsSilent, Silent, SdStep, Inv, MoveP, Offering, EntryP, NotHeard, SessionId,
      Wrap32, NotYet;
    g' := g.(offered := s.now);
    var p' := SdStep(l.p, s.p, e, ClockP(l, s));
    NetOf(l, s);
    FirstOfferCall(l, s.p, e, ClockP(l, s));
    if NotYet(l, p'.sd) {
      QuietP(l, s, p', s.net);
    } else {
      OfferBegins(l, s, p', g);
    }
  }

  lemma NetOf(l: Link, s: System)
    requires Common(l, s)
    ensures NetGood(l, s.net)
  {
    hide NetGood;
  }

  lemma OfferBegins(l: Link, s: System, p': NodeState, g: Times)
    requires Common(l, s) && NotOffered(l, s) && Timely(l, MoveP(l, s, p', s.net)) && SendsSilent(l, s.p, p')
    requires Offering(l, p'.sd) && EntryP(l, p'.sd).lastOfferMs == ClockP(l, s)
    ensures var s' := MoveP(l, s, p', s.net); Common(l, s') && NotHeard(l, s', g.(offered := s.now))
  {
    hide Timely, NetGood, NotYet, Waiting, SendsSilent, Silent, Usable, Bounds, MoveP, SendsGoodToC, Offering, EntryP,
      Wrap32;
    SilentIsGood(l, s.p, p');
    MovedP(l, s, p', s.net);
    MoveFrame(l, s, p', s.c, s.net);
  }

  /** The consumer's actions before it hears the offer. */
  lemma BeforeC(l: Link, s: System, a: Action, g: Times) returns (g': Times)
    requires Common(l, s) && (NotOffered(l, s) || NotHeard(l, s, g)) && Enabled(l, s, a) && Timely(l, Next(l, s, a))
    requires a.DeliverToC? || a.ForeignToC? || a.HousekeepC? || a.CallC?
    ensures OnCourse(l, Next(l, s, a), g')
  {
    hide Timely, NetGood, NotOffered, NotHeard, Waiting, Silent, Receive, Housekeeping, SdStep, Usable, Bounds, Inv,
      MoveC, BenignToC, Trusted, ShowsOffer;
    g' := g;
    WaitsYet(l, s, g);
    match a
    case DeliverToC(i) =>
      g' := HearsFrame(l, s, i, g);
    case ForeignToC(source, frame) =>
      ForeignTrusted(l, source, frame);
      WaitingReceives(l, s.c, source, frame, ClockC(l, s));
      QuietC(l, s, Receive(l.c, l.setupC, s.c, source, frame, ClockC(l, s)), s.net, g);
    case HousekeepC =>
      WaitingCycle(l, s.c, ClockC(l, s));
      var c' := Housekeeping(l.c, s.c, ClockC(l, s));
      CycleCNow(l, s, c', g);
    case CallC(e) =>
      WaitingCalls(l, s.c, e, ClockC(l, s));
      QuietC(l, s, SdStep(l.c, s.c, e, ClockC(l, s)), s.net, g);
    case _ =>
  }

  lemma WaitsYet(l: Link, s: System, g: Times)
    requires NotOffered(l, s) || NotHeard(l, s, g)
    ensures Waiting(l, s.c.sd)
  {
  }

  lemma CycleCNow(l: Link, s: System, c': NodeState, g: Times)
    requires Common(l, s) && (NotOffered(l, s) || NotHeard(l, s, g)) && Waiting(l, c'.sd) && s.c.wire <= c'.wire
    requires Timely(l, MoveC(l, s, c', s.net).(cycleC := s.now))
    ensures var s' := MoveC(l, s, c', s.net).(cycleC := s.now);
      Common(l, s') && (NotOffered(l, s') || NotHeard(l, s', g))
  {
    hide NetGood, NotYet, Waiting, Silent, Usable, Bounds, Offering, EntryP, Wrap32;
    var m := MoveC(l, s, c', s.net);
    assert Timely(l, m);
    QuietC(l, s, c', s.net, g);
  }

  lemma HearsFrame(l: Link, s: System, i: nat, g: Times) returns (g': Times)
    requires Common(l, s) && (NotOffered(l, s) || NotHeard(l, s, g)) && Enabled(l, s, DeliverToC(i))
      && Timely(l, Next(l, s, DeliverToC(i)))
    ensures OnCourse(l, Next(l, s, DeliverToC(i)), g')
  {
    hide Timely, NetGood, NotYet, NotHeard, Waiting, Silent, Receive, Usable, Bounds, Inv, MoveC, Trusted, ShowsOffer,
      Following;
    g' := g;
    var f := s.net[i];
    var c' := Receive(l.c, l.setupC, s.c, f.source, f.frame, ClockC(l, s));
    WaitsYet(l, s, g);
    FrameGood(l, s.net, i);
    NetTrusted(l, s, i);
    Rest(l, s.net, i);
    RestWithin(s.net, i);
    WaitingReceives(l, s.c, f.source, f.frame, ClockC(l, s));
    if Waiting(l, c'.sd) {
      QuietC(l, s, c', Without(s.net, i), g);
    } else {
      if NotOffered(l, s) {
        assert f in s.net;
        SilentShowsNone(l, f);
      }
      HeardC(l, s, c', Without(s.net, i), g);
      g' := g.(offerEnd := s.now + 1000 * l.ttl);
      OrderedMoveC(l, s, c', Without(s.net, i), g');
    }
  }

  lemma OrderedMoveC(l: Link, s: System, c': NodeState, net: seq<InFlight>, g: Times)
    requires Common(l, s) && Inv(l, MoveC(l, s, c', net), g)
    ensures OnCourse(l, MoveC(l, s, c', net), g)
  {
  }

  /** The provider's actions while it offers and the consumer has not heard it. */
  lemma OffersP(l: Link, s: System, a: Action, g: Times) returns (g': Times)
    requires Common(l, s) && NotHeard(l, s, g) && Enabled(l, s, a) && Timely(l, Next(l, s, a))
    requires a.DeliverToP? || a.ForeignToP? || a.HousekeepP? || a.CallP? || a.RegisterP?
    ensures OnCourse(l, Next(l, s, a), g')
  {
    hide Timely, NetGood, Waiting, Receive, SdStep, Usable, Bounds, Inv, MoveP, BenignToP, Offering, EntryP,
      SendsGoodToC, Housekeeping, GoodToP, Wrap32, OfferDue;
    g' := g;
    match a
    case DeliverToP(i) =>
      FrameGood(l, s.net, i);
      Rest(l, s.net, i);
      ProviderReceives(l, s.p, s.net[i].source, s.net[i].frame, ClockP(l, s));
      OfferingP(l, s, Receive(l.p, l.setupP, s.p, s.net[i].source, s.net[i].frame, ClockP(l, s)), Without(s.net, i), g);
    case ForeignToP(source, frame) =>
      ProviderReceives(l, s.p, source, frame, ClockP(l, s));
      OfferingP(l, s, Receive(l.p, l.setupP, s.p, source, frame, ClockP(l, s)), s.net, g);
    case HousekeepP =>
      g' := OffersCycle(l, s, g);
    case CallP(e) =>
      AlreadyOffered(l, s.p.sd);
      ProviderCalls(l, s.p, e, ClockP(l, s));
      OfferingP(l, s, SdStep(l.p, s.p, e, ClockP(l, s)), s.net, g);
    case RegisterP(sid, eid) =>
      RegistersWhileOffering(l, s, Next(l, s, a), g);
    case _ =>
  }

  lemma AlreadyOffered(l: Link, sd: Sd)
    requires Offering(l, sd)
    ensures ProviderIndex(sd.providers, l.sid) < |sd.providers|
  {
  }

  lemma RegistersWhileOffering(l: Link, s: System, s': System, g: Times)
    requires Common(l, s) && NotHeard(l, s, g) && s' == s.(p := s'.p) && s'.p == s.p.(events := s'.p.events)
    ensures Common(l, s') && NotHeard(l, s', g)
  {
    hide NetGood, Waiting, Offering, Usable, Wrap32;
  }

  lemma OffersCycle(l: Link, s: System, g: Times) returns (g': Times)
    requires Common(l, s) && NotHeard(l, s, g) && Timely(l, Next(l, s, HousekeepP))
    ensures OnCourse(l, Next(l, s, HousekeepP), g')
  {
    hide Timely, NetGood, Waiting, Usable, Inv, MoveP, Offering, EntryP, SendsGoodToC, Housekeeping, Wrap32, OfferDue,
      TimeAfterOrEq;
    var p' := Housekeeping(l.p, s.p, ClockP(l, s));
    ProviderCycle(l, s.p, ClockP(l, s));
    MovedP(l, s, p', s.net);
    MoveFrame(l, s, p', s.c, s.net);
    DueInTime(l, s, g);
    g' := if OfferDue(EntryP(l, s.p.sd), ClockP(l, s)) then g.(offered := s.now) else g;
  }

  lemma DueInTime(l: Link, s: System, g: Times)
    requires Common(l, s) && NotHeard(l, s, g)
    ensures s.now >= g.offered + 500 * l.ttl ==> OfferDue(EntryP(l, s.p.sd), ClockP(l, s))
  {
    hide NetGood, Waiting, Wrap32, TimeAfterOrEq, TimeAfter;
    assert s.now <= g.offered + 1000 * l.ttl;
    Deadline(EntryP(l, s.p.sd).lastOfferMs, g.offered, l.offP, 500 * l.ttl, s.now);
  }

  lemma WaitTicks(l: Link, s: System, d: nat, g: Times)
    requires Common(l, s) && (NotOffered(l, s) || NotHeard(l, s, g)) && Timely(l, Next(l, s, Tick(d)))
    ensures OnCourse(l, Next(l, s, Tick(d)), g)
  {
    hide NetGood, Waiting, NotYet, Silent, Offering, Usable, Wrap32, Inv, EntryP;
  }

  lemma UnderLease(l: Link, s: System, a: Action, g: Times)
    requires Common(l, s) && Inv(l, s, g) && Enabled(l, s, a) && Timely(l, Next(l, s, a))
    ensures OnCourse(l, Next(l, s, a), NextTimes(l, s, a, g)) && NoLoss(l, s.c, Next(l, s, a).c)
  {
    hide OfferLease, Offering, Following, Receive, Housekeeping, SdStep, SubInv;
    LeaseStep(l, s, a, g);
    CycleOrder(l, s, a);
  }

  lemma CycleOrder(l: Link, s: System, a: Action)
    requires s.cycleP <= s.now && Enabled(l, s, a)
    ensures Next(l, s, a).cycleP <= Next(l, s, a).now
  {
    hide Receive, Housekeeping, SdStep, BenignToP, BenignToC;
  }

  /** One action keeps the course, and once the service is found it is kept. */
  lemma CourseStep(l: Link, s: System, a: Action, g: Times) returns (g': Times)
    requires OnCourse(l, s, g) && Enabled(l, s, a) && Timely(l, Next(l, s, a))
    ensures OnCourse(l, Next(l, s, a), g')
  {
    hide Common, NotOffered, NotHeard, Inv, Timely, Next, Enabled;
    if Inv(l, s, g) {
      UnderLease(l, s, a, g);
      g' := NextTimes(l, s, a, g);
    } else if a.Tick? {
      WaitTicks(l, s, a.d, g);
      g' := g;
    } else if a.DeliverToC? || a.ForeignToC? || a.HousekeepC? || a.CallC? {
      g' := BeforeC(l, s, a, g);
    } else if NotOffered(l, s) {
      g' := BeforeP(l, s, a, g);
    } else {
      g' := OffersP(l, s, a, g);
    }
  }

  lemma {:induction false} CourseRun(l: Link, s: System, run: seq<Action>, g: Times) returns (g': Times)
    requires OnCourse(l, s, g) && IsRun(l, s, run)
    ensures OnCourse(l, After(l, s, run), g')
    decreases |run|
  {
    hide OnCourse, Timely, Next, Enabled;
    g' := g;
    if run != [] {
      var g1 := CourseStep(l, s, run[0], g);
      g' := CourseRun(l, Next(l, s, run[0]), run[1..], g1);
    }
  }

  lemma PowerOnCourse(l: Link, t: nat, slotsP: nat, slotsC: nat)
    requires Usable(l) && Bounds(l) && !l.sub
    ensures OnCourse(l, PowerOn(l, t, slotsP, slotsC), Times(0, 0, 0, 0))
  {
  }

  lemma FoundIsLeased(l: Link, s: System, g: Times)
    requires OnCourse(l, s, g) && ProviderOf(s.c.sd.consumers, l.sid).Some? && !Stale(l, s.c.sd)
    ensures Inv(l, s, g)
  {
    hide Inv, Common, Silent;
  }

  /** The offer lease on every timely run from power-on, across wrap of both clocks: once the
      consumer has found the service it has it at the provider's address for the rest of
      the run, and the application never hears that it was lost. */
  lemma OnceFoundKept(l: Link, t: nat, slotsP: nat, slotsC: nat, before: seq<Action>, after: seq<Action>)
    requires Usable(l) && Bounds(l) && !l.sub
    requires IsRun(l, PowerOn(l, t, slotsP, slotsC), before)
    requires ProviderOf(After(l, PowerOn(l, t, slotsP, slotsC), before).c.sd.consumers, l.sid).Some?
    requires IsRun(l, After(l, PowerOn(l, t, slotsP, slotsC), before), after)
    ensures var s := After(l, PowerOn(l, t, slotsP, slotsC), before);
      var s' := After(l, s, after);
      && ProviderOf(s.c.sd.consumers, l.sid) == Some(l.addrP)
      && ProviderOf(s'.c.sd.consumers, l.sid) == Some(l.addrP)
      && s.c.app <= s'.c.app && Discovered(LostCallback(l.sid)) !in s'.c.app[|s.c.app|..]
  {
    hide IsRun, After, OnCourse, Inv, PowerOn, Usable, Bounds;
    var first := FirstBoot(l);
    var start := PowerOn(l, t, slotsP, slotsC);
    FirstBootBounds(l);
    FirstBootRun(l, start, before);
    PowerOnCourse(first, t, slotsP, slotsC);
    assert PowerOn(first, t, slotsP, slotsC) == start by { SamePowerOn(l, t, slotsP, slotsC); }
    var g := CourseRun(first, start, before, Times(0, 0, 0, 0));
    var s := After(l, start, before);
    FirstBootRun(l, s, after);
    FoundIsLeased(first, s, g);
    InvFound(first, s, g);
    OfferLeaseHolds(first, s, after, g);
  }

  /** From power-on there is no boot before. */
  function FirstBoot(l: Link): Link {
    l.(before := None)
  }

  lemma SamePowerOn(l: Link, t: nat, slotsP: nat, slotsC: nat)
    ensures PowerOn(FirstBoot(l), t, slotsP, slotsC) == PowerOn(l, t, slotsP, slotsC)
  {
  }

  lemma FirstBootBounds(l: Link)
    ensures Usable(FirstBoot(l)) == Usable(l) && Bounds(FirstBoot(l)) == Bounds(l)
  {
  }

  lemma FirstBootStep(l: Link, s: System, a: Action)
    requires Enabled(l, s, a)
    ensures Enabled(FirstBoot(l), s, a) && Next(FirstBoot(l), s, a) == Next(l, s, a)
    ensures Timely(FirstBoot(l), Next(l, s, a)) == Timely(l, Next(l, s, a))
  {
    hide Seen, Receive, Housekeeping, SdStep;
  }

  lemma {:induction false} FirstBootRun(l: Link, s: System, run: seq<Action>)
    requires IsRun(l, s, run)
    ensures IsRun(FirstBoot(l), s, run) && After(FirstBoot(l), s, run) == After(l, s, run)
    decreases |run|
  {
    hide Enabled, Next, Timely;
    if run != [] {
      FirstBootStep(l, s, run[0]);
      FirstBootRun(l, Next(l, s, run[0]), run[1..]);
    }
  }

  lemma InvFound(l: Link, s: System, g: Times)
    requires Inv(l, s, g)
    ensures ProviderOf(s.c.sd.consumers, l.sid) == Some(l.addrP)
  {
    FoundAt(l, s, g);
  }
}
