/** The provider's side of both leases, one action at a time. */
module LeaseProvider {
  import opened Words
  import opened Wire
  import opened SdMessages
  import opened DiscoverySpec
  import opened Frame
  import opened Node
  import opened NodeEffects
  import opened NodeOutputs
  import opened LeaseSystem
  import E2E = E2EProtection
  import EM = EventManager

  /** What the consumer may see in a frame from the provider. */
  ghost predicate GoodToC(l: Link, frame: Bytes) {
    match Seen(l.c, l.setupC, l.addrP, frame)
    case None => true
    case Some(x) => GoodMsgToC(l, x.result, x.m)
  }

  ghost predicate GoodMsgToC(l: Link, result: u8, m: SdMessage) {
    && (m.OfferService? && m.serviceId == l.sid ==> m == OfferMsg(l))
    && (l.sub && m.SubscribeAck? && m.serviceId == l.sid && m.eventId == l.eid ==> result == 0 && m.ttl == Granted(l))
  }

  ghost predicate IsOffer(l: Link, frame: Bytes) {
    Seen(l.c, l.setupC, l.addrP, frame) == Some(SdSeen(l.p.sd.clientId, 0, OfferMsg(l)))
  }

  ghost predicate IsAck(l: Link, frame: Bytes) {
    Seen(l.c, l.setupC, l.addrP, frame) == Some(SdSeen(l.p.sd.clientId, 0, SubscribeAck(l.sid, l.eid, Granted(l))))
  }

  /** What the provider may see in a frame from the consumer. */
  ghost predicate GoodToP(l: Link, frame: Bytes) {
    match Seen(l.p, l.setupP, l.addrC, frame)
    case None => true
    case Some(x) => GoodMsgToP(l, x.client, x.m)
  }

  ghost predicate GoodMsgToP(l: Link, client: u16, m: SdMessage) {
    && (l.sub && m.SubscribeEvent? && m.serviceId == l.sid && m.eventId == l.eid ==>
        client == l.c.sd.clientId && m.ttl == l.requested)
    && (l.sub && m.Unsubscribe? ==> !(m.serviceId == l.sid && m.eventId == l.eid))
  }

  ghost predicate IsSubscribe(l: Link, frame: Bytes) {
    Seen(l.p, l.setupP, l.addrC, frame) == Some(SdSeen(l.c.sd.clientId, 0, SubscribeEvent(l.sid, l.eid, l.requested)))
  }

  // ------------------------------------------------------------- provider invariant

  ghost predicate DistinctProviders(s: seq<ProviderEntry>) {
    forall i, j :: 0 <= i < j < |s| ==> s[i].serviceId != s[j].serviceId
  }

  ghost predicate Offering(l: Link, sd: Sd) {
    && DistinctProviders(sd.providers) && sd.localAddr == l.addrP
    && ProviderIndex(sd.providers, l.sid) < |sd.providers|
    && var pe := sd.providers[ProviderIndex(sd.providers, l.sid)];
      pe.offered && pe.major == l.major && pe.minor == l.minor && pe.ttl == l.ttl && pe.session == l.session
  }

  ghost function EntryP(l: Link, sd: Sd): ProviderEntry
    requires Offering(l, sd)
  {
    sd.providers[ProviderIndex(sd.providers, l.sid)]
  }

  ghost predicate Leasing(l: Link, events: seq<EM.EventSlot>) {
    EM.WellFormed(events, l.p.limits) && EM.Lease(events, l.sid, l.eid, l.c.sd.clientId).Some?
  }

  ghost function LeaseP(l: Link, events: seq<EM.EventSlot>): EM.Subscriber
    requires Leasing(l, events)
  {
    EM.Lease(events, l.sid, l.eid, l.c.sd.clientId).value
  }

  ghost predicate ProviderOk(l: Link, n: NodeState) {
    Offering(l, n.sd) && (l.sub ==> Leasing(l, n.events))
  }

  /** The subscriber's entry stays as it is. */
  ghost predicate LeaseStays(l: Link, events: seq<EM.EventSlot>, events': seq<EM.EventSlot>) {
    l.sub ==> Leasing(l, events) && Leasing(l, events') && LeaseP(l, events') == LeaseP(l, events)
  }

  /** The subscriber's entry is new: its lease starts now. */
  ghost predicate LeaseStarts(l: Link, events': seq<EM.EventSlot>, source: Address, now: u32) {
    Leasing(l, events') && LeaseP(l, events')
      == EM.Subscriber(l.c.sd.clientId, source, EM.Expiry(l.requested, l.p.limits, now))
  }

  /** Every new packet that reaches the consumer is good. */
  ghost predicate SendsGoodToC(l: Link, n: NodeState, n': NodeState) {
    && n.wire <= n'.wire
    && forall i :: |n.wire| <= i < |n'.wire| && (n'.wire[i].dest == None || n'.wire[i].dest == Some(l.addrC)) ==>
      GoodToC(l, n'.wire[i].frame)
  }

  // ------------------------------------------------------------ messages in packets

  /** What the consumer sees in a packet that carries an output of the provider. */
  lemma CarriedSeenByC(l: Link, p: Packet, o: Output)
    requires Usable(l) && Carries(l.p, p, o) && (o.msg.OfferService? ==> |o.msg.provider| == l.c.addressSize)
    ensures Seen(l.c, l.setupC, l.addrP, p.frame) == Some(SdSeen(l.p.sd.clientId, 0, o.msg))
  {
    hide Payload, SdFrame, Seen;
    var s: u8 :| p.frame == SdFrame(l.p.sd.clientId, o.msg, 0, s);
    PayloadSize(o.msg);
    SdFrameSeen(l.c, l.setupC, l.addrP, l.p.sd.clientId, o.msg, 0, s);
  }

  lemma PayloadSize(m: SdMessage)
    ensures |Payload(m)| <= 8 + (if m.OfferService? then |m.provider| else 0)
  {
    hide U16;
  }

  ghost predicate GoodOutputs(l: Link, out: seq<Output>) {
    forall o :: o in out && (o.Broadcast? || o.Unicast?) ==>
      GoodMsgToC(l, 0, o.msg) && (o.msg.OfferService? ==> |o.msg.provider| == l.c.addressSize)
  }

  lemma EmitsGood(l: Link, n: NodeState, n': NodeState, out: seq<Output>)
    requires Usable(l) && Emits(l.p, n, n', out) && GoodOutputs(l, out)
    ensures SendsGoodToC(l, n, n')
  {
    hide Seen, Carries, GoodMsgToC, Sendable, Reached;
    forall i | |n.wire| <= i < |n'.wire|
      ensures GoodToC(l, n'.wire[i].frame)
    {
      assert SentFrom(l.p, n'.wire[i], out);
      var k :| 0 <= k < |out| && Carries(l.p, n'.wire[i], out[k]);
      assert out[k] in out;
      CarriesMessage(l.p, n'.wire[i], out[k]);
      CarriedSeenByC(l, n'.wire[i], out[k]);
    }
  }

  lemma CarriesMessage(cfg: NodeConfig, p: Packet, o: Output)
    requires Carries(cfg, p, o)
    ensures o.Broadcast? || o.Unicast?
  {
  }

  /** Offers of one's own service are the offer; all other messages do not concern it. */
  lemma OwnOfferGood(l: Link, sd: Sd, i: nat)
    requires Usable(l) && Offering(l, sd) && i < |sd.providers|
    ensures GoodMsgToC(l, 0, OfferOf(sd.providers[i], sd.localAddr))
    ensures |OfferOf(sd.providers[i], sd.localAddr).provider| == l.c.addressSize
  {
  }

  // ------------------------------------------------------------------- housekeeping

  lemma FourPassesGood(l: Link, sd: Sd, now: u32)
    requires Usable(l) && Offering(l, sd)
    ensures var (sd', out) := FourPasses(l.p.sd, sd, now);
      && Offering(l, sd') && EntryP(l, sd') == OfferStep(EntryP(l, sd), l.addrP, now).0
      && GoodOutputs(l, out)
      && (OfferDue(EntryP(l, sd), now) ==> Broadcast(OfferMsg(l)) in out)
  {
    hide OfferDue, NextRetry, TimeAfter, TimeAfterOrEq, RenewStep, FindStep, TtlStep, OffersOutput, RenewalsOutput,
      TtlsOutput, FindsOutput;
    var (sd1, o1) := Step(l.p.sd, sd, ProcessOffers, now);
    var (sd2, o2) := Step(l.p.sd, sd1, ProcessRenewals, now);
    var (sd3, o3) := Step(l.p.sd, sd2, ProcessTtls, now);
    var (sd4, o4) := Step(l.p.sd, sd3, ProcessFinds, now);
    ProvidersStepped(l, sd, now);
    PassOutputsGood(l, sd, now);
    RenewalsGood(l, sd1, now);
    TtlsGood(l, sd2, now);
    FindsGood(l, sd3, now);
    var out := o1 + o2 + o3 + o4;
    forall o | o in out && (o.Broadcast? || o.Unicast?)
      ensures GoodMsgToC(l, 0, o.msg) && (o.msg.OfferService? ==> |o.msg.provider| == l.c.addressSize)
    {
      assert o in o1 || o in o2 || o in o3 || o in o4;
    }
    if OfferDue(EntryP(l, sd), now) {
      OfferAmong(sd.providers, sd.localAddr, now, ProviderIndex(sd.providers, l.sid));
    }
  }

  lemma ProvidersStepped(l: Link, sd: Sd, now: u32)
    requires Offering(l, sd)
    ensures var sd' := Step(l.p.sd, sd, ProcessOffers, now).0;
      Offering(l, sd') && EntryP(l, sd') == OfferStep(EntryP(l, sd), l.addrP, now).0
  {
    hide OfferDue, OffersOutput;
    var s, s' := sd.providers, OffersStepped(sd.providers, sd.localAddr, now);
    assert forall k :: 0 <= k < |s| ==> s'[k].serviceId == s[k].serviceId;
    var i := ProviderIndex(s, l.sid);
    assert ProviderIndex(s', l.sid) == i;
  }

  lemma PassOutputsGood(l: Link, sd: Sd, now: u32)
    requires Usable(l) && Offering(l, sd)
    ensures GoodOutputs(l, OffersOutput(sd.providers, sd.localAddr, now))
  {
    hide OffersOutput, GoodMsgToC, Offering;
    forall o | o in OffersOutput(sd.providers, sd.localAddr, now) && (o.Broadcast? || o.Unicast?)
      ensures GoodMsgToC(l, 0, o.msg) && (o.msg.OfferService? ==> |o.msg.provider| == l.c.addressSize)
    {
      OffersFrom(sd.providers, sd.localAddr, now, o);
      var i :| 0 <= i < |sd.providers| && o == Broadcast(OfferOf(sd.providers[i], sd.localAddr));
      OwnOfferGood(l, sd, i);
    }
  }

  lemma RepliesGood(l: Link, sd: Sd, sid: u16, source: Address)
    requires Usable(l) && Offering(l, sd)
    ensures GoodOutputs(l, FindReplies(sd.providers, sd.localAddr, sid, source))
  {
    hide FindReplies, GoodMsgToC, Offering;
    forall o | o in FindReplies(sd.providers, sd.localAddr, sid, source) && (o.Broadcast? || o.Unicast?)
      ensures GoodMsgToC(l, 0, o.msg) && (o.msg.OfferService? ==> |o.msg.provider| == l.c.addressSize)
    {
      RepliesFrom(sd.providers, sd.localAddr, sid, source, o);
      var i :| 0 <= i < |sd.providers| && o == Unicast(source, OfferOf(sd.providers[i], sd.localAddr));
      OwnOfferGood(l, sd, i);
    }
  }

  lemma RenewalsGood(l: Link, sd: Sd, now: u32)
    ensures GoodOutputs(l, RenewalsOutput(l.p.sd, sd.consumers, sd.trackers, now))
  {
    hide RenewalsOutput, TimeAfterOrEq;
    forall o | o in RenewalsOutput(l.p.sd, sd.consumers, sd.trackers, now) && (o.Broadcast? || o.Unicast?)
      ensures GoodMsgToC(l, 0, o.msg) && !o.msg.OfferService?
    {
      RenewalsFrom(l.p.sd, sd.consumers, sd.trackers, now, o);
    }
  }

  lemma TtlsGood(l: Link, sd: Sd, now: u32)
    ensures GoodOutputs(l, TtlsOutput(sd.consumers, now))
  {
    hide TtlsOutput, TtlExpired;
    forall o | o in TtlsOutput(sd.consumers, now)
      ensures !o.Broadcast? && !o.Unicast?
    {
      TtlsFrom(sd.consumers, now, o);
    }
  }

  lemma FindsGood(l: Link, sd: Sd, now: u32)
    ensures GoodOutputs(l, FindsOutput(l.p.sd, sd.consumers, now))
  {
    hide FindsOutput;
    forall o | o in FindsOutput(l.p.sd, sd.consumers, now) && (o.Broadcast? || o.Unicast?)
      ensures GoodMsgToC(l, 0, o.msg) && !o.msg.OfferService?
    {
      FindsFrom(l.p.sd, sd.consumers, now, o);
    }
  }

  /** A cycle keeps offering, keeps an unexpired lease, sends the offer when it is due, and
      nothing else that concerns the consumer. */
  lemma ProviderCycle(l: Link, n: NodeState, now: u32)
    requires Usable(l) && ProviderOk(l, n) && (l.sub ==> !TimeAfter(now, LeaseP(l, n.events).expiryMs))
    ensures var n' := Housekeeping(l.p, n, now);
      && ProviderOk(l, n') && LeaseStays(l, n.events, n'.events)
      && EntryP(l, n'.sd) == OfferStep(EntryP(l, n.sd), l.addrP, now).0
      && SendsGoodToC(l, n, n')
      && (OfferDue(EntryP(l, n.sd), now) ==> exists i :: |n.wire| <= i < |n'.wire| && SentOffer(l, n'.wire[i]))
  {
    hide Housekeeping, FourPasses, EM.Evict, EM.Lease, EM.WellFormed, TimeAfter, OfferDue, Offering, Seen, Carries,
      GoodMsgToC, Payload;
    var n' := Housekeeping(l.p, n, now);
    var out := FourPasses(l.p.sd, n.sd, now).1;
    HousekeepingEmits(l.p, n, now);
    FourPassesGood(l, n.sd, now);
    EmitsGood(l, n, n', out);
    if l.sub {
      EM.EvictAllRefines(n.events, l.p.limits, now);
    }
    if OfferDue(EntryP(l, n.sd), now) {
      var k :| 0 <= k < |out| && out[k] == Broadcast(OfferMsg(l));
      PayloadSize(OfferMsg(l));
      assert Sendable(l.p, out[k]);
      assert Reached(l.p, n, n', out[k]);
      var i :| |n.wire| <= i < |n'.wire| && Carries(l.p, n'.wire[i], out[k]);
      CarriedSeenByC(l, n'.wire[i], out[k]);
      CarriesBroadcast(l.p, n'.wire[i], out[k]);
      assert SentOffer(l, n'.wire[i]);
    }
  }

  ghost predicate SentOffer(l: Link, p: Packet) {
    p.sent && p.dest == None && IsOffer(l, p.frame)
  }

  lemma CarriesBroadcast(cfg: NodeConfig, p: Packet, o: Output)
    requires Carries(cfg, p, o) && o.Broadcast? && AlwaysUp(cfg)
    ensures p.sent && p.dest == None
  {
  }

  // ---------------------------------------------------------------------- receiving

  /** The consumer's subscribe message, as the provider sees it. */
  ghost predicate Renews(l: Link, source: Address, frame: Bytes) {
    match Seen(l.p, l.setupP, source, frame)
    case None => false
    case Some(x) => x.client == l.c.sd.clientId && x.m == SubscribeEvent(l.sid, l.eid, l.requested)
  }

  ghost predicate SentAck(l: Link, to: Address, p: Packet) {
    p.sent && p.dest == Some(to) && IsAck(l, p.frame)
  }

  /** Receiving a good frame of the consumer, or a benign one of another device, renews the
      lease exactly when it is the consumer's subscribe message, and acknowledges it with
      the lease recorded. */
  lemma ProviderReceives(l: Link, n: NodeState, source: Address, d: Bytes, now: u32)
    requires Usable(l) && ProviderOk(l, n)
    requires (source == l.addrC && GoodToP(l, d)) || BenignToP(l, source, d)
    ensures var n' := Receive(l.p, l.setupP, n, source, d, now);
      && ProviderOk(l, n') && EntryP(l, n'.sd) == EntryP(l, n.sd)
      && SendsGoodToC(l, n, n')
      && (l.sub && Renews(l, source, d) ==> LeaseStarts(l, n'.events, source, now))
      && (l.sub && Renews(l, source, d) ==> exists i :: |n.wire| <= i < |n'.wire| && SentAck(l, source, n'.wire[i]))
      && (!Renews(l, source, d) ==> LeaseStays(l, n.events, n'.events))
  {
    hide Receive, Seen, HandleMessage, EM.Lease, EM.WellFormed, Offering;
    ReceiveIsHandle(l.p, l.setupP, n, source, d, now);
    var n' := Receive(l.p, l.setupP, n, source, d, now);
    match Seen(l.p, l.setupP, source, d)
    case None =>
      ElsewhereGood(l, n, n');
    case Some(x) =>
      match x.m {
        case SubscribeEvent(sid, eid, ttl) =>
          ProviderSubscribes(l, n, source, x.client, x.result, sid, eid, ttl, now);
        case Unsubscribe(sid, eid) =>
          ProviderUnsubscribes(l, n, source, x.client, x.result, sid, eid, now);
        case _ =>
          ProviderDiscovers(l, n, source, x.client, x.result, x.m, now);
      }
  }

  lemma ElsewhereGood(l: Link, n: NodeState, n': NodeState)
    requires Elsewhere(n, n')
    ensures SendsGoodToC(l, n, n')
  {
    hide Seen, NotDiscovery;
    forall i | |n.wire| <= i < |n'.wire|
      ensures GoodToC(l, n'.wire[i].frame)
    {
      NotDiscoveryUnseen(l.c, l.setupC, l.addrP, n'.wire[i].frame);
    }
  }

  lemma ProviderSubscribes(l: Link, n: NodeState, source: Address, client: u16, result: u8, sid: u16, eid: u16,
                           ttl: u16, now: u32)
    requires Usable(l) && ProviderOk(l, n)
    requires l.sub && sid == l.sid && eid == l.eid ==>
      (source == l.addrC && client == l.c.sd.clientId && ttl == l.requested)
        || (source != l.addrC && client != l.c.sd.clientId)
    ensures var n' := HandleMessage(l.p, n, source, client, result, SubscribeEvent(sid, eid, ttl), now);
      && ProviderOk(l, n') && n'.sd == n.sd
      && SendsGoodToC(l, n, n')
      && (l.sub && client == l.c.sd.clientId && sid == l.sid && eid == l.eid && ttl == l.requested ==>
            LeaseStarts(l, n'.events, source, now) && exists i ::
              |n.wire| <= i < |n'.wire| && SentAck(l, source, n'.wire[i]))
      && (!(client == l.c.sd.clientId && sid == l.sid && eid == l.eid && ttl == l.requested) ==>
          LeaseStays(l, n.events, n'.events))
  {
    hide EM.Subscribe, EM.Lease, EM.WellFormed, Offering, SdFrame, Seen, Payload;
    var n' := HandleMessage(l.p, n, source, client, result, SubscribeEvent(sid, eid, ttl), now);
    var (events', r) := EM.Subscribe(n.events, l.p.limits, sid, eid, client, source, ttl, now);
    if l.sub {
      EM.SubscribeRefines(n.events, l.p.limits, sid, eid, client, source, ttl, now);
    }
    var granted := if r.Accepted? then EM.GrantedTtl(ttl, l.p.limits) else 0;
    var m := SubscribeAck(sid, eid, granted);
    var code := if r.Accepted? then E_OK else E_NOT_OK;
    PayloadSize(m);
    SdFrameSeen(l.c, l.setupC, l.addrP, l.p.sd.clientId, m, code, n.sdSeq);
    assert n'.wire == n.wire + [Packet(Some(source), SdFrame(l.p.sd.clientId, m, code, n.sdSeq), l.p.linkUp(|n.wire|))];
    if l.sub && client == l.c.sd.clientId && sid == l.sid && eid == l.eid && ttl == l.requested {
      assert SentAck(l, source, n'.wire[|n.wire|]);
    }
  }

  lemma ProviderUnsubscribes(l: Link, n: NodeState, source: Address, client: u16, result: u8, sid: u16, eid: u16,
                             now: u32)
    requires Usable(l) && ProviderOk(l, n) && !(l.sub && sid == l.sid && eid == l.eid && client == l.c.sd.clientId)
    ensures var n' := HandleMessage(l.p, n, source, client, result, Unsubscribe(sid, eid), now);
      && ProviderOk(l, n') && n'.sd == n.sd && SendsGoodToC(l, n, n') && LeaseStays(l, n.events, n'.events)
  {
    hide EM.Unsubscribe, EM.Lease, EM.WellFormed, Offering;
    if l.sub {
      EM.UnsubscribeRefines(n.events, l.p.limits, sid, eid, client);
    }
  }

  lemma ProviderDiscovers(l: Link, n: NodeState, source: Address, client: u16, result: u8, m: SdMessage, now: u32)
    requires Usable(l) && ProviderOk(l, n) && (m.OfferService? || m.FindService? || m.SubscribeAck?)
    ensures var n' := HandleMessage(l.p, n, source, client, result, m, now);
      && ProviderOk(l, n') && EntryP(l, n'.sd) == EntryP(l, n.sd) && SendsGoodToC(l, n, n') && n'.events == n.events
  {
    hide SdStep, Step, Offering, GoodMsgToC, Emits, EM.Lease, EM.WellFormed;
    var n' := HandleMessage(l.p, n, source, client, result, m, now);
    var e := match m
      case OfferService(sid, major, minor, ttl, session, provider) => RxOffer(sid, major, ttl, session, provider)
      case FindService(sid) => RxFind(sid, source)
      case SubscribeAck(sid, eid, ttl) => RxAck(sid, eid, result, ttl)
      case _ => ProcessOffers;
    var n1 := HandleBase(l.p, n, source, m);
    SdStepEmits(l.p, n1, e, now);
    EmitsSame(l.p, n1, n, n', Step(l.p.sd, n.sd, e, now).1);
    ReceivedGood(l, n.sd, e, now);
    EmitsGood(l, n, n', Step(l.p.sd, n.sd, e, now).1);
  }

  /** The sequence state a message resets before discovery handles it. */
  function HandleBase(cfg: NodeConfig, n: NodeState, source: Address, m: SdMessage): NodeState {
    match m
    case OfferService(sid, _, _, _, session, provider) =>
      if DetectReboot(n.sd.consumers, sid, session) then n.(peers := E2E.ResetPeer(n.peers, provider)) else n
    case FindService(_) => n.(peers := E2E.ResetPeer(n.peers, source))
    case _ => n
  }

  lemma EmitsSame(cfg: NodeConfig, a: NodeState, b: NodeState, n': NodeState, out: seq<Output>)
    requires a.wire == b.wire && a.app == b.app && Emits(cfg, a, n', out)
    ensures Emits(cfg, b, n', out)
  {
    EmitsBase(cfg, a, b, n', out);
  }

  lemma ReceivedGood(l: Link, sd: Sd, e: Event, now: u32)
    requires Usable(l) && Offering(l, sd) && (e.RxOffer? || e.RxFind? || e.RxAck?)
    ensures var (sd', out) := Step(l.p.sd, sd, e, now);
      Offering(l, sd') && EntryP(l, sd') == EntryP(l, sd) && GoodOutputs(l, out)
  {
    hide FlagResubscribe, FindReplies, GoodMsgToC;
    if e.RxFind? {
      RepliesGood(l, sd, e.sid, e.source);
    }
  }

  // ----------------------------------------------------------------- other actions

  lemma ProviderCalls(l: Link, n: NodeState, e: Event, now: u32)
    requires Usable(l) && ProviderOk(l, n) && IsCall(e) && !((e.OfferCall? || e.StopOfferCall?) && e.sid == l.sid)
    ensures var n' := SdStep(l.p, n, e, now);
      && ProviderOk(l, n') && EntryP(l, n'.sd) == EntryP(l, n.sd) && n'.events == n.events
      && SendsGoodToC(l, n, n')
  {
    hide SdStep, Emits, EM.Lease, EM.WellFormed, GoodMsgToC;
    SdStepEmits(l.p, n, e, now);
    CallKeepsOffering(l, n.sd, e, now);
    EmitsGood(l, n, SdStep(l.p, n, e, now), Step(l.p.sd, n.sd, e, now).1);
  }

  predicate OtherEntry(pe: ProviderEntry, pe': ProviderEntry, e: Event)
    requires IsCall(e)
  {
    pe'.serviceId == pe.serviceId && (pe' == pe || (pe.serviceId == e.sid && (e.OfferCall? || e.StopOfferCall?)))
  }

  /** A call leaves all other entries of the provider table as they are. */
  lemma CallKeepsOthers(cfg: SdConfig, sd: Sd, e: Event, now: u32)
    requires IsCall(e) && DistinctProviders(sd.providers)
    ensures var (sd', out) := Step(cfg, sd, e, now);
      && DistinctProviders(sd'.providers) && sd'.localAddr == sd.localAddr && out == []
      && |sd.providers| <= |sd'.providers|
      && forall k :: 0 <= k < |sd.providers| ==> OtherEntry(sd.providers[k], sd'.providers[k], e)
  {
    hide SessionId;
  }

  lemma CallKeepsOffering(l: Link, sd: Sd, e: Event, now: u32)
    requires Offering(l, sd) && IsCall(e) && !((e.OfferCall? || e.StopOfferCall?) && e.sid == l.sid)
    ensures var (sd', out) := Step(l.p.sd, sd, e, now);
      Offering(l, sd') && EntryP(l, sd') == EntryP(l, sd) && out == []
  {
    hide Step;
    CallKeepsOthers(l.p.sd, sd, e, now);
    assert ProviderIndex(Step(l.p.sd, sd, e, now).0.providers, l.sid) == ProviderIndex(sd.providers, l.sid);
  }
}
