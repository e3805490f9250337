/** The consumer's side of both leases, one action at a time. */
module LeaseConsumer {
  import opened Words
  import opened Wire
  import opened SdMessages
  import opened DiscoverySpec
  import opened DiscoveryLog
  import opened Frame
  import opened Node
  import opened NodeEffects
  import opened NodeOutputs
  import opened LeaseSystem
  import opened LeaseProvider
  import Crc16
  import EM = EventManager

  // ------------------------------------------------------------- consumer invariant

  ghost predicate Following(l: Link, sd: Sd) {
    && DistinctConsumers(sd.consumers)
    && ConsumerIndex(sd.consumers, l.sid) < |sd.consumers|
    && var ce := sd.consumers[ConsumerIndex(sd.consumers, l.sid)];
      ce.state == FOUND && ce.addr == l.addrP && ce.expectedMajor == l.major && ce.sessionValid
        && ce.session == l.session
  }

  ghost function EntryC(l: Link, sd: Sd): ConsumerEntry
    requires Following(l, sd)
  {
    sd.consumers[ConsumerIndex(sd.consumers, l.sid)]
  }

  ghost predicate Tracking(l: Link, sd: Sd) {
    DistinctTrackers(sd.trackers) && TrackerIndex(sd.trackers, l.sid, l.eid) < |sd.trackers|
  }

  ghost function TrackerC(l: Link, sd: Sd): SubTracker
    requires Tracking(l, sd)
  {
    sd.trackers[TrackerIndex(sd.trackers, l.sid, l.eid)]
  }

  /** The subscription was sent and is waiting for, or holding, its granted lease. */
  ghost predicate Holding(l: Link, t: SubTracker) {
    && t.active && !t.needsSend && !t.needsUnsubscribe && t.requestedTtl == l.requested
    && (t.grantedTtl == 0 || t.grantedTtl == Granted(l))
  }

  ghost predicate ConsumerOk(l: Link, n: NodeState) {
    FollowingBoth(l, n.sd)
  }

  ghost predicate FollowingBoth(l: Link, sd: Sd) {
    Following(l, sd) && (l.sub ==> Tracking(l, sd) && Holding(l, TrackerC(l, sd)))
  }

  ghost predicate EntryStays(l: Link, sd: Sd, sd': Sd) {
    Following(l, sd) && Following(l, sd') && EntryC(l, sd') == EntryC(l, sd)
  }

  ghost predicate TrackerStays(l: Link, sd: Sd, sd': Sd) {
    l.sub ==> Tracking(l, sd) && Tracking(l, sd') && TrackerC(l, sd') == TrackerC(l, sd)
  }

  ghost predicate TrackerRenewed(l: Link, sd: Sd, sd': Sd, now: u32) {
    l.sub ==> Tracking(l, sd) && Tracking(l, sd') && TrackerC(l, sd') == TrackerC(l, sd).(lastSentMs := now)
  }

  ghost predicate TrackerGranted(l: Link, sd: Sd, sd': Sd) {
    l.sub ==> Tracking(l, sd) && Tracking(l, sd') && TrackerC(l, sd') == TrackerC(l, sd).(grantedTtl := Granted(l))
  }

  /** Every new packet that reaches the provider is good, and the application hears of no loss. */
  ghost predicate SendsGoodToP(l: Link, n: NodeState, n': NodeState) {
    && n.wire <= n'.wire
    && forall i :: |n.wire| <= i < |n'.wire| && (n'.wire[i].dest == None || n'.wire[i].dest == Some(l.addrP)) ==>
      GoodToP(l, n'.wire[i].frame)
  }

  ghost predicate NoLoss(l: Link, n: NodeState, n': NodeState) {
    n.app <= n'.app && forall i :: |n.app| <= i < |n'.app| ==> n'.app[i] != Discovered(LostCallback(l.sid))
  }

  // ------------------------------------------------------------ messages in packets

  lemma CarriedSeenByP(l: Link, p: Packet, o: Output)
    requires Usable(l) && Carries(l.c, p, o) && !o.msg.OfferService?
    ensures Seen(l.p, l.setupP, l.addrC, p.frame) == Some(SdSeen(l.c.sd.clientId, 0, o.msg))
  {
    hide Payload, SdFrame, Seen;
    var s: u8 :| p.frame == SdFrame(l.c.sd.clientId, o.msg, 0, s);
    PayloadSize(o.msg);
    SdFrameSeen(l.p, l.setupP, l.addrC, l.c.sd.clientId, o.msg, 0, s);
  }

  /** Offers of the consumer's own services never look like a subscription. */
  lemma OfferSeenByP(l: Link, p: Packet, o: Output)
    requires Usable(l) && Carries(l.c, p, o) && o.msg.OfferService?
    ensures GoodToP(l, p.frame)
  {
    hide HeaderBytes, ParseHeader, Crc16.Crc, Crc16.HighByte, Crc16.LowByte, CheckFrame, Payload, Authentic;
    var s: u8 :| p.frame == SdFrame(l.c.sd.clientId, o.msg, 0, s);
    var body := SdBytes(l.c.sd.clientId, o.msg, 0, s);
    var d := p.frame;
    assert d == HeaderBytes(SdHeader(l.c.sd.clientId, o.msg, 0, s)) + (Payload(o.msg) + d[|body|..]);
    HeaderRoundTrip(SdHeader(l.c.sd.clientId, o.msg, 0, s), Payload(o.msg) + d[|body|..]);
    PassedFits(l.p.maxPayloadSize, d);
  }

  ghost predicate QuietOutputs(l: Link, out: seq<Output>) {
    && (forall o :: o in out && (o.Broadcast? || o.Unicast?) ==> GoodMsgToP(l, l.c.sd.clientId, o.msg))
    && LostCallback(l.sid) !in out
  }

  lemma EmitsQuiet(l: Link, n: NodeState, n': NodeState, out: seq<Output>)
    requires Usable(l) && Emits(l.c, n, n', out) && QuietOutputs(l, out)
    ensures SendsGoodToP(l, n, n') && NoLoss(l, n, n')
  {
    hide Seen, Carries, GoodMsgToP, Sendable, Reached;
    forall i | |n.wire| <= i < |n'.wire|
      ensures GoodToP(l, n'.wire[i].frame)
    {
      assert SentFrom(l.c, n'.wire[i], out);
      var k :| 0 <= k < |out| && Carries(l.c, n'.wire[i], out[k]);
      assert out[k] in out;
      CarriesMessage(l.c, n'.wire[i], out[k]);
      if out[k].msg.OfferService? {
        OfferSeenByP(l, n'.wire[i], out[k]);
      } else {
        CarriedSeenByP(l, n'.wire[i], out[k]);
      }
    }
  }

  // ------------------------------------------------------------------- housekeeping

  /** The renewal of this subscription is due. */
  ghost predicate RenewalDue(t: SubTracker, now: u32) {
    t.grantedTtl > 0 && TimeAfterOrEq(now, Wrap32(t.lastSentMs + 500 * t.grantedTtl))
  }

  ghost predicate RetryDue(l: Link, t: SubTracker, now: u32) {
    t.grantedTtl == 0 && TimeAfterOrEq(now, Wrap32(t.lastSentMs + 1000 * l.c.sd.subscriptionTtl))
  }

  lemma OffersPass(l: Link, sd: Sd, now: u32)
    requires Following(l, sd)
    ensures var (sd', out) := Step(l.c.sd, sd, ProcessOffers, now);
      && sd'.consumers == sd.consumers && sd'.trackers == sd.trackers && QuietOutputs(l, out)
  {
    hide OffersOutput;
    forall o | o in OffersOutput(sd.providers, sd.localAddr, now)
      ensures o.Broadcast? && o.msg.OfferService?
    {
      OffersFrom(sd.providers, sd.localAddr, now, o);
    }
  }

  lemma TrackerOnly(l: Link, sd: Sd, i: nat)
    requires Tracking(l, sd) && i < |sd.trackers| && IsTracker(sd.trackers[i], l.sid, l.eid)
    ensures sd.trackers[i] == TrackerC(l, sd)
  {
    TrackerIndexIs(sd.trackers, l.sid, l.eid, i);
  }

  /** One tracker's pass never harms this subscription. */
  lemma RenewGood(l: Link, sd: Sd, i: nat, now: u32, o: Output)
    requires FollowingBoth(l, sd) && i < |sd.trackers|
    requires o in RenewStep(l.c.sd, sd.consumers, sd.trackers[i], now).1
    ensures o.Unicast? && GoodMsgToP(l, l.c.sd.clientId, o.msg)
  {
    hide TimeAfterOrEq, ProviderOf;
    if l.sub && IsTracker(sd.trackers[i], l.sid, l.eid) {
      TrackerOnly(l, sd, i);
    }
  }

  /** The renewal is due now. */
  ghost predicate Renewing(l: Link, sd: Sd, now: u32) {
    l.sub && Tracking(l, sd) && RenewalDue(TrackerC(l, sd), now)
  }

  ghost predicate Retrying(l: Link, sd: Sd, now: u32) {
    l.sub && Tracking(l, sd) && RetryDue(l, TrackerC(l, sd), now)
  }

  lemma RenewalsPass(l: Link, sd: Sd, now: u32)
    requires FollowingBoth(l, sd) && !Retrying(l, sd, now)
    ensures var (sd', out) := Step(l.c.sd, sd, ProcessRenewals, now);
      && FollowingBoth(l, sd') && EntryStays(l, sd, sd') && QuietOutputs(l, out)
      && (if Renewing(l, sd, now) then TrackerRenewed(l, sd, sd', now) else TrackerStays(l, sd, sd'))
      && (Renewing(l, sd, now) ==> Unicast(l.addrP, SubscribeEvent(l.sid, l.eid, l.requested)) in out)
  {
    hide TimeAfterOrEq, RenewalsOutput, GoodMsgToP;
    var s := sd.trackers;
    var out := RenewalsOutput(l.c.sd, sd.consumers, s, now);
    var sd' := Step(l.c.sd, sd, ProcessRenewals, now).0;
    forall o | o in out
      ensures o.Unicast? && GoodMsgToP(l, l.c.sd.clientId, o.msg)
    {
      RenewalsFrom(l.c.sd, sd.consumers, s, now, o);
      var k :| 0 <= k < |s| && o in RenewStep(l.c.sd, sd.consumers, s[k], now).1;
      RenewGood(l, sd, k, now, o);
    }
    if l.sub {
      var i := TrackerIndex(s, l.sid, l.eid);
      TrackerKeys(l.c.sd, sd, ProcessRenewals, now);
      TrackersDistinct(l.c.sd, sd, ProcessRenewals, now);
      TrackerIndexIs(sd'.trackers, l.sid, l.eid, i);
      if RenewalDue(s[i], now) {
        RenewalAmong(l.c.sd, sd.consumers, s, now, i, Unicast(l.addrP, SubscribeEvent(l.sid, l.eid, l.requested)));
      }
    }
  }

  lemma TtlsPass(l: Link, sd: Sd, now: u32)
    requires Following(l, sd) && !TimeAfter(now, EntryC(l, sd).ttlExpiryMs)
    ensures var (sd', out) := Step(l.c.sd, sd, ProcessTtls, now);
      EntryStays(l, sd, sd') && sd'.trackers == sd.trackers && QuietOutputs(l, out)
  {
    hide TimeAfter, TtlsOutput;
    ConsumerKeys(l.c.sd, sd, ProcessTtls, now);
    var s := sd.consumers;
    ConsumerIndexIs(Step(l.c.sd, sd, ProcessTtls, now).0.consumers, ConsumerIndex(s, l.sid));
    forall o | o in TtlsOutput(s, now)
      ensures !o.Broadcast? && !o.Unicast? && o != LostCallback(l.sid)
    {
      TtlsFrom(s, now, o);
      var k :| 0 <= k < |s| && TtlExpired(s[k], now)
        && (o == PeerExpired(s[k].addr) || o == LostCallback(s[k].serviceId));
      if s[k].serviceId == l.sid {
        ConsumerIndexIs(s, k);
      }
    }
  }

  lemma FoundAlone(l: Link, sd: Sd, k: nat)
    requires Following(l, sd) && k < |sd.consumers| && sd.consumers[k].state != FOUND
    ensures sd.consumers[k].serviceId != l.sid
  {
    assert k != ConsumerIndex(sd.consumers, l.sid);
  }

  lemma FindsPass(l: Link, sd: Sd, now: u32)
    requires Following(l, sd)
    ensures var (sd', out) := Step(l.c.sd, sd, ProcessFinds, now);
      EntryStays(l, sd, sd') && sd'.trackers == sd.trackers && QuietOutputs(l, out)
  {
    hide NextRetry, TimeAfterOrEq, FindsOutput;
    ConsumerKeys(l.c.sd, sd, ProcessFinds, now);
    var s := sd.consumers;
    ConsumerIndexIs(Step(l.c.sd, sd, ProcessFinds, now).0.consumers, ConsumerIndex(s, l.sid));
    forall o | o in FindsOutput(l.c.sd, s, now)
      ensures o != LostCallback(l.sid) && (o.Broadcast? ==> o.msg.FindService?) && !o.Unicast?
    {
      FindsFrom(l.c.sd, s, now, o);
      var k :| 0 <= k < |s| && SaysFinding(s[k], o);
      FoundAlone(l, sd, k);
    }
  }

  lemma FourPassesQuiet(l: Link, sd: Sd, now: u32)
    requires FollowingBoth(l, sd) && !TimeAfter(now, EntryC(l, sd).ttlExpiryMs) && !Retrying(l, sd, now)
    ensures var (sd', out) := FourPasses(l.c.sd, sd, now);
      && FollowingBoth(l, sd') && EntryStays(l, sd, sd')
      && (if Renewing(l, sd, now) then TrackerRenewed(l, sd, sd', now) else TrackerStays(l, sd, sd'))
      && (Renewing(l, sd, now) ==> Unicast(l.addrP, SubscribeEvent(l.sid, l.eid, l.requested)) in out)
      && QuietOutputs(l, out)
  {
    hide Step, TimeAfter, RenewalDue, RetryDue, GoodMsgToP, Holding;
    var (sd1, o1) := Step(l.c.sd, sd, ProcessOffers, now);
    OffersPass(l, sd, now);
    var (sd2, o2) := Step(l.c.sd, sd1, ProcessRenewals, now);
    RenewalsPass(l, sd1, now);
    var (sd3, o3) := Step(l.c.sd, sd2, ProcessTtls, now);
    TtlsPass(l, sd2, now);
    var (sd4, o4) := Step(l.c.sd, sd3, ProcessFinds, now);
    FindsPass(l, sd3, now);
    var out := o1 + o2 + o3 + o4;
    forall o | o in out
      ensures o in o1 || o in o2 || o in o3 || o in o4
    {
    }
  }

  ghost predicate SentSubscribe(l: Link, p: Packet) {
    p.sent && p.dest == Some(l.addrP) && IsSubscribe(l, p.frame)
  }

  /** A cycle before the offer lease ends keeps following, renews the subscription exactly
      when it is due, tells the application of no loss, and sends nothing harmful. */
  lemma ConsumerCycle(l: Link, n: NodeState, now: u32)
    requires Usable(l) && ConsumerOk(l, n)
    requires !TimeAfter(now, EntryC(l, n.sd).ttlExpiryMs) && !Retrying(l, n.sd, now)
    ensures var n' := Housekeeping(l.c, n, now);
      && ConsumerOk(l, n') && EntryStays(l, n.sd, n'.sd)
      && (if Renewing(l, n.sd, now) then TrackerRenewed(l, n.sd, n'.sd, now) else TrackerStays(l, n.sd, n'.sd))
      && SendsGoodToP(l, n, n') && NoLoss(l, n, n')
      && (Renewing(l, n.sd, now) ==> exists i :: |n.wire| <= i < |n'.wire| && SentSubscribe(l, n'.wire[i]))
  {
    hide Housekeeping, FourPasses, TimeAfter, Renewing, Retrying, FollowingBoth, EntryStays, TrackerStays,
      TrackerRenewed, Seen, Carries, GoodMsgToP, Payload;
    var n' := Housekeeping(l.c, n, now);
    var out := FourPasses(l.c.sd, n.sd, now).1;
    HousekeepingEmits(l.c, n, now);
    FourPassesQuiet(l, n.sd, now);
    EmitsQuiet(l, n, n', out);
    if Renewing(l, n.sd, now) {
      var k :| 0 <= k < |out| && out[k] == Unicast(l.addrP, SubscribeEvent(l.sid, l.eid, l.requested));
      PayloadSize(out[k].msg);
      assert Sendable(l.c, out[k]);
      assert Reached(l.c, n, n', out[k]);
      var i :| |n.wire| <= i < |n'.wire| && Carries(l.c, n'.wire[i], out[k]);
      CarriedSeenByP(l, n'.wire[i], out[k]);
      CarriesUnicast(l.c, n'.wire[i], out[k]);
      assert SentSubscribe(l, n'.wire[i]);
    }
  }

  lemma CarriesUnicast(cfg: NodeConfig, p: Packet, o: Output)
    requires Carries(cfg, p, o) && o.Unicast? && AlwaysUp(cfg)
    ensures p.sent && p.dest == Some(o.dest)
  {
  }

  // ---------------------------------------------------------------------- receiving

  /** The frame shows the consumer the offer of its service, or the grant of its lease. */
  ghost predicate RenewsOffer(l: Link, source: Address, frame: Bytes) {
    match Seen(l.c, l.setupC, source, frame)
    case None => false
    case Some(x) => x.m == OfferMsg(l)
  }

  ghost predicate GrantsLease(l: Link, source: Address, frame: Bytes) {
    match Seen(l.c, l.setupC, source, frame)
    case None => false
    case Some(x) => Grants(l, x.result, x.m)
  }

  ghost predicate Grants(l: Link, result: u8, m: SdMessage) {
    result == 0 && m == SubscribeAck(l.sid, l.eid, Granted(l))
  }

  lemma ConsumerReceives(l: Link, n: NodeState, source: Address, d: Bytes, now: u32)
    requires Usable(l) && ConsumerOk(l, n) && l.ttl > 0
    requires (source == l.addrP && GoodToC(l, d)) || BenignToC(l, source, d)
    ensures var n' := Receive(l.c, l.setupC, n, source, d, now);
      && ConsumerOk(l, n')
      && EntryC(l, n'.sd) == (if RenewsOffer(l, source, d)
        then EntryC(l, n.sd).(ttlExpiryMs := Wrap32(now + 1000 * l.ttl)) else EntryC(l, n.sd))
      && (if GrantsLease(l, source, d) then TrackerGranted(l, n.sd, n'.sd) else TrackerStays(l, n.sd, n'.sd))
      && SendsGoodToP(l, n, n') && NoLoss(l, n, n')
  {
    hide Receive, Seen, HandleMessage, Following;
    ReceiveIsHandle(l.c, l.setupC, n, source, d, now);
    var n' := Receive(l.c, l.setupC, n, source, d, now);
    match Seen(l.c, l.setupC, source, d)
    case None =>
      ElsewhereQuiet(l, n, n');
    case Some(x) =>
      match x.m {
        case SubscribeEvent(sid, eid, ttl) => ConsumerPublishes(l, n, source, x.client, x.result, sid, eid, ttl, now);
        case Unsubscribe(sid, eid) => ConsumerDrops(l, n, source, x.client, x.result, sid, eid, now);
        case _ => ConsumerDiscovers(l, n, source, x.client, x.result, x.m, now);
      }
  }

  lemma ElsewhereQuiet(l: Link, n: NodeState, n': NodeState)
    requires Elsewhere(n, n')
    ensures SendsGoodToP(l, n, n') && NoLoss(l, n, n')
  {
    hide Seen, NotDiscovery;
    forall i | |n.wire| <= i < |n'.wire|
      ensures GoodToP(l, n'.wire[i].frame)
    {
      NotDiscoveryUnseen(l.p, l.setupP, l.addrC, n'.wire[i].frame);
    }
  }

  /** The consumer may itself publish events; its acknowledgements are no subscriptions. */
  lemma ConsumerPublishes(l: Link, n: NodeState, source: Address, client: u16, result: u8, sid: u16, eid: u16,
                          ttl: u16, now: u32)
    requires Usable(l)
    ensures var n' := HandleMessage(l.c, n, source, client, result, SubscribeEvent(sid, eid, ttl), now);
      n'.sd == n.sd && SendsGoodToP(l, n, n') && NoLoss(l, n, n')
  {
    hide EM.Subscribe, SdFrame, Seen, Payload;
    var n' := HandleMessage(l.c, n, source, client, result, SubscribeEvent(sid, eid, ttl), now);
    var (events', r) := EM.Subscribe(n.events, l.c.limits, sid, eid, client, source, ttl, now);
    var m := SubscribeAck(sid, eid, if r.Accepted? then EM.GrantedTtl(ttl, l.c.limits) else 0);
    var code := if r.Accepted? then E_OK else E_NOT_OK;
    PayloadSize(m);
    SdFrameSeen(l.p, l.setupP, l.addrC, l.c.sd.clientId, m, code, n.sdSeq);
    assert n'.wire == n.wire + [Packet(Some(source), SdFrame(l.c.sd.clientId, m, code, n.sdSeq), l.c.linkUp(|n.wire|))];
  }

  lemma ConsumerDrops(l: Link, n: NodeState, source: Address, client: u16, result: u8, sid: u16, eid: u16, now: u32)
    ensures var n' := HandleMessage(l.c, n, source, client, result, Unsubscribe(sid, eid), now);
      n'.sd == n.sd && SendsGoodToP(l, n, n') && NoLoss(l, n, n')
  {
    hide EM.Unsubscribe;
  }

  lemma ConsumerDiscovers(l: Link, n: NodeState, source: Address, client: u16, result: u8, m: SdMessage, now: u32)
    requires Usable(l) && ConsumerOk(l, n) && l.ttl > 0 && (m.OfferService? || m.FindService? || m.SubscribeAck?)
    requires GoodMsgToC(l, result, m)
    ensures var n' := HandleMessage(l.c, n, source, client, result, m, now);
      && ConsumerOk(l, n')
      && EntryC(l, n'.sd) == (if m == OfferMsg(l) then EntryC(l, n.sd).(ttlExpiryMs := Wrap32(now + 1000 * l.ttl))
        else EntryC(l, n.sd))
      && (if Grants(l, result, m) then TrackerGranted(l, n.sd, n'.sd) else TrackerStays(l, n.sd, n'.sd))
      && SendsGoodToP(l, n, n') && NoLoss(l, n, n')
  {
    hide SdStep, Step, Following, GoodMsgToP, Emits;
    var n' := HandleMessage(l.c, n, source, client, result, m, now);
    var e := match m
      case OfferService(sid, major, minor, ttl, session, provider) => RxOffer(sid, major, ttl, session, provider)
      case FindService(sid) => RxFind(sid, source)
      case SubscribeAck(sid, eid, ttl) => RxAck(sid, eid, result, ttl)
      case _ => ProcessOffers;
    var n1 := HandleBase(l.c, n, source, m);
    SdStepEmits(l.c, n1, e, now);
    EmitsSame(l.c, n1, n, n', Step(l.c.sd, n.sd, e, now).1);
    ReceivedQuiet(l, n.sd, source, result, m, now);
    EmitsQuiet(l, n, n', Step(l.c.sd, n.sd, e, now).1);
  }

  lemma ReceivedQuiet(l: Link, sd: Sd, source: Address, result: u8, m: SdMessage, now: u32)
    requires FollowingBoth(l, sd) && l.ttl > 0 && GoodMsgToC(l, result, m)
    requires m.OfferService? || m.FindService? || m.SubscribeAck?
    ensures var e := match m
        case OfferService(sid, major, minor, ttl, session, provider) => RxOffer(sid, major, ttl, session, provider)
        case FindService(sid) => RxFind(sid, source)
        case SubscribeAck(sid, eid, ttl) => RxAck(sid, eid, result, ttl)
        case _ => ProcessOffers;
      var (sd', out) := Step(l.c.sd, sd, e, now);
      && FollowingBoth(l, sd') && QuietOutputs(l, out)
      && EntryC(l, sd') == (if m == OfferMsg(l) then EntryC(l, sd).(ttlExpiryMs := Wrap32(now + 1000 * l.ttl))
        else EntryC(l, sd))
      && (if Grants(l, result, m) then TrackerGranted(l, sd, sd') else TrackerStays(l, sd, sd'))
  {
    match m
    case OfferService(sid, major, minor, ttl, session, provider) =>
      OfferQuiet(l, sd, sid, major, ttl, session, provider, now);
    case FindService(sid) => FindQuiet(l, sd, sid, source);
    case SubscribeAck(sid, eid, ttl) =>
      if l.sub {
        AckQuiet(l, sd, sid, eid, result, ttl);
      }
    case _ =>
  }

  lemma OfferQuiet(l: Link, sd: Sd, sid: u16, major: u8, ttl: u16, session: u16, provider: Address, now: u32)
    requires FollowingBoth(l, sd) && l.ttl > 0
    requires sid == l.sid ==> major == l.major && ttl == l.ttl && session == l.session && provider == l.addrP
    ensures var (sd', out) := HandleOffer(sd, sid, major, ttl, session, provider, now);
      && FollowingBoth(l, sd') && TrackerStays(l, sd, sd') && QuietOutputs(l, out)
      && EntryC(l, sd') == (if sid == l.sid then EntryC(l, sd).(ttlExpiryMs := Wrap32(now + 1000 * l.ttl))
        else EntryC(l, sd))
  {
    hide HandleOffer, Following, Holding;
    OfferHeard(l, sd, sid, major, ttl, session, provider, now);
    if l.sub && sid != l.sid {
      FlagsOthers(l, sd, sid, now);
    }
  }

  /** A message of the service renews the entry and touches no subscription; one of another
      service touches only that service's. */
  lemma OfferHeard(l: Link, sd: Sd, sid: u16, major: u8, ttl: u16, session: u16, provider: Address, now: u32)
    requires Following(l, sd) && l.ttl > 0
    requires sid == l.sid ==> major == l.major && ttl == l.ttl && session == l.session && provider == l.addrP
    ensures var (sd', out) := HandleOffer(sd, sid, major, ttl, session, provider, now);
      && Following(l, sd') && QuietOutputs(l, out)
      && EntryC(l, sd') == (if sid == l.sid then EntryC(l, sd).(ttlExpiryMs := Wrap32(now + 1000 * l.ttl))
        else EntryC(l, sd))
      && (sd'.trackers == sd.trackers || (sid != l.sid && sd'.trackers == FlagResubscribe(sd.trackers, sid, now)))
  {
    hide HandleOffer, Following, Wrap32, FlagResubscribe;
    if sid == l.sid {
      OwnOfferHeard(l, sd, now);
    } else {
      OtherOfferHeard(l, sd, sid, major, ttl, session, provider, now);
    }
  }

  lemma OwnOfferHeard(l: Link, sd: Sd, now: u32)
    requires Following(l, sd) && l.ttl > 0
    ensures var (sd', out) := HandleOffer(sd, l.sid, l.major, l.ttl, l.session, l.addrP, now);
      && Following(l, sd') && out == [] && sd'.trackers == sd.trackers
      && EntryC(l, sd') == EntryC(l, sd).(ttlExpiryMs := Wrap32(now + 1000 * l.ttl))
  {
    hide Wrap32, FlagResubscribe;
    var sd' := HandleOffer(sd, l.sid, l.major, l.ttl, l.session, l.addrP, now).0;
    var i := ConsumerIndex(sd.consumers, l.sid);
    assert sd'.consumers == sd.consumers[i := sd'.consumers[i]] && sd'.consumers[i].serviceId == l.sid;
    ConsumerIndexIs(sd'.consumers, i);
  }

  lemma OtherOfferHeard(l: Link, sd: Sd, sid: u16, major: u8, ttl: u16, session: u16, provider: Address, now: u32)
    requires Following(l, sd) && sid != l.sid
    ensures var (sd', out) := HandleOffer(sd, sid, major, ttl, session, provider, now);
      && Following(l, sd') && QuietOutputs(l, out) && EntryC(l, sd') == EntryC(l, sd)
      && (sd'.trackers == sd.trackers || sd'.trackers == FlagResubscribe(sd.trackers, sid, now))
  {
    hide Wrap32, FlagResubscribe, Reboot;
    var sd' := HandleOffer(sd, sid, major, ttl, session, provider, now).0;
    var i, j := ConsumerIndex(sd.consumers, l.sid), ConsumerIndex(sd.consumers, sid);
    if sd' != sd {
      assert j < |sd.consumers| && j != i && sd'.consumers == sd.consumers[j := sd'.consumers[j]]
        && sd'.consumers[j].serviceId == sid;
      ConsumerIndexIs(sd'.consumers, i);
    }
  }

  /** Flagging another service's subscriptions leaves this one alone. */
  lemma FlagsOthers(l: Link, sd: Sd, sid: u16, now: u32)
    requires Tracking(l, sd)
    ensures var s' := FlagResubscribe(sd.trackers, sid, now);
      && DistinctTrackers(s')
      && TrackerIndex(s', l.sid, l.eid) == TrackerIndex(sd.trackers, l.sid, l.eid)
      && (sid != l.sid ==> s'[TrackerIndex(sd.trackers, l.sid, l.eid)] == TrackerC(l, sd))
  {
    var s, s' := sd.trackers, FlagResubscribe(sd.trackers, sid, now);
    assert forall k :: 0 <= k < |s| ==> s'[k].serviceId == s[k].serviceId && s'[k].eventId == s[k].eventId;
    TrackerIndexIs(s', l.sid, l.eid, TrackerIndex(s, l.sid, l.eid));
  }

  lemma FindQuiet(l: Link, sd: Sd, sid: u16, source: Address)
    ensures QuietOutputs(l, FindReplies(sd.providers, sd.localAddr, sid, source))
  {
    hide FindReplies;
    forall o | o in FindReplies(sd.providers, sd.localAddr, sid, source)
      ensures o.Unicast? && o.msg.OfferService?
    {
      RepliesFrom(sd.providers, sd.localAddr, sid, source, o);
    }
  }

  lemma AckQuiet(l: Link, sd: Sd, sid: u16, eid: u16, result: u8, ttl: u16)
    requires Tracking(l, sd) && Holding(l, TrackerC(l, sd))
    requires sid == l.sid && eid == l.eid ==> result == 0 && ttl == Granted(l)
    ensures var s' := HandleAck(sd.trackers, sid, eid, result, ttl);
      && DistinctTrackers(s') && TrackerIndex(s', l.sid, l.eid) == TrackerIndex(sd.trackers, l.sid, l.eid)
      && s'[TrackerIndex(sd.trackers, l.sid, l.eid)]
         == (if sid == l.sid && eid == l.eid then TrackerC(l, sd).(grantedTtl := Granted(l)) else TrackerC(l, sd))
  {
    var s, s' := sd.trackers, HandleAck(sd.trackers, sid, eid, result, ttl);
    assert forall k :: 0 <= k < |s| ==> s'[k].serviceId == s[k].serviceId && s'[k].eventId == s[k].eventId;
    TrackerIndexIs(s', l.sid, l.eid, TrackerIndex(s, l.sid, l.eid));
  }

  // ----------------------------------------------------------------- other actions

  lemma ConsumerCalls(l: Link, n: NodeState, e: Event, now: u32)
    requires Usable(l) && ConsumerOk(l, n) && IsCall(e) && !(e.FindCall? && e.sid == l.sid)
    requires !(l.sub && (e.SubscribeCall? || e.UnsubscribeCall?) && e.sid == l.sid && e.eid == l.eid)
    ensures var n' := SdStep(l.c, n, e, now);
      && ConsumerOk(l, n') && EntryStays(l, n.sd, n'.sd) && TrackerStays(l, n.sd, n'.sd)
      && SendsGoodToP(l, n, n') && NoLoss(l, n, n')
  {
    hide SdStep, Emits, Following, Step;
    SdStepEmits(l.c, n, e, now);
    CallKeepsFollowing(l, n.sd, e, now);
    EmitsQuiet(l, n, SdStep(l.c, n, e, now), Step(l.c.sd, n.sd, e, now).1);
  }

  lemma CallKeepsFollowing(l: Link, sd: Sd, e: Event, now: u32)
    requires FollowingBoth(l, sd) && IsCall(e) && !(e.FindCall? && e.sid == l.sid)
    requires !(l.sub && (e.SubscribeCall? || e.UnsubscribeCall?) && e.sid == l.sid && e.eid == l.eid)
    ensures var (sd', out) := Step(l.c.sd, sd, e, now);
      EntryStays(l, sd, sd') && TrackerStays(l, sd, sd') && out == []
  {
    hide SessionId;
    var sd' := Step(l.c.sd, sd, e, now).0;
    var i := ConsumerIndex(sd.consumers, l.sid);
    ConsumersDistinct(l.c.sd, sd, e, now);
    assert sd'.consumers[i] == sd.consumers[i];
    ConsumerIndexIs(sd'.consumers, i);
    if l.sub {
      var j := TrackerIndex(sd.trackers, l.sid, l.eid);
      TrackersDistinct(l.c.sd, sd, e, now);
      assert sd'.trackers[j] == sd.trackers[j];
      TrackerIndexIs(sd'.trackers, l.sid, l.eid, j);
    }
  }
}
