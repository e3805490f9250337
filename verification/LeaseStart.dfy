/** The lease theorems speak of something: a run from power-on, an exchange of an offer, a
subscribe message and its acknowledgement, on which the service is found and the lease granted. */
module LeaseStart {
  import opened Words
  import opened SdMessages
  import opened DiscoverySpec
  import opened DiscoveryLog
  import opened Node
  import opened NodeEffects
  import opened NodeOutputs
  import opened LeaseSystem
  import opened LeaseProvider
  import opened LeaseConsumer
  import opened Leases
  import opened LeaseBefore
  import opened LeaseGrant
  import Subscriptions
  import EM = EventManager

  /** Room for one more entry in each table, and the session identifier of an offer at `t`. */
  ghost predicate Startable(l: Link, t: nat) {
    && Usable(l) && Bounds(l) && l.sub
    && l.p.sd.maxServices > 0 && l.p.limits.maxEvents > 0 && l.p.limits.maxSubscribers > 0
    && l.c.sd.maxKnownServices > 0 && l.c.sd.maxSubTrackers > 0
    && l.session == SessionId(l.p.sd.clientId, l.sid, Wrap32(t + l.offP))
  }

  // The exchange, one call after the other. `now` is the device's own clock.

  /** The provider's application offers the service and registers the event. */
  function Offering1(l: Link, slots: nat, now: u32): NodeState {
    var n := SdStep(l.p, PoweredOn(l.addrP, slots), OfferCall(l.sid, l.major, l.minor, l.ttl), now);
    n.(events := EM.Register(n.events, l.p.limits, l.sid, l.eid).0)
  }

  /** Its first cycle broadcasts the offer. */
  function Offering2(l: Link, slots: nat, now: u32): NodeState {
    Housekeeping(l.p, Offering1(l, slots, now), now)
  }

  /** The consumer's application searches the service, and the offer arrives. */
  function Finding1(l: Link, slots: nat, offer: Bytes, now: u32): NodeState {
    Receive(l.c, l.setupC, SdStep(l.c, PoweredOn(l.addrC, slots), FindCall(l.sid, l.major), now), l.addrP, offer, now)
  }

  /** It subscribes. */
  function Subscribed1(l: Link, slots: nat, offer: Bytes, now: u32): NodeState {
    SdStep(l.c, Finding1(l, slots, offer, now), SubscribeCall(l.sid, l.eid, l.requested), now)
  }

  /** Its next cycle sends the subscribe message. */
  function Finding2(l: Link, slots: nat, offer: Bytes, now: u32): NodeState {
    Housekeeping(l.c, Subscribed1(l, slots, offer, now), now)
  }

  /** The provider grants the lease. */
  function Granting(l: Link, slots: nat, subscribe: Bytes, now: u32): NodeState {
    Receive(l.p, l.setupP, Offering2(l, slots, now), l.addrC, subscribe, now)
  }

  /** The acknowledgement arrives. */
  function Settling(l: Link, slots: nat, offer: Bytes, ack: Bytes, now: u32): NodeState {
    Receive(l.c, l.setupC, Finding2(l, slots, offer, now), l.addrP, ack, now)
  }

  // --------------------------------------------------------------------- the proofs

  lemma NothingCarried(cfg: NodeConfig, n: NodeState)
    ensures CarryAll(cfg, n, []) == n
  {
  }

  lemma OfferMade(l: Link, slots: nat, now: u32)
    requires Usable(l) && l.ttl > 0 && l.p.sd.maxServices > 0 && l.p.limits.maxEvents > 0
    requires l.session == SessionId(l.p.sd.clientId, l.sid, now)
    ensures var n := Offering1(l, slots, now);
      && Offering(l, n.sd) && EntryP(l, n.sd).lastOfferMs == now && OfferDue(EntryP(l, n.sd), now)
      && n.events == [EM.EventSlot(l.sid, l.eid, true, [])]
  {
    hide SessionId;
    NothingCarried(l.p, PoweredOn(l.addrP,
                                  slots).(sd := Step(l.p.sd, Sd([], [], [], l.addrP),
                                                     OfferCall(l.sid, l.major, l.minor, l.ttl), now).0));
  }

  lemma OfferSentOut(l: Link, slots: nat, now: u32) returns (i: nat)
    requires Usable(l) && l.ttl > 0 && l.p.sd.maxServices > 0 && l.p.limits.maxEvents > 0
    requires l.session == SessionId(l.p.sd.clientId, l.sid, now)
    ensures var n := Offering2(l, slots, now);
      && Offering(l, n.sd) && EntryP(l, n.sd).lastOfferMs == now && !EntryP(l, n.sd).needsBroadcast
      && n.events == [EM.EventSlot(l.sid, l.eid, true, [])]
      && Offering1(l, slots, now).wire <= n.wire && |Offering1(l, slots, now).wire| <= i < |n.wire|
      && SentOffer(l, n.wire[i])
  {
    hide OfferDue, Housekeeping, Offering1, Offering, SendsGoodToC, SessionId, SentOffer, Usable, FourPasses,
      SentFrom, Reached;
    var n1 := Offering1(l, slots, now);
    var free := l.(sub := false);
    OfferMade(l, slots, now);
    WithoutSub(l, n1.sd);
    ProviderCycle(free, n1, now);
    HousekeepingEmits(l.p, n1, now);
    var n := Housekeeping(l.p, n1, now);
    WithoutSub(l, n.sd);
    NoneEvicted(n1.events, now, l.sid, l.eid);
    var k :| |n1.wire| <= k < |n.wire| && SentOffer(free, n.wire[k]);
    OfferWithoutSub(l, n.wire[k]);
    i := k;
  }

  /** Whether a subscription is looked at does not matter to the offer. */
  lemma WithoutSub(l: Link, sd: Sd)
    ensures Usable(l) == Usable(l.(sub := false)) && Offering(l, sd) == Offering(l.(sub := false), sd)
    ensures Offering(l, sd) ==> EntryP(l, sd) == EntryP(l.(sub := false), sd)
  {
  }

  lemma OfferWithoutSub(l: Link, p: Packet)
    ensures SentOffer(l.(sub := false), p) == SentOffer(l, p)
  {
    hide Seen;
  }

  lemma NoneEvicted(events: seq<EM.EventSlot>, now: u32, sid: u16, eid: u16)
    requires events == [EM.EventSlot(sid, eid, true, [])]
    ensures EM.Evict(events, now) == events
  {
    assert EM.EvictEvent(events[0], now) == events[0];
  }

  lemma ServiceFound(l: Link, slots: nat, offer: Bytes, now: u32)
    requires Usable(l) && l.ttl > 0 && l.c.sd.maxKnownServices > 0 && IsOffer(l, offer)
    ensures var n := Finding1(l, slots, offer, now);
      Following(l, n.sd) && EntryC(l, n.sd).ttlExpiryMs == Wrap32(now + 1000 * l.ttl) && n.sd.trackers == []
        && n.sd.providers == []
  {
    hide Receive, SdStep, Wrap32, Seen;
    var n0 := PoweredOn(l.addrC, slots);
    var n1 := SdStep(l.c, n0, FindCall(l.sid, l.major), now);
    SdStepEmits(l.c, n0, FindCall(l.sid, l.major), now);
    ReceiveIsHandle(l.c, l.setupC, n1, l.addrP, offer, now);
    assert n1.sd.consumers == [Searching(NEW_CONSUMER, l.sid, l.major, now)];
    assert ConsumerIndex(n1.sd.consumers, l.sid) == 0;
    var e := RxOffer(l.sid, l.major, l.ttl, l.session, l.addrP);
    assert Finding1(l, slots, offer, now) == SdStep(l.c, n1, e, now);
    SdStepEmits(l.c, n1, e, now);
  }

  /** The consumer's tracker when the subscribe message is out. */
  function FirstTracker(l: Link, now: u32): SubTracker {
    SubTracker(l.sid, l.eid, l.requested, 0, true, true, false, false, now, 0)
  }

  lemma SubscribeSentOut(l: Link, slots: nat, offer: Bytes, now: u32) returns (i: nat)
    requires Usable(l) && l.ttl > 0 && l.c.sd.maxKnownServices > 0 && l.c.sd.maxSubTrackers > 0 && IsOffer(l, offer)
    ensures var n := Finding2(l, slots, offer, now);
      && Following(l, n.sd) && EntryC(l, n.sd).ttlExpiryMs == Wrap32(now + 1000 * l.ttl)
      && n.sd.trackers == [FirstTracker(l, now)]
      && var n2 := Subscribed1(l, slots, offer, now);
        n2.wire <= n.wire && |n2.wire| <= i < |n.wire| && SentSubscribe(l, n.wire[i])
  {
    hide Housekeeping, Finding1, SdStep, Step, Following, FourPasses, Emits, Sendable, Carries, IsOffer, Wrap32,
      SentSubscribe, Payload;
    var n1 := Finding1(l, slots, offer, now);
    ServiceFound(l, slots, offer, now);
    var n2 := SdStep(l.c, n1, SubscribeCall(l.sid, l.eid, l.requested), now);
    SdStepEmits(l.c, n1, SubscribeCall(l.sid, l.eid, l.requested), now);
    SubscribeEntered(l, n1.sd, now);
    HousekeepingEmits(l.c, n2, now);
    PassesWithSubscribe(l, n2.sd, now);
    var n := Housekeeping(l.c, n2, now);
    i := SubscribeAmong(l, n2, n, FourPasses(l.c.sd, n2.sd, now).1);
  }

  lemma SubscribeEntered(l: Link, sd: Sd, now: u32)
    requires Following(l, sd) && sd.trackers == [] && l.c.sd.maxSubTrackers > 0
    ensures var sd' := Step(l.c.sd, sd, SubscribeCall(l.sid, l.eid, l.requested), now).0;
      && Following(l, sd') && EntryC(l, sd') == EntryC(l, sd)
      && sd'.trackers == [FirstTracker(l, now).(needsSend := true)]
  {
  }

  lemma PassesWithSubscribe(l: Link, sd: Sd, now: u32)
    requires Following(l, sd) && l.ttl > 0 && EntryC(l, sd).ttlExpiryMs == Wrap32(now + 1000 * l.ttl)
    requires sd.trackers == [FirstTracker(l, now).(needsSend := true)]
    ensures var (sd', out) := FourPasses(l.c.sd, sd, now);
      && Following(l, sd') && EntryC(l, sd') == EntryC(l, sd) && sd'.trackers == [FirstTracker(l, now)]
      && Unicast(l.addrP, SubscribeEvent(l.sid, l.eid, l.requested)) in out
  {
    hide Step, Following, TimeAfter, Wrap32, EntryC;
    var (sd1, o1) := Step(l.c.sd, sd, ProcessOffers, now);
    OffersPass(l, sd, now);
    var (sd2, o2) := Step(l.c.sd, sd1, ProcessRenewals, now);
    SameEntry(l, sd, sd1);
    FirstSend(l, sd1, now);
    var (sd3, o3) := Step(l.c.sd, sd2, ProcessTtls, now);
    FreshLease(now, l.ttl);
    TtlsPass(l, sd2, now);
    FindsPass(l, sd3, now);
    assert Unicast(l.addrP, SubscribeEvent(l.sid, l.eid, l.requested)) in o1 + o2;
  }

  lemma SameEntry(l: Link, sd: Sd, sd': Sd)
    requires Following(l, sd) && sd'.consumers == sd.consumers
    ensures Following(l, sd') && EntryC(l, sd') == EntryC(l, sd)
  {
  }

  lemma FirstSend(l: Link, sd: Sd, now: u32)
    requires Following(l, sd) && sd.trackers == [FirstTracker(l, now).(needsSend := true)]
    ensures var (sd', out) := Step(l.c.sd, sd, ProcessRenewals, now);
      && sd'.consumers == sd.consumers && sd'.trackers == [FirstTracker(l, now)]
      && Unicast(l.addrP, SubscribeEvent(l.sid, l.eid, l.requested)) in out
      && Following(l, sd') && EntryC(l, sd') == EntryC(l, sd)
  {
    hide TimeAfterOrEq;
    var t := sd.trackers[0];
    assert ProviderOf(sd.consumers, l.sid) == Some(l.addrP);
    assert RenewStep(l.c.sd, sd.consumers, t, now) == (FirstTracker(l, now), [Unicast(l.addrP, SubscribeOf(t))]);
    RenewalAmong(l.c.sd, sd.consumers, sd.trackers, now, 0, Unicast(l.addrP, SubscribeOf(t)));
  }

  lemma SubscribeAmong(l: Link, n: NodeState, n': NodeState, out: seq<Output>) returns (i: nat)
    requires Usable(l) && Emits(l.c, n, n', out) && Unicast(l.addrP, SubscribeEvent(l.sid, l.eid, l.requested)) in out
    ensures n.wire <= n'.wire && |n.wire| <= i < |n'.wire| && SentSubscribe(l, n'.wire[i])
  {
    hide Carries, Payload, Seen;
    var k :| 0 <= k < |out| && out[k] == Unicast(l.addrP, SubscribeEvent(l.sid, l.eid, l.requested));
    PayloadSize(out[k].msg);
    assert Sendable(l.c, out[k]);
    assert Reached(l.c, n, n', out[k]);
    var j :| |n.wire| <= j < |n'.wire| && Carries(l.c, n'.wire[j], out[k]);
    CarriedSeenByP(l, n'.wire[j], out[k]);
    CarriesUnicast(l.c, n'.wire[j], out[k]);
    i := j;
  }

  lemma LeaseGranted(l: Link, slots: nat, subscribe: Bytes, now: u32) returns (i: nat)
    requires Usable(l) && l.ttl > 0 && l.p.sd.maxServices > 0 && l.p.limits.maxEvents > 0
      && l.p.limits.maxSubscribers > 0
    requires l.session == SessionId(l.p.sd.clientId, l.sid, now) && IsSubscribe(l, subscribe)
    ensures var n := Granting(l, slots, subscribe, now);
      && n.sd == Offering2(l, slots, now).sd
      && LeaseStarts(l, n.events, l.addrC, now)
      && var n2 := Offering2(l, slots, now);
        n2.wire <= n.wire && |n2.wire| <= i < |n.wire| && SentAck(l, l.addrC, n.wire[i])
  {
    hide Receive, Offering2, SdFrame, Seen, SessionId, Offering, Payload, SentOffer;
    var n := Offering2(l, slots, now);
    var sent := OfferSentOut(l, slots, now);
    ReceiveIsHandle(l.p, l.setupP, n, l.addrC, subscribe, now);
    var n' := Granting(l, slots, subscribe, now);
    assert n' == SubscribeRequest(l.p, n, l.addrC, l.c.sd.clientId, l.sid, l.eid, l.requested, now);
    FirstSubscriber(l, n.events, now);
    var m := SubscribeAck(l.sid, l.eid, Granted(l));
    PayloadSize(m);
    SdFrameSeen(l.c, l.setupC, l.addrP, l.p.sd.clientId, m, 0, n.sdSeq);
    i := |n.wire|;
  }

  lemma FirstSubscriber(l: Link, events: seq<EM.EventSlot>, now: u32)
    requires events == [EM.EventSlot(l.sid, l.eid, true, [])] && l.p.limits.maxEvents > 0
      && l.p.limits.maxSubscribers > 0
    ensures var (events', r) := EM.Subscribe(events, l.p.limits, l.sid, l.eid, l.c.sd.clientId, l.addrC, l.requested,
                                             now);
      r.Accepted? && LeaseStarts(l, events', l.addrC, now)
  {
    hide Wrap32;
    assert EM.EventIndex(events, l.sid, l.eid) == 0;
    var s := EM.Subscriber(l.c.sd.clientId, l.addrC, EM.Expiry(l.requested, l.p.limits, now));
    var none: seq<EM.Subscriber> := [];
    assert none + [s] == [s] && EM.SubIndex(none, l.c.sd.clientId) == 0;
    assert EM.Enter(none, l.p.limits, s) == ([s], EM.Accepted);
    var events' := EM.Subscribe(events, l.p.limits, l.sid, l.eid, l.c.sd.clientId, l.addrC, l.requested, now).0;
    assert events' == [EM.EventSlot(l.sid, l.eid, true, [s])];
    assert EM.EventIndex(events', l.sid, l.eid) == 0 && EM.SubIndex([s], l.c.sd.clientId) == 0;
  }

  lemma Acknowledged(l: Link, slots: nat, offer: Bytes, ack: Bytes, now: u32)
    requires Usable(l) && l.ttl > 0 && l.c.sd.maxKnownServices > 0 && l.c.sd.maxSubTrackers > 0
    requires IsOffer(l, offer) && IsAck(l, ack) && l.sub
    ensures var n := Settling(l, slots, offer, ack, now);
      && Following(l, n.sd) && EntryC(l, n.sd).ttlExpiryMs == Wrap32(now + 1000 * l.ttl)
      && Tracking(l, n.sd) && TrackerC(l, n.sd) == FirstTracker(l, now).(grantedTtl := Granted(l))
      && Holding(l, TrackerC(l, n.sd))
  {
    hide Receive, Finding2, Seen, Following, IsOffer, SentSubscribe, Wrap32, SendsGoodToP, NoLoss;
    var n := Finding2(l, slots, offer, now);
    var sent := SubscribeSentOut(l, slots, offer, now);
    OneTracker(l, n.sd, now);
    ConsumerReceives(l, n, l.addrP, ack, now);
  }

  lemma OneTracker(l: Link, sd: Sd, now: u32)
    requires sd.trackers == [FirstTracker(l, now)]
    ensures Tracking(l, sd) && TrackerC(l, sd) == FirstTracker(l, now) && Holding(l, TrackerC(l, sd))
  {
    assert TrackerIndex(sd.trackers, l.sid, l.eid) == 0;
  }

  // ------------------------------------------------------------------- as a run

  /** Nothing is older than `t`. */
  ghost predicate Instant(s: System, t: nat) {
    s.now == t && s.cycleP == t && s.cycleC == t && forall f :: f in s.net ==> f.sentAt == t
  }

  lemma SameInstant(l: Link, s: System, a: Action, t: nat)
    requires Instant(s, t) && Enabled(l, s, a) && !a.Tick?
    ensures Instant(Next(l, s, a), t) && Timely(l, Next(l, s, a))
  {
    hide Receive, Housekeeping, SdStep, NewPackets, Routed, BenignToP, BenignToC;
    forall toConsumer: bool, to: Address, from: Address, packets: seq<Packet>,
      f | f in Routed(toConsumer, to, from, packets, t)
      ensures f.sentAt == t
    {
      var i :| 0 <= i < |Routed(toConsumer, to, from, packets, t)| && Routed(toConsumer, to, from, packets, t)[i] == f;
      RoutedFrom(toConsumer, to, from, packets, t, i);
    }
  }

  /** `run` leads from power-on to `s`, all at the instant `t`. */
  ghost predicate Leads(l: Link, start: System, run: seq<Action>, s: System, t: nat) {
    IsRun(l, start, run) && After(l, start, run) == s && Instant(s, t)
  }

  lemma {:induction false} RunAnd(l: Link, start: System, run: seq<Action>, a: Action)
    requires IsRun(l, start, run) && Enabled(l, After(l, start, run), a) && Timely(l, Next(l, After(l, start, run), a))
    ensures IsRun(l, start, run + [a]) && After(l, start, run + [a]) == Next(l, After(l, start, run), a)
    decreases |run|
  {
    hide Enabled, Next, Timely;
    if run == [] {
      assert [a][1..] == [] && run + [a] == [a];
    } else {
      assert (run + [a])[1..] == run[1..] + [a];
      RunAnd(l, Next(l, start, run[0]), run[1..], a);
    }
  }

  lemma Then(l: Link, start: System, run: seq<Action>, s: System, a: Action, t: nat) returns (run': seq<Action>)
    requires Leads(l, start, run, s, t) && Enabled(l, s, a) && !a.Tick?
    ensures Leads(l, start, run', Next(l, s, a), t)
  {
    hide Enabled, Next, Timely, Instant, IsRun, After;
    SameInstant(l, s, a, t);
    RunAnd(l, start, run, a);
    run' := run + [a];
  }

  /** The provider's application offers the service and registers the event. */
  lemma OfferCalled(l: Link, t: nat, slotsP: nat, slotsC: nat) returns (run: seq<Action>, s: System)
    requires Startable(l, t)
    ensures Leads(l, PowerOn(l, t, slotsP, slotsC), run, s, t) && s.now == t
    ensures s.p == Offering1(l, slotsP, Wrap32(t + l.offP)) && s.c == PoweredOn(l.addrC, slotsC)
  {
    hide Leads, SdStep, SessionId, Usable, SubBounds, Wrap32, EM.Register;
    var start := PowerOn(l, t, slotsP, slotsC);
    NoActions(l, start, t);
    var e := OfferCall(l.sid, l.major, l.minor, l.ttl);
    run := Then(l, start, [], start, CallP(e), t);
    var s1 := Next(l, start, CallP(e));
    run := Then(l, start, run, s1, RegisterP(l.sid, l.eid), t);
    s := Next(l, s1, RegisterP(l.sid, l.eid));
  }

  /** The first cycle broadcasts the offer. */
  lemma OfferUnderway(l: Link, t: nat, slotsP: nat, slotsC: nat) returns (run: seq<Action>, s: System, f: InFlight)
    requires Startable(l, t)
    ensures Leads(l, PowerOn(l, t, slotsP, slotsC), run, s, t)
    ensures s.p == Offering2(l, slotsP, Wrap32(t + l.offP)) && s.c == PoweredOn(l.addrC, slotsC)
    ensures f in s.net && OfferPacket(l, f)
  {
    hide Leads, Offering, OfferDue, Housekeeping, SdStep, SessionId, IsOffer, Usable, Offering1, PowerOn, Wrap32,
      SubBounds;
    var s0: System;
    run, s0 := OfferCalled(l, t, slotsP, slotsC);
    run := Then(l, PowerOn(l, t, slotsP, slotsC), run, s0, HousekeepP, t);
    s := Next(l, s0, HousekeepP);
    var i := OfferSentOut(l, slotsP, Wrap32(t + l.offP));
    f := OfferFound(l, s0, i);
  }

  lemma NoActions(l: Link, start: System, t: nat)
    requires Instant(start, t)
    ensures Leads(l, start, [], start, t)
  {
  }

  lemma OfferFound(l: Link, s: System, i: nat) returns (f: InFlight)
    requires s.p.wire <= Housekeeping(l.p, s.p, ClockP(l, s)).wire
    requires |s.p.wire| <= i < |Housekeeping(l.p, s.p, ClockP(l, s)).wire|
      && SentOffer(l, Housekeeping(l.p, s.p, ClockP(l, s)).wire[i])
    ensures f in Next(l, s, HousekeepP).net && OfferPacket(l, f)
  {
    hide Housekeeping, IsOffer;
    var p' := Housekeeping(l.p, s.p, ClockP(l, s));
    SentByP(l, s, p', s.net, i);
    f := InFlight(true, l.addrP, p'.wire[i].frame, s.now);
  }

  /** The consumer's application searches the service, hears the offer, subscribes, and the next
      cycle sends the subscribe message. */
  lemma SubscribeUnderway(l: Link, t: nat, slotsP: nat, slotsC: nat)
      returns (run: seq<Action>, s: System, offer: Bytes, f: InFlight)
    requires Startable(l, t)
    ensures Leads(l, PowerOn(l, t, slotsP, slotsC), run, s, t) && IsOffer(l, offer)
    ensures s.p == Offering2(l, slotsP, Wrap32(t + l.offP)) && s.c == Finding2(l, slotsC, offer, Wrap32(t + l.offC))
    ensures f in s.net && SubscribePacket(l, f)
  {
    hide Leads, Receive, Housekeeping, SdStep, SessionId, IsOffer, Usable, IsSubscribe, Offering2, SubBounds,
      Following, Wrap32;
    var now := Wrap32(t + l.offC);
    var start := PowerOn(l, t, slotsP, slotsC);
    var s0: System, f0: InFlight;
    run, s0, f0 := OfferUnderway(l, t, slotsP, slotsC);
    LeadsNow(l, start, run, s0, t);
    var s1 := Next(l, s0, CallC(FindCall(l.sid, l.major)));
    run := Then(l, start, run, s0, CallC(FindCall(l.sid, l.major)), t);
    NetGrows(l, s0, s1.c);
    var i :| 0 <= i < |s1.net| && s1.net[i] == f0;
    var s2 := Next(l, s1, DeliverToC(i));
    run := Then(l, start, run, s1, DeliverToC(i), t);
    offer := f0.frame;
    ServiceFound(l, slotsC, offer, now);
    assert s2.c == Finding1(l, slotsC, offer, now);
    var e := SubscribeCall(l.sid, l.eid, l.requested);
    var s3 := Next(l, s2, CallC(e));
    run := Then(l, start, run, s2, CallC(e), t);
    assert s3.c == Subscribed1(l, slotsC, offer, now);
    var k := SubscribeSentOut(l, slotsC, offer, now);
    s := Next(l, s3, HousekeepC);
    run := Then(l, start, run, s3, HousekeepC, t);
    f := SubscribeFound(l, s3, k);
  }

  lemma LeadsNow(l: Link, start: System, run: seq<Action>, s: System, t: nat)
    requires Leads(l, start, run, s, t)
    ensures s.now == t
  {
    hide IsRun, After;
  }

  lemma SubscribeFound(l: Link, s: System, i: nat) returns (f: InFlight)
    requires s.c.wire <= Housekeeping(l.c, s.c, ClockC(l, s)).wire
    requires |s.c.wire| <= i < |Housekeeping(l.c, s.c, ClockC(l, s)).wire|
      && SentSubscribe(l, Housekeeping(l.c, s.c, ClockC(l, s)).wire[i])
    ensures f in Next(l, s, HousekeepC).net && SubscribePacket(l, f)
  {
    hide Housekeeping, IsSubscribe;
    var c' := Housekeeping(l.c, s.c, ClockC(l, s));
    SentByC(l, s, c', s.net, i);
    f := InFlight(false, l.addrC, c'.wire[i].frame, s.now);
  }

  /** The provider grants the lease, and its acknowledgement arrives. */
  lemma LeaseUnderway(l: Link, t: nat, slotsP: nat, slotsC: nat)
      returns (run: seq<Action>, s: System, offer: Bytes, subscribe: Bytes, ack: Bytes)
    requires Startable(l, t)
    ensures Leads(l, PowerOn(l, t, slotsP, slotsC), run, s, t) && IsOffer(l, offer) && IsSubscribe(l, subscribe)
      && IsAck(l, ack)
    ensures s.p == Granting(l, slotsP, subscribe, Wrap32(t + l.offP))
      && s.c == Settling(l, slotsC, offer, ack, Wrap32(t + l.offC))
  {
    hide Leads, Receive, Housekeeping, SdStep, SessionId, IsOffer, Usable, IsSubscribe, IsAck, Offering2, Finding2,
      SubBounds, LeaseStarts, Offering, Wrap32;
    var now := Wrap32(t + l.offP);
    var start := PowerOn(l, t, slotsP, slotsC);
    var s0: System, f0: InFlight;
    run, s0, offer, f0 := SubscribeUnderway(l, t, slotsP, slotsC);
    LeadsNow(l, start, run, s0, t);
    subscribe := f0.frame;
    var j :| 0 <= j < |s0.net| && s0.net[j] == f0;
    var s1 := Next(l, s0, DeliverToP(j));
    run := Then(l, start, run, s0, DeliverToP(j), t);
    assert s1.p == Granting(l, slotsP, subscribe, now);
    var m := LeaseGranted(l, slotsP, subscribe, now);
    SentByP(l, s0, s1.p, Without(s0.net, j), m);
    var f1 := InFlight(true, l.addrP, s1.p.wire[m].frame, t);
    ack := f1.frame;
    var k :| 0 <= k < |s1.net| && s1.net[k] == f1;
    s := Next(l, s1, DeliverToC(k));
    run := Then(l, start, run, s1, DeliverToC(k), t);
  }

  /** From power-on there is a run on which the service is found and the lease is granted. */
  lemma FromPowerOn(l: Link, t: nat, slotsP: nat, slotsC: nat) returns (run: seq<Action>)
    requires Startable(l, t)
    ensures IsRun(l, PowerOn(l, t, slotsP, slotsC), run)
    ensures var s := After(l, PowerOn(l, t, slotsP, slotsC), run);
      && ProviderOf(s.c.sd.consumers, l.sid) == Some(l.addrP) && Leased(l, s)
      && Subscriptions.TrackerOf(s.c.sd, l.sid, l.eid).Some?
      && Subscriptions.TrackerOf(s.c.sd, l.sid, l.eid).value.grantedTtl == Granted(l)
  {
    hide IsRun, After, Granting, Settling, SessionId, Usable, IsOffer, IsSubscribe, IsAck, Holding, EM.WellFormed,
      EM.Lease;
    var s: System, offer, subscribe, ack: Bytes;
    run, s, offer, subscribe, ack := LeaseUnderway(l, t, slotsP, slotsC);
    var m := LeaseGranted(l, slotsP, subscribe, Wrap32(t + l.offP));
    Acknowledged(l, slotsC, offer, ack, Wrap32(t + l.offC));
  }

  /** Such a state is also one for the offer lease alone, whatever happens to the
      subscription from then on. */
  lemma OfferAlone(l: Link, s: System, g: Times)
    requires Inv(l, s, g)
    ensures Inv(l.(sub := false), s, g)
  {
    hide Seen, Wrap32, SubInv;
    var free := l.(sub := false);
    forall f | f in s.net
      ensures Good(free, f)
    {
      assert Good(l, f);
      GoodAlone(l, f);
    }
    if OfferComing(l, s.net, g.offerEnd) {
      var f :| f in s.net && OfferPacket(l, f) && f.sentAt + l.delay <= g.offerEnd;
      assert OfferPacket(free, f);
    }
  }

  lemma GoodAlone(l: Link, f: InFlight)
    requires Good(l, f)
    ensures Good(l.(sub := false), f)
  {
    hide Seen;
  }
}
