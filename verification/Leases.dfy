/** Both leases hold on every run of the two devices: the consumer never loses a service
that is offered in time, and the provider never drops a subscriber that renews in time. */
module Leases {
  import opened Words
  import opened SdMessages
  import opened DiscoverySpec
  import opened Node
  import opened NodeEffects
  import opened LeaseSystem
  import opened LeaseProvider
  import opened LeaseConsumer
  import EM = EventManager

  /** The true times behind the wrapped stamps: the last offer and the end of the offer
      lease, the last subscribe and the end of the subscription lease. */
  datatype Times = Times(offered: nat, offerEnd: nat, subscribed: nat, leaseEnd: nat)

  // --------------------------------------------------------------------- packets

  ghost predicate OfferPacket(l: Link, f: InFlight) {
    f.toConsumer && f.source == l.addrP && IsOffer(l, f.frame)
  }

  ghost predicate AckPacket(l: Link, f: InFlight) {
    f.toConsumer && f.source == l.addrP && IsAck(l, f.frame)
  }

  ghost predicate SubscribePacket(l: Link, f: InFlight) {
    !f.toConsumer && f.source == l.addrC && IsSubscribe(l, f.frame)
  }

  ghost predicate Good(l: Link, f: InFlight) {
    if f.toConsumer then f.source == l.addrP && GoodToC(l, f.frame) else f.source == l.addrC && GoodToP(l, f.frame)
  }

  ghost predicate NetGood(l: Link, net: seq<InFlight>) {
    forall f :: f in net ==> Good(l, f)
  }

  /** An offer is on its way and will be handled before `end`. */
  ghost predicate OfferComing(l: Link, net: seq<InFlight>, end: nat) {
    exists f :: f in net && OfferPacket(l, f) && f.sentAt + l.delay <= end
  }

  ghost predicate SubscribeComing(l: Link, net: seq<InFlight>, end: nat) {
    exists f :: f in net && SubscribePacket(l, f) && f.sentAt + l.delay <= end
  }

  ghost predicate AckComing(l: Link, net: seq<InFlight>, end: nat) {
    exists f :: f in net && AckPacket(l, f) && f.sentAt + l.delay <= end
  }

  // ------------------------------------------------------------------- invariant

  /** The offer lease: the provider offers at least every half lease, and the consumer's
      lease, which ends at `end`, outlives the next offer, or an offer that extends it is
      on its way. */
  ghost predicate OfferLease(l: Link, pe: ProviderEntry, ce: ConsumerEntry, net: seq<InFlight>, now: nat, cycleP: nat,
                             offered: nat, end: nat) {
    && pe.lastOfferMs == Wrap32(offered + l.offP)
    && offered <= now && cycleP <= offered + 500 * l.ttl
    && ce.ttlExpiryMs == Wrap32(end + l.offC) && end <= now + 1000 * l.ttl
    && (end >= offered + 1000 * l.ttl || OfferComing(l, net, end))
  }

  /** The subscription lease, likewise; until it is acknowledged, the subscribe or its
      acknowledgement is on its way. */
  ghost predicate SubLease(l: Link, t: SubTracker, lease: EM.Subscriber, net: seq<InFlight>, now: nat, cycleC: nat,
                           sent: nat, end: nat) {
    && t.lastSentMs == Wrap32(sent + l.offC)
    && sent <= now && cycleC <= sent + 500 * Granted(l)
    && lease.expiryMs == Wrap32(end + l.offP) && end <= now + 1000 * Granted(l)
    && (end >= sent + 1000 * Granted(l) || SubscribeComing(l, net, end))
    && (t.grantedTtl == 0 ==> SubscribeComing(l, net, sent + l.delay) || AckComing(l, net, sent + 2 * l.delay))
  }

  ghost predicate OfferInv(l: Link, s: System, g: Times) {
    && Usable(l) && Bounds(l) && Timely(l, s) && NetGood(l, s.net)
    && Offering(l, s.p.sd) && Following(l, s.c.sd)
    && OfferLease(l, EntryP(l, s.p.sd), EntryC(l, s.c.sd), s.net, s.now, s.cycleP, g.offered, g.offerEnd)
  }

  ghost predicate SubInv(l: Link, s: System, g: Times) {
    && Tracking(l, s.c.sd) && Holding(l, TrackerC(l, s.c.sd)) && Leasing(l, s.p.events)
    && SubLease(l, TrackerC(l, s.c.sd), LeaseP(l, s.p.events), s.net, s.now, s.cycleC, g.subscribed, g.leaseEnd)
  }

  ghost predicate Inv(l: Link, s: System, g: Times) {
    OfferInv(l, s, g) && (l.sub ==> SubInv(l, s, g))
  }

  lemma InvNodes(l: Link, s: System, g: Times)
    requires Inv(l, s, g)
    ensures ProviderOk(l, s.p) && ConsumerOk(l, s.c)
  {
  }

  // -------------------------------------------------------- what the clocks tell

  /** A packet on its way bounds the time: it is handled within the delay. */
  lemma Pending(l: Link, s: System, f: InFlight)
    requires Timely(l, s) && f in s.net
    ensures s.now <= f.sentAt + l.delay
  {
    var i :| 0 <= i < |s.net| && s.net[i] == f;
  }

  /** In true time the offer lease has not ended. */
  lemma OfferRuns(l: Link, s: System, g: Times)
    requires OfferInv(l, s, g)
    ensures s.now <= g.offerEnd && s.cycleP <= g.offered + 500 * l.ttl
  {
    hide Offering, Following, NetGood, Usable, OfferPacket;
    if g.offerEnd < g.offered + 1000 * l.ttl {
      var f :| f in s.net && OfferPacket(l, f) && f.sentAt + l.delay <= g.offerEnd;
      Pending(l, s, f);
    }
  }

  /** Nor has the subscription lease, and an acknowledgement is not overdue. */
  lemma SubRuns(l: Link, s: System, g: Times)
    requires SubBounds(l) && Timely(l, s) && SubInv(l, s, g)
    ensures s.now <= g.leaseEnd && s.cycleC <= g.subscribed + 500 * Granted(l)
    ensures TrackerC(l, s.c.sd).grantedTtl == 0 ==> s.now <= g.subscribed + 2 * l.delay
  {
    hide Leasing, Holding, Tracking, SubscribePacket, AckPacket;
    if g.leaseEnd < g.subscribed + 1000 * Granted(l) {
      var f :| f in s.net && SubscribePacket(l, f) && f.sentAt + l.delay <= g.leaseEnd;
      Pending(l, s, f);
    }
    if SubscribeComing(l, s.net, g.subscribed + l.delay) {
      var f :| f in s.net && SubscribePacket(l, f) && f.sentAt + l.delay <= g.subscribed + l.delay;
      Pending(l, s, f);
    }
    if AckComing(l, s.net, g.subscribed + 2 * l.delay) {
      var f :| f in s.net && AckPacket(l, f) && f.sentAt + l.delay <= g.subscribed + 2 * l.delay;
      Pending(l, s, f);
    }
  }

  /** A wrapped deadline compares like the true one. */
  lemma Deadline(stamp: u32, time: nat, offset: nat, period: nat, now: nat)
    requires stamp == Wrap32(time + offset) && -TWO_31 <= now - (time + period) < TWO_31
    ensures TimeAfterOrEq(Wrap32(now + offset), Wrap32(stamp + period)) <==> now >= time + period
    ensures TimeAfter(Wrap32(now + offset), Wrap32(stamp + period)) <==> now > time + period
  {
    hide Wrap32, TimeAfter, TimeAfterOrEq;
    WrapSum(time + offset, period);
    ClockComparison(now + offset, time + period + offset);
  }

  /** The wrapped comparisons of a housekeeping cycle, in true time. */
  lemma OfferClock(l: Link, s: System, g: Times)
    requires OfferInv(l, s, g)
    ensures !TimeAfter(ClockC(l, s), EntryC(l, s.c.sd).ttlExpiryMs)
    ensures s.now >= g.offered + 500 * l.ttl ==> OfferDue(EntryP(l, s.p.sd), ClockP(l, s))
  {
    hide TimeAfter, TimeAfterOrEq, Wrap32, OfferComing, NetGood, Usable;
    OfferRuns(l, s, g);
    ClockComparison(s.now + l.offC, g.offerEnd + l.offC);
    Deadline(EntryP(l, s.p.sd).lastOfferMs, g.offered, l.offP, 500 * l.ttl, s.now);
  }

  lemma SubClock(l: Link, s: System, g: Times)
    requires SubBounds(l) && Timely(l, s) && SubInv(l, s, g)
    ensures !TimeAfter(ClockP(l, s), LeaseP(l, s.p.events).expiryMs)
    ensures var t := TrackerC(l, s.c.sd);
      && !RetryDue(l, t, ClockC(l, s))
      && (RenewalDue(t, ClockC(l, s)) <==> t.grantedTtl > 0 && s.now >= g.subscribed + 500 * Granted(l))
  {
    hide TimeAfter, TimeAfterOrEq, Wrap32, SubscribeComing, AckComing, Leasing;
    SubRuns(l, s, g);
    ClockComparison(s.now + l.offP, g.leaseEnd + l.offP);
    var t := TrackerC(l, s.c.sd);
    if t.grantedTtl == 0 {
      Deadline(t.lastSentMs, g.subscribed, l.offC, 1000 * l.c.sd.subscriptionTtl, s.now);
    } else {
      Deadline(t.lastSentMs, g.subscribed, l.offC, 500 * Granted(l), s.now);
    }
  }

  // ----------------------------------------------------------------- moving packets

  lemma MovedP(l: Link, s: System, p': NodeState, net: seq<InFlight>)
    requires SendsGoodToC(l, s.p, p') && NetGood(l, net)
    ensures var net' := MoveP(l, s, p', net).net;
      NetGood(l, net') && (forall f :: f in net ==> f in net')
  {
    hide GoodToC, GoodToP;
    var packets := NewPackets(s.p, p');
    var r := Routed(true, l.addrC, l.addrP, packets, s.now);
    forall f | f in r
      ensures Good(l, f)
    {
      var i :| 0 <= i < |r| && r[i] == f;
      RoutedFrom(true, l.addrC, l.addrP, packets, s.now, i);
      var k :| 0 <= k < |packets| && f.frame == packets[k].frame
        && (packets[k].dest == None || packets[k].dest == Some(l.addrC));
      assert packets[k] == p'.wire[|s.p.wire| + k];
    }
  }

  lemma MovedC(l: Link, s: System, c': NodeState, net: seq<InFlight>)
    requires SendsGoodToP(l, s.c, c') && NetGood(l, net)
    ensures var net' := MoveC(l, s, c', net).net;
      NetGood(l, net') && (forall f :: f in net ==> f in net')
  {
    hide GoodToC, GoodToP;
    var packets := NewPackets(s.c, c');
    var r := Routed(false, l.addrP, l.addrC, packets, s.now);
    forall f | f in r
      ensures Good(l, f)
    {
      var i :| 0 <= i < |r| && r[i] == f;
      RoutedFrom(false, l.addrP, l.addrC, packets, s.now, i);
      var k :| 0 <= k < |packets| && f.frame == packets[k].frame
        && (packets[k].dest == None || packets[k].dest == Some(l.addrP));
      assert packets[k] == c'.wire[|s.c.wire| + k];
    }
  }

  lemma SentByP(l: Link, s: System, p': NodeState, net: seq<InFlight>, i: nat)
    requires s.p.wire <= p'.wire && |s.p.wire| <= i < |p'.wire|
    requires p'.wire[i].sent && (p'.wire[i].dest == None || p'.wire[i].dest == Some(l.addrC))
    ensures InFlight(true, l.addrP, p'.wire[i].frame, s.now) in MoveP(l, s, p', net).net
  {
    RoutedAll(true, l.addrC, l.addrP, NewPackets(s.p, p'), s.now, i - |s.p.wire|);
  }

  lemma SentByC(l: Link, s: System, c': NodeState, net: seq<InFlight>, i: nat)
    requires s.c.wire <= c'.wire && |s.c.wire| <= i < |c'.wire|
    requires c'.wire[i].sent && (c'.wire[i].dest == None || c'.wire[i].dest == Some(l.addrP))
    ensures InFlight(false, l.addrC, c'.wire[i].frame, s.now) in MoveC(l, s, c', net).net
  {
    RoutedAll(false, l.addrP, l.addrC, NewPackets(s.c, c'), s.now, i - |s.c.wire|);
  }

  lemma Rest(l: Link, net: seq<InFlight>, i: nat)
    requires i < |net| && NetGood(l, net)
    ensures NetGood(l, Without(net, i)) && forall f :: f in net && f != net[i] ==> f in Without(net, i)
  {
    hide Good;
    forall f | f in net && f != net[i]
      ensures f in Without(net, i)
    {
      var k :| 0 <= k < |net| && net[k] == f;
      assert k < i ==> Without(net, i)[k] == f;
      assert k > i ==> Without(net, i)[k - 1] == f;
    }
  }

  /** The offer lease does not mind time passing and other packets. */
  lemma OfferKept(l: Link, pe: ProviderEntry, ce: ConsumerEntry, net: seq<InFlight>, net': seq<InFlight>,
                  now: nat, now': nat, cycle: nat, cycle': nat, offered: nat, end: nat)
    requires OfferLease(l, pe, ce, net, now, cycle, offered, end) && now <= now' && cycle' <= offered + 500 * l.ttl
    requires forall f :: f in net && OfferPacket(l, f) ==> f in net'
    ensures OfferLease(l, pe, ce, net', now', cycle', offered, end)
  {
    hide OfferPacket, Wrap32;
    if end < offered + 1000 * l.ttl {
      var f :| f in net && OfferPacket(l, f) && f.sentAt + l.delay <= end;
      assert f in net';
    }
  }

  lemma SubKept(l: Link, t: SubTracker, lease: EM.Subscriber, net: seq<InFlight>, net': seq<InFlight>,
                now: nat, now': nat, cycle: nat, cycle': nat, sent: nat, end: nat)
    requires SubLease(l, t, lease, net, now, cycle, sent, end) && now <= now' && cycle' <= sent + 500 * Granted(l)
    requires forall f :: f in net && (SubscribePacket(l, f) || AckPacket(l, f)) ==> f in net'
    ensures SubLease(l, t, lease, net', now', cycle', sent, end)
  {
    hide SubscribePacket, AckPacket, Wrap32;
    if SubscribeComing(l, net, end) {
      var f :| f in net && SubscribePacket(l, f) && f.sentAt + l.delay <= end;
      assert f in net';
    }
    if SubscribeComing(l, net, sent + l.delay) {
      var f :| f in net && SubscribePacket(l, f) && f.sentAt + l.delay <= sent + l.delay;
      assert f in net';
    }
    if AckComing(l, net, sent + 2 * l.delay) {
      var f :| f in net && AckPacket(l, f) && f.sentAt + l.delay <= sent + 2 * l.delay;
      assert f in net';
    }
  }

  lemma MoveFrame(l: Link, s: System, p': NodeState, c': NodeState, net: seq<InFlight>)
    ensures var s' := MoveP(l, s, p', net);
      s'.p == p' && s'.c == s.c && s'.now == s.now && s'.cycleP == s.cycleP && s'.cycleC == s.cycleC
    ensures var s' := MoveC(l, s, c', net);
      s'.c == c' && s'.p == s.p && s'.now == s.now && s'.cycleP == s.cycleP && s'.cycleC == s.cycleC
  {
  }

  // ----------------------------------------------------- moves that keep the leases

  /** The provider moves and its entry stays: the offer lease stands. */
  lemma OfferInvP(l: Link, s: System, p': NodeState, net: seq<InFlight>, g: Times, g': Times)
    requires OfferInv(l, s, g) && SendsGoodToC(l, s.p, p') && Offering(l, p'.sd)
      && EntryP(l, p'.sd) == EntryP(l, s.p.sd)
    requires NetGood(l, net) && forall f :: f in s.net && OfferPacket(l, f) ==> f in net
    requires g'.offered == g.offered && g'.offerEnd == g.offerEnd && Timely(l, MoveP(l, s, p', net))
    ensures OfferInv(l, MoveP(l, s, p', net), g')
  {
    hide Offering, Following, EntryP, EntryC, Bounds, Usable, OfferLease, SendsGoodToC, OfferPacket, NetGood, MoveP,
      MoveC, Timely;
    var s' := MoveP(l, s, p', net);
    MoveFrame(l, s, p', s.c, net);
    MovedP(l, s, p', net);
    OfferRuns(l, s, g);
    OfferKept(l, EntryP(l, s.p.sd), EntryC(l, s.c.sd), s.net, s'.net, s.now, s.now, s.cycleP, s.cycleP, g.offered,
              g.offerEnd);
  }

  lemma OfferInvC(l: Link, s: System, c': NodeState, net: seq<InFlight>, g: Times, g': Times)
    requires OfferInv(l, s, g) && SendsGoodToP(l, s.c, c') && Following(l, c'.sd)
      && EntryC(l, c'.sd) == EntryC(l, s.c.sd)
    requires NetGood(l, net) && forall f :: f in s.net && OfferPacket(l, f) ==> f in net
    requires g'.offered == g.offered && g'.offerEnd == g.offerEnd && Timely(l, MoveC(l, s, c', net))
    ensures OfferInv(l, MoveC(l, s, c', net), g')
  {
    hide Offering, Following, EntryP, EntryC, Bounds, Usable, OfferLease, SendsGoodToP, OfferPacket, NetGood, MoveP,
      MoveC, Timely;
    var s' := MoveC(l, s, c', net);
    MoveFrame(l, s, s.p, c', net);
    MovedC(l, s, c', net);
    OfferRuns(l, s, g);
    OfferKept(l, EntryP(l, s.p.sd), EntryC(l, s.c.sd), s.net, s'.net, s.now, s.now, s.cycleP, s.cycleP, g.offered,
              g.offerEnd);
  }

  lemma SubInvP(l: Link, s: System, p': NodeState, net: seq<InFlight>, g: Times, g': Times)
    requires SubInv(l, s, g) && Leasing(l, p'.events) && LeaseP(l, p'.events) == LeaseP(l, s.p.events)
    requires forall f :: f in s.net && (SubscribePacket(l, f) || AckPacket(l, f)) ==> f in net
    requires g'.subscribed == g.subscribed && g'.leaseEnd == g.leaseEnd && s.cycleC <= g.subscribed + 500 * Granted(l)
    ensures SubInv(l, MoveP(l, s, p', net), g')
  {
    hide Tracking, Holding, Leasing, TrackerC, LeaseP, SubLease, SubscribePacket, AckPacket, MoveC;
    var s' := MoveP(l, s, p', net);
    MoveFrame(l, s, p', s.c, net);
    SubKept(l, TrackerC(l, s.c.sd), LeaseP(l, s.p.events), s.net, s'.net, s.now, s.now, s.cycleC, s.cycleC,
            g.subscribed, g.leaseEnd);
  }

  lemma SubInvC(l: Link, s: System, c': NodeState, net: seq<InFlight>, g: Times, g': Times)
    requires SubInv(l, s, g) && Tracking(l, c'.sd) && TrackerC(l, c'.sd) == TrackerC(l, s.c.sd)
    requires forall f :: f in s.net && (SubscribePacket(l, f) || AckPacket(l, f)) ==> f in net
    requires g'.subscribed == g.subscribed && g'.leaseEnd == g.leaseEnd && s.cycleC <= g.subscribed + 500 * Granted(l)
    ensures SubInv(l, MoveC(l, s, c', net), g')
  {
    hide Tracking, Holding, Leasing, TrackerC, LeaseP, SubLease, SubscribePacket, AckPacket, MoveP;
    var s' := MoveC(l, s, c', net);
    MoveFrame(l, s, s.p, c', net);
    SubKept(l, TrackerC(l, s.c.sd), LeaseP(l, s.p.events), s.net, s'.net, s.now, s.now, s.cycleC, s.cycleC,
            g.subscribed, g.leaseEnd);
  }

  // -------------------------------------------------------------- one action at a time

  /** How the true times move. */
  ghost function NextTimes(l: Link, s: System, a: Action, g: Times): Times
    requires Enabled(l, s, a)
  {
    match a
    case DeliverToP(i) =>
      if Renews(l, s.net[i].source, s.net[i].frame) then g.(leaseEnd := s.now + 1000 * Granted(l)) else g
    case DeliverToC(i) =>
      if RenewsOffer(l, s.net[i].source, s.net[i].frame) then g.(offerEnd := s.now + 1000 * l.ttl) else g
    case HousekeepP =>
      if Offering(l, s.p.sd) && OfferDue(EntryP(l, s.p.sd), ClockP(l, s)) then g.(offered := s.now) else g
    case HousekeepC => if Renewing(l, s.c.sd, ClockC(l, s)) then g.(subscribed := s.now) else g
    case _ => g
  }

  lemma TickStep(l: Link, s: System, d: nat, g: Times)
    requires Inv(l, s, g) && Timely(l, Next(l, s, Tick(d)))
    ensures Inv(l, Next(l, s, Tick(d)), g)
  {
    hide Offering, Leasing, Following, Tracking, Holding, EntryP, EntryC, TrackerC, LeaseP, NetGood, Usable,
      OfferLease, SubLease;
    var s' := Next(l, s, Tick(d));
    OfferRuns(l, s, g);
    OfferKept(l, EntryP(l, s.p.sd), EntryC(l, s.c.sd), s.net, s.net, s.now, s'.now, s.cycleP, s.cycleP, g.offered,
              g.offerEnd);
    if l.sub {
      SubRuns(l, s, g);
      SubKept(l, TrackerC(l, s.c.sd), LeaseP(l, s.p.events), s.net, s.net, s.now, s'.now, s.cycleC, s.cycleC,
              g.subscribed, g.leaseEnd);
    }
  }

  lemma FrameGood(l: Link, net: seq<InFlight>, i: nat)
    requires NetGood(l, net) && i < |net|
    ensures if net[i].toConsumer then net[i].source == l.addrP && GoodToC(l, net[i].frame)
      else net[i].source == l.addrC && GoodToP(l, net[i].frame)
  {
    assert net[i] in net;
  }

  /** The provider handles a frame of the consumer. */
  lemma DeliverToPStep(l: Link, s: System, i: nat, g: Times)
    requires Inv(l, s, g) && Enabled(l, s, DeliverToP(i)) && Timely(l, Next(l, s, DeliverToP(i)))
    ensures Inv(l, Next(l, s, DeliverToP(i)), NextTimes(l, s, DeliverToP(i), g))
  {
    hide Offering, Following, OfferLease, EntryP, EntryC, Bounds, Usable, SubInv, Leasing, ConsumerOk, LeaseStays,
      LeaseStarts, GoodToP, GoodToC, Receive, SendsGoodToC, IsOffer, NetGood, SentAck, MoveP, Timely, Renews;
    var f := s.net[i];
    var p' := Receive(l.p, l.setupP, s.p, f.source, f.frame, ClockP(l, s));
    InvNodes(l, s, g);
    FrameGood(l, s.net, i);
    ProviderReceives(l, s.p, f.source, f.frame, ClockP(l, s));
    Rest(l, s.net, i);
    OfferInvP(l, s, p', Without(s.net, i), g, NextTimes(l, s, DeliverToP(i), g));
    if l.sub {
      DeliveredSub(l, s, i, g);
    }
  }

  lemma DeliveredSub(l: Link, s: System, i: nat, g: Times)
    requires Inv(l, s, g) && l.sub && Enabled(l, s, DeliverToP(i))
    ensures SubInv(l, Next(l, s, DeliverToP(i)), NextTimes(l, s, DeliverToP(i), g))
  {
    hide Offering, OfferInv, Leasing, LeaseP, SubInv, Renews, GoodToP, GoodToC, Receive, SendsGoodToC, NetGood,
      SentAck, IsSubscribe, IsAck, MoveP, Timely, ConsumerOk, SubBounds, Usable;
    var f := s.net[i];
    var p' := Receive(l.p, l.setupP, s.p, f.source, f.frame, ClockP(l, s));
    var net0 := Without(s.net, i);
    InvNodes(l, s, g);
    BasicFacts(l, s, g);
    FrameGood(l, s.net, i);
    ProviderReceives(l, s.p, f.source, f.frame, ClockP(l, s));
    Rest(l, s.net, i);
    if Renews(l, f.source, f.frame) {
      var k :| |s.p.wire| <= k < |p'.wire| && SentAck(l, f.source, p'.wire[k]);
      AckOnItsWay(l, s, p', net0, k);
      LeaseRenewed(l, s, p', net0, f, g);
    } else {
      NotASubscribe(l, f);
      SubRuns(l, s, g);
      SubInvP(l, s, p', net0, g, g);
    }
  }

  lemma BasicFacts(l: Link, s: System, g: Times)
    requires Inv(l, s, g)
    ensures Usable(l) && l.ttl > 0 && (l.sub ==> SubBounds(l)) && Timely(l, s) && NetGood(l, s.net)
  {
  }

  lemma NotASubscribe(l: Link, f: InFlight)
    requires !Renews(l, f.source, f.frame)
    ensures !SubscribePacket(l, f)
  {
    hide Seen;
  }

  lemma AckOnItsWay(l: Link, s: System, p': NodeState, net: seq<InFlight>, k: nat)
    requires SendsGoodToC(l, s.p, p') && |s.p.wire| <= k < |p'.wire| && SentAck(l, l.addrC, p'.wire[k])
    ensures exists f :: f in MoveP(l, s, p', net).net && AckPacket(l, f) && f.sentAt == s.now
  {
    hide IsAck;
    SentByP(l, s, p', net, k);
    var f := InFlight(true, l.addrP, p'.wire[k].frame, s.now);
    assert AckPacket(l, f);
  }

  /** A renewal reaches the provider: the lease runs its full length from now. */
  lemma LeaseRenewed(l: Link, s: System, p': NodeState, net: seq<InFlight>, f: InFlight, g: Times)
    requires SubInv(l, s, g) && SubBounds(l) && Timely(l, s) && f in s.net && !f.toConsumer
    requires forall x :: x in s.net && x != f ==> x in net
    requires exists x :: x in MoveP(l, s, p', net).net && AckPacket(l, x) && x.sentAt == s.now
    requires LeaseStarts(l, p'.events, l.addrC, ClockP(l, s))
    ensures SubInv(l, MoveP(l, s, p', net), g.(leaseEnd := s.now + 1000 * Granted(l)))
  {
    hide IsAck, IsSubscribe, Leasing, LeaseP, Wrap32, Tracking, Holding, TrackerC;
    var net' := MoveP(l, s, p', net).net;
    assert forall x :: x in net ==> x in net';
    WrapSum(s.now + l.offP, 1000 * Granted(l));
    if TrackerC(l, s.c.sd).grantedTtl == 0 {
      if SubscribeComing(l, s.net, g.subscribed + l.delay) {
        var w :| w in s.net && SubscribePacket(l, w) && w.sentAt + l.delay <= g.subscribed + l.delay;
        Pending(l, s, w);
        if w == f {
          var x :| x in net' && AckPacket(l, x) && x.sentAt == s.now;
          assert AckComing(l, net', g.subscribed + 2 * l.delay);
        } else {
          assert w in net';
        }
      } else {
        var w :| w in s.net && AckPacket(l, w) && w.sentAt + l.delay <= g.subscribed + 2 * l.delay;
        assert w in net';
      }
    }
  }

  /** The consumer handles a frame of the provider. */
  lemma DeliverToCStep(l: Link, s: System, i: nat, g: Times)
    requires Inv(l, s, g) && Enabled(l, s, DeliverToC(i)) && Timely(l, Next(l, s, DeliverToC(i)))
    ensures Inv(l, Next(l, s, DeliverToC(i)), NextTimes(l, s, DeliverToC(i), g))
    ensures NoLoss(l, s.c, Next(l, s, DeliverToC(i)).c)
  {
    hide Offering, Following, OfferLease, EntryP, EntryC, Bounds, Usable, SubInv, FollowingBoth, ProviderOk,
      TrackerStays, TrackerGranted, GoodToP, GoodToC, Receive, SendsGoodToP, IsOffer, NetGood, MoveC, Timely,
      RenewsOffer, GrantsLease, NoLoss, Wrap32;
    var f := s.net[i];
    var c' := Receive(l.c, l.setupC, s.c, f.source, f.frame, ClockC(l, s));
    var net0 := Without(s.net, i);
    InvNodes(l, s, g);
    BasicFacts(l, s, g);
    FrameGood(l, s.net, i);
    ConsumerReceives(l, s.c, f.source, f.frame, ClockC(l, s));
    FollowingHere(l, c'.sd);
    Rest(l, s.net, i);
    NotAnOffer(l, f);
    MoveFrame(l, s, s.p, c', net0);
    if RenewsOffer(l, f.source, f.frame) {
      OfferRenewed(l, s, c', net0, g);
    } else {
      OfferInvC(l, s, c', net0, g, g);
    }
    if l.sub {
      ReceivedSub(l, s, i, g);
    }
  }

  lemma FollowingHere(l: Link, sd: Sd)
    requires FollowingBoth(l, sd)
    ensures Following(l, sd)
  {
  }

  lemma NotAnOffer(l: Link, f: InFlight)
    ensures !RenewsOffer(l, f.source, f.frame) ==> !OfferPacket(l, f)
    ensures !GrantsLease(l, f.source, f.frame) ==> !AckPacket(l, f)
  {
    hide Seen;
  }

  /** An offer reaches the consumer: its lease runs its full length from now. */
  lemma OfferRenewed(l: Link, s: System, c': NodeState, net: seq<InFlight>, g: Times)
    requires OfferInv(l, s, g) && Following(l, c'.sd) && SendsGoodToP(l, s.c, c') && NetGood(l, net)
      && Timely(l, MoveC(l, s, c', net))
    requires EntryC(l, c'.sd) == EntryC(l, s.c.sd).(ttlExpiryMs := Wrap32(ClockC(l, s) + 1000 * l.ttl))
    ensures OfferInv(l, MoveC(l, s, c', net), g.(offerEnd := s.now + 1000 * l.ttl))
  {
    hide OfferComing, Wrap32, NetGood, Offering, Following, EntryP, EntryC, Timely, SendsGoodToP, Usable, MoveC;
    MoveFrame(l, s, s.p, c', net);
    MovedC(l, s, c', net);
    WrapSum(s.now + l.offC, 1000 * l.ttl);
  }

  lemma ReceivedSub(l: Link, s: System, i: nat, g: Times)
    requires Inv(l, s, g) && l.sub && Enabled(l, s, DeliverToC(i))
    ensures SubInv(l, Next(l, s, DeliverToC(i)), NextTimes(l, s, DeliverToC(i), g))
  {
    hide OfferInv, Following, Tracking, TrackerC, SubInv, RenewsOffer, GrantsLease, GoodToP, GoodToC, Receive,
      SendsGoodToP, NetGood, IsSubscribe, IsAck, MoveC, Timely, ProviderOk, FollowingBoth, SubBounds, Usable, EntryC;
    var f := s.net[i];
    var c' := Receive(l.c, l.setupC, s.c, f.source, f.frame, ClockC(l, s));
    var net0 := Without(s.net, i);
    InvNodes(l, s, g);
    BasicFacts(l, s, g);
    FrameGood(l, s.net, i);
    ConsumerReceives(l, s.c, f.source, f.frame, ClockC(l, s));
    Rest(l, s.net, i);
    NotAnOffer(l, f);
    var g' := NextTimes(l, s, DeliverToC(i), g);
    SubRuns(l, s, g);
    if GrantsLease(l, f.source, f.frame) {
      LeaseAcknowledged(l, s, c', net0, f, g, g');
    } else {
      SubInvC(l, s, c', net0, g, g');
    }
  }

  lemma LeaseAcknowledged(l: Link, s: System, c': NodeState, net: seq<InFlight>, f: InFlight, g: Times, g': Times)
    requires SubInv(l, s, g) && SubBounds(l) && f.toConsumer && forall x :: x in s.net && x != f ==> x in net
    requires Tracking(l, c'.sd) && TrackerC(l, c'.sd) == TrackerC(l, s.c.sd).(grantedTtl := Granted(l))
    requires g'.subscribed == g.subscribed && g'.leaseEnd == g.leaseEnd
    ensures SubInv(l, MoveC(l, s, c', net), g')
  {
    hide IsSubscribe, AckComing, Wrap32, Tracking, TrackerC, Leasing, LeaseP;
    var net' := MoveC(l, s, c', net).net;
    assert forall x :: x in net ==> x in net';
    if SubscribeComing(l, s.net, g.leaseEnd) {
      var x :| x in s.net && SubscribePacket(l, x) && x.sentAt + l.delay <= g.leaseEnd;
      assert x in net';
    }
  }

  /** The provider moves otherwise and keeps its entry and the lease. */
  lemma ProviderElse(l: Link, s: System, p': NodeState, g: Times)
    requires Inv(l, s, g) && SendsGoodToC(l, s.p, p') && Offering(l, p'.sd) && EntryP(l, p'.sd) == EntryP(l, s.p.sd)
    requires LeaseStays(l, s.p.events, p'.events) && Timely(l, MoveP(l, s, p', s.net))
    ensures Inv(l, MoveP(l, s, p', s.net), g)
  {
    hide OfferLease, Offering, Leasing, Following, EntryP, LeaseP, SubInv, SendsGoodToC, NetGood, MoveP, OfferPacket,
      AckPacket, SubscribePacket, Timely, Usable;
    OfferInvP(l, s, p', s.net, g, g);
    if l.sub {
      SubRuns(l, s, g);
      SubInvP(l, s, p', s.net, g, g);
    }
  }

  lemma ConsumerElse(l: Link, s: System, c': NodeState, g: Times)
    requires Inv(l, s, g) && SendsGoodToP(l, s.c, c') && EntryStays(l, s.c.sd, c'.sd) && TrackerStays(l, s.c.sd, c'.sd)
    requires Timely(l, MoveC(l, s, c', s.net))
    ensures Inv(l, MoveC(l, s, c', s.net), g)
  {
    hide OfferLease, Offering, Following, Tracking, EntryC, TrackerC, SubInv, SendsGoodToP, NetGood, MoveC,
      OfferPacket, AckPacket, SubscribePacket, Timely, Usable;
    OfferInvC(l, s, c', s.net, g, g);
    if l.sub {
      SubRuns(l, s, g);
      SubInvC(l, s, c', s.net, g, g);
    }
  }

  /** The provider handles a frame of another device. */
  lemma ForeignToPStep(l: Link, s: System, source: Address, frame: Bytes, g: Times)
    requires Inv(l, s, g) && Enabled(l, s, ForeignToP(source, frame))
      && Timely(l, Next(l, s, ForeignToP(source, frame)))
    ensures Inv(l, Next(l, s, ForeignToP(source, frame)), g)
  {
    hide OfferInv, SubInv, Offering, Leasing, LeaseP, EntryP, LeaseStarts, Usable, Renews, Receive, SendsGoodToC,
      MoveP, BenignToP, ConsumerOk, Timely;
    InvNodes(l, s, g);
    BasicFacts(l, s, g);
    ProviderReceives(l, s.p, source, frame, ClockP(l, s));
    BenignRenewsNothing(l, source, frame);
    ProviderElse(l, s, Receive(l.p, l.setupP, s.p, source, frame, ClockP(l, s)), g);
  }

  lemma BenignRenewsNothing(l: Link, source: Address, frame: Bytes)
    requires BenignToP(l, source, frame)
    ensures l.sub ==> !Renews(l, source, frame)
  {
    hide Seen;
  }

  /** The calls that may happen once only are over. */
  lemma CallsOver(l: Link, s: System, g: Times)
    requires Inv(l, s, g)
    ensures ProviderIndex(s.p.sd.providers, l.sid) < |s.p.sd.providers| && ProviderOf(s.c.sd.consumers, l.sid).Some?
    ensures l.sub ==> TrackerIndex(s.c.sd.trackers, l.sid, l.eid) < |s.c.sd.trackers|
  {
  }

  /** The application of the provider calls something. */
  lemma CallPStep(l: Link, s: System, e: Event, g: Times)
    requires Inv(l, s, g) && Enabled(l, s, CallP(e)) && Timely(l, Next(l, s, CallP(e)))
    ensures Inv(l, Next(l, s, CallP(e)), g)
  {
    hide OfferInv, SubInv, Offering, Leasing, EntryP, LeaseP, Usable, SdStep, SendsGoodToC, MoveP, ConsumerOk, Timely;
    InvNodes(l, s, g);
    BasicFacts(l, s, g);
    CallsOver(l, s, g);
    ProviderCalls(l, s.p, e, ClockP(l, s));
    ProviderElse(l, s, SdStep(l.p, s.p, e, ClockP(l, s)), g);
  }

  lemma RegisterPStep(l: Link, s: System, sid: u16, eid: u16, g: Times)
    requires Inv(l, s, g) && Timely(l, Next(l, s, RegisterP(sid, eid)))
    ensures Inv(l, Next(l, s, RegisterP(sid, eid)), g)
  {
    hide Offering, Following, Tracking, Holding, EM.WellFormed, EM.Lease, EM.Register, OfferLease, SubLease, NetGood,
      Usable;
    if l.sub {
      EM.RegisterKeeps(s.p.events, l.p.limits, sid, eid);
    }
  }

  /** A frame of another device, and a call of the application, at the consumer. */
  lemma ForeignToCStep(l: Link, s: System, source: Address, frame: Bytes, g: Times)
    requires Inv(l, s, g) && Enabled(l, s, ForeignToC(source, frame))
      && Timely(l, Next(l, s, ForeignToC(source, frame)))
    ensures Inv(l, Next(l, s, ForeignToC(source, frame)), g)
    ensures NoLoss(l, s.c, Next(l, s, ForeignToC(source, frame)).c)
  {
    hide OfferInv, SubInv, Following, EntryC, Tracking, TrackerC, TrackerGranted, Usable, RenewsOffer, GrantsLease,
      Receive, SendsGoodToP, MoveC, BenignToC, ProviderOk, Timely, NoLoss, FollowingBoth;
    var c' := Receive(l.c, l.setupC, s.c, source, frame, ClockC(l, s));
    InvNodes(l, s, g);
    BasicFacts(l, s, g);
    FollowingHere(l, s.c.sd);
    ConsumerReceives(l, s.c, source, frame, ClockC(l, s));
    FollowingHere(l, c'.sd);
    BenignGrantsNothing(l, source, frame);
    MoveFrame(l, s, s.p, c', s.net);
    ConsumerElse(l, s, c', g);
  }

  lemma BenignGrantsNothing(l: Link, source: Address, frame: Bytes)
    requires BenignToC(l, source, frame)
    ensures !RenewsOffer(l, source, frame) && (l.sub ==> !GrantsLease(l, source, frame))
  {
    hide Seen;
  }

  lemma CallCStep(l: Link, s: System, e: Event, g: Times)
    requires Inv(l, s, g) && Enabled(l, s, CallC(e)) && Timely(l, Next(l, s, CallC(e)))
    ensures Inv(l, Next(l, s, CallC(e)), g)
    ensures NoLoss(l, s.c, Next(l, s, CallC(e)).c)
  {
    hide OfferInv, SubInv, EntryStays, TrackerStays, Usable, SdStep, SendsGoodToP, MoveC, ProviderOk, Timely, NoLoss,
      FollowingBoth;
    var c' := SdStep(l.c, s.c, e, ClockC(l, s));
    InvNodes(l, s, g);
    BasicFacts(l, s, g);
    CallsOver(l, s, g);
    ConsumerCalls(l, s.c, e, ClockC(l, s));
    MoveFrame(l, s, s.p, c', s.net);
    ConsumerElse(l, s, c', g);
  }

  /** A cycle of the provider: when half the lease has passed the next offer goes out, in
      time to be handled before the consumer's lease ends. */
  lemma HousekeepPStep(l: Link, s: System, g: Times)
    requires Inv(l, s, g) && Timely(l, Next(l, s, HousekeepP))
    ensures Inv(l, Next(l, s, HousekeepP), NextTimes(l, s, HousekeepP, g))
  {
    hide Offering, Following, EntryC, Usable, OfferLease, SubInv, Leasing, LeaseP, ConsumerOk, Housekeeping,
      SendsGoodToC, NetGood, SentOffer, OfferDue, TimeAfter, OfferPacket, MoveP, AckPacket, SubscribePacket;
    var p' := Housekeeping(l.p, s.p, ClockP(l, s));
    var g' := NextTimes(l, s, HousekeepP, g);
    InvNodes(l, s, g);
    OfferClock(l, s, g);
    OfferRuns(l, s, g);
    if l.sub {
      SubClock(l, s, g);
      SubRuns(l, s, g);
    }
    ProviderCycle(l, s.p, ClockP(l, s));
    var m := MoveP(l, s, p', s.net);
    MoveFrame(l, s, p', s.c, s.net);
    MovedP(l, s, p', s.net);
    if l.sub {
      SubInvP(l, s, p', s.net, g, g');
      SubOther(l, m, m.(cycleP := s.now), g');
    }
    if OfferDue(EntryP(l, s.p.sd), ClockP(l, s)) {
      var k :| |s.p.wire| <= k < |p'.wire| && SentOffer(l, p'.wire[k]);
      OfferOnItsWay(l, s, p', k);
      OfferSent(l, s, m.net, g);
    } else {
      OfferKept(l, EntryP(l, s.p.sd), EntryC(l, s.c.sd), s.net, m.net, s.now, s.now, s.cycleP, s.now, g.offered,
                g.offerEnd);
    }
  }

  /** The subscription lease does not look at the provider's cycles. */
  lemma SubOther(l: Link, s: System, s': System, g: Times)
    requires SubInv(l, s, g) && s'.p == s.p && s'.c == s.c && s'.net == s.net && s'.now == s.now
      && s'.cycleC == s.cycleC
    ensures SubInv(l, s', g)
  {
  }

  lemma OfferOnItsWay(l: Link, s: System, p': NodeState, k: nat)
    requires SendsGoodToC(l, s.p, p') && |s.p.wire| <= k < |p'.wire| && SentOffer(l, p'.wire[k])
    ensures exists f :: f in MoveP(l, s, p', s.net).net && OfferPacket(l, f) && f.sentAt == s.now
  {
    hide IsOffer;
    SentByP(l, s, p', s.net, k);
    var f := InFlight(true, l.addrP, p'.wire[k].frame, s.now);
    assert OfferPacket(l, f);
  }

  lemma OfferSent(l: Link, s: System, net': seq<InFlight>, g: Times)
    requires OfferInv(l, s, g) && (forall f :: f in s.net ==> f in net')
    requires exists f :: f in net' && OfferPacket(l, f) && f.sentAt == s.now
    ensures OfferLease(l, EntryP(l, s.p.sd).(lastOfferMs := ClockP(l, s), needsBroadcast := false), EntryC(l, s.c.sd),
                       net', s.now, s.now, s.now, g.offerEnd)
  {
    hide OfferPacket, Usable, NetGood, Wrap32, Following, Offering, EntryP, EntryC;
    if g.offerEnd >= g.offered + 1000 * l.ttl {
      var f :| f in net' && OfferPacket(l, f) && f.sentAt == s.now;
      assert OfferComing(l, net', g.offerEnd);
    } else {
      var f :| f in s.net && OfferPacket(l, f) && f.sentAt + l.delay <= g.offerEnd;
      assert f in net';
    }
  }

  /** A cycle of the consumer: when half the granted lease has passed the renewal goes out,
      in time to be handled before the provider drops the subscriber. */
  lemma HousekeepCStep(l: Link, s: System, g: Times)
    requires Inv(l, s, g) && Timely(l, Next(l, s, HousekeepC))
    ensures Inv(l, Next(l, s, HousekeepC), NextTimes(l, s, HousekeepC, g))
    ensures NoLoss(l, s.c, Next(l, s, HousekeepC).c)
  {
    hide Offering, Following, EntryP, Usable, OfferLease, SubLease, Leasing, LeaseP, Tracking, TrackerC, Holding,
      ProviderOk, Housekeeping, SendsGoodToP, NetGood, SentSubscribe, RenewalDue, RetryDue, TimeAfter, OfferPacket,
      AckPacket, SubscribePacket, MoveC, NoLoss, Bounds;
    var c' := Housekeeping(l.c, s.c, ClockC(l, s));
    var g' := NextTimes(l, s, HousekeepC, g);
    InvNodes(l, s, g);
    BasicFacts(l, s, g);
    OfferClock(l, s, g);
    OfferRuns(l, s, g);
    if l.sub {
      SubClock(l, s, g);
    }
    ConsumerCycle(l, s.c, ClockC(l, s));
    var m := MoveC(l, s, c', s.net);
    MoveFrame(l, s, s.p, c', s.net);
    MovedC(l, s, c', s.net);
    OfferKept(l, EntryP(l, s.p.sd), EntryC(l, s.c.sd), s.net, m.net, s.now, s.now, s.cycleP, s.cycleP, g.offered,
              g.offerEnd);
    if l.sub {
      if Renewing(l, s.c.sd, ClockC(l, s)) {
        var k :| |s.c.wire| <= k < |c'.wire| && SentSubscribe(l, c'.wire[k]);
        SubscribeOnItsWay(l, s, c', k);
        RenewalSent(l, s, m.net, g);
      } else {
        NotDueYet(l, s, g);
        SubKept(l, TrackerC(l, s.c.sd), LeaseP(l, s.p.events), s.net, m.net, s.now, s.now, s.cycleC, s.now,
                g.subscribed, g.leaseEnd);
      }
    }
  }

  lemma NotDueYet(l: Link, s: System, g: Times)
    requires SubBounds(l) && Timely(l, s) && SubInv(l, s, g) && !RenewalDue(TrackerC(l, s.c.sd), ClockC(l, s))
    ensures s.now <= g.subscribed + 500 * Granted(l)
  {
    SubRuns(l, s, g);
    SubClock(l, s, g);
  }

  lemma SubscribeOnItsWay(l: Link, s: System, c': NodeState, k: nat)
    requires SendsGoodToP(l, s.c, c') && |s.c.wire| <= k < |c'.wire| && SentSubscribe(l, c'.wire[k])
    ensures exists f :: f in MoveC(l, s, c', s.net).net && SubscribePacket(l, f) && f.sentAt == s.now
  {
    hide IsSubscribe;
    SentByC(l, s, c', s.net, k);
    var f := InFlight(false, l.addrC, c'.wire[k].frame, s.now);
    assert SubscribePacket(l, f);
  }

  lemma RenewalSent(l: Link, s: System, net': seq<InFlight>, g: Times)
    requires SubBounds(l) && Timely(l, s) && SubInv(l, s, g) && (forall f :: f in s.net ==> f in net')
    requires RenewalDue(TrackerC(l, s.c.sd), ClockC(l, s))
    requires exists f :: f in net' && SubscribePacket(l, f) && f.sentAt == s.now
    ensures SubLease(l, TrackerC(l, s.c.sd).(lastSentMs := ClockC(l, s)), LeaseP(l, s.p.events), net', s.now, s.now,
                     s.now, g.leaseEnd)
  {
    hide SubscribePacket, AckPacket, Wrap32, Tracking, TrackerC, Leasing, LeaseP, Holding, TimeAfterOrEq;
    if g.leaseEnd >= g.subscribed + 1000 * Granted(l) {
      var f :| f in net' && SubscribePacket(l, f) && f.sentAt == s.now;
      assert SubscribeComing(l, net', g.leaseEnd);
    } else {
      var f :| f in s.net && SubscribePacket(l, f) && f.sentAt + l.delay <= g.leaseEnd;
      assert f in net';
    }
  }

  // ------------------------------------------------------------------ over whole runs

  lemma LeaseStep(l: Link, s: System, a: Action, g: Times)
    requires Inv(l, s, g) && Enabled(l, s, a) && Timely(l, Next(l, s, a))
    ensures Inv(l, Next(l, s, a), NextTimes(l, s, a, g))
    ensures NoLoss(l, s.c, Next(l, s, a).c)
  {
    hide Inv, Timely;
    match a
    case Tick(d) => TickStep(l, s, d, g);
    case DeliverToP(i) => DeliverToPStep(l, s, i, g);
    case DeliverToC(i) => DeliverToCStep(l, s, i, g);
    case ForeignToP(source, frame) => ForeignToPStep(l, s, source, frame, g);
    case ForeignToC(source, frame) => ForeignToCStep(l, s, source, frame, g);
    case HousekeepP => HousekeepPStep(l, s, g);
    case HousekeepC => HousekeepCStep(l, s, g);
    case CallP(e) => CallPStep(l, s, e, g);
    case RegisterP(sid, eid) => RegisterPStep(l, s, sid, eid, g);
    case CallC(e) => CallCStep(l, s, e, g);
  }

  lemma {:induction false} RunKeepsLeases(l: Link, s: System, run: seq<Action>, g: Times) returns (g': Times)
    requires Inv(l, s, g) && IsRun(l, s, run)
    ensures Inv(l, After(l, s, run), g') && NoLoss(l, s.c, After(l, s, run).c)
    decreases |run|
  {
    hide Inv, Timely, Next, Enabled;
    g' := g;
    if run != [] {
      var s1 := Next(l, s, run[0]);
      LeaseStep(l, s, run[0], g);
      g' := RunKeepsLeases(l, s1, run[1..], NextTimes(l, s, run[0], g));
      assert NoLoss(l, s1.c, After(l, s1, run[1..]).c);
    }
  }

  /** The offer lease over every run, whatever happens to the clocks: as long as the devices
      keep time, the consumer has the service, at the provider's address, and the
      application never hears that it was lost. No subscription is needed. */
  lemma OfferLeaseHolds(l: Link, s: System, run: seq<Action>, g: Times)
    requires Inv(l, s, g) && IsRun(l, s, run)
    ensures var s' := After(l, s, run);
      && ProviderOf(s'.c.sd.consumers, l.sid) == Some(l.addrP)
      && s.c.app <= s'.c.app
      && Discovered(LostCallback(l.sid)) !in s'.c.app[|s.c.app|..]
  {
    hide IsRun, After, NoLoss;
    var g' := RunKeepsLeases(l, s, run, g);
    NothingLost(l, s.c, After(l, s, run).c);
    FoundAt(l, After(l, s, run), g');
  }

  lemma NothingLost(l: Link, n: NodeState, n': NodeState)
    requires NoLoss(l, n, n')
    ensures n.app <= n'.app && Discovered(LostCallback(l.sid)) !in n'.app[|n.app|..]
  {
  }

  lemma FoundAt(l: Link, s: System, g: Times)
    requires OfferInv(l, s, g)
    ensures ProviderOf(s.c.sd.consumers, l.sid) == Some(l.addrP)
  {
  }

  /** The provider holds the subscriber with between zero and a full lease to run, and the
      consumer's subscription is active. */
  ghost predicate SubscriberHeld(l: Link, s: System) {
    && EM.Lease(s.p.events, l.sid, l.eid, l.c.sd.clientId).Some?
    && Wrap32(EM.Lease(s.p.events, l.sid, l.eid, l.c.sd.clientId).value.expiryMs - ClockP(l, s)) <= 1000 * Granted(l)
    && exists t :: t in s.c.sd.trackers && IsTracker(t, l.sid, l.eid) && t.active && t.grantedTtl in {0, Granted(l)}
  }

  /** The subscription lease over every run: the provider keeps the subscriber, and its lease
      never ends. */
  lemma SubscriptionLeaseHolds(l: Link, s: System, run: seq<Action>, g: Times)
    requires l.sub && Inv(l, s, g) && IsRun(l, s, run)
    ensures SubscriberHeld(l, After(l, s, run))
  {
    hide IsRun, After, Inv, NoLoss, SubscriberHeld;
    var g' := RunKeepsLeases(l, s, run, g);
    SubscriberThere(l, After(l, s, run), g');
  }

  lemma SubscriberThere(l: Link, s: System, g: Times)
    requires l.sub && Inv(l, s, g)
    ensures SubscriberHeld(l, s)
  {
    hide OfferInv, SubscribeComing, AckComing, EM.WellFormed, EM.Lease, Wrap32;
    BasicFacts(l, s, g);
    SubRuns(l, s, g);
    WrapDifference(g.leaseEnd + l.offP, s.now + l.offP);
    SmallWrap(g.leaseEnd - s.now);
    assert TrackerC(l, s.c.sd) in s.c.sd.trackers;
  }

  lemma SmallWrap(x: int)
    requires 0 <= x < TWO_32
    ensures Wrap32(x) == x
  {
  }

  // -------------------------------------------------------------- a cycle is actions

  /** The frame a receive action hands to the device `toConsumer`. */
  predicate IsReceive(toConsumer: bool, a: Action) {
    if toConsumer then a.DeliverToC? || a.ForeignToC? else a.DeliverToP? || a.ForeignToP?
  }

  function Received(l: Link, s: System, a: Action): Inbound
    requires Enabled(l, s, a) && (IsReceive(false, a) || IsReceive(true, a))
  {
    match a
    case DeliverToP(i) => Inbound(s.net[i].source, s.net[i].frame)
    case DeliverToC(i) => Inbound(s.net[i].source, s.net[i].frame)
    case ForeignToP(source, frame) => Inbound(source, frame)
    case ForeignToC(source, frame) => Inbound(source, frame)
  }

  /** `run` is receive actions of one device, which take the frames of `inbox` in order. */
  predicate Feeds(l: Link, s: System, toConsumer: bool, run: seq<Action>, inbox: seq<Inbound>)
    decreases |run|
  {
    if run == [] then inbox == []
    else
      && inbox != [] && Enabled(l, s, run[0]) && IsReceive(toConsumer, run[0])
      && Received(l, s, run[0]) == inbox[0]
      && Feeds(l, Next(l, s, run[0]), toConsumer, run[1..], inbox[1..])
  }

  /** Receiving the frames of a queue one action at a time and then housekeeping is exactly
      one call of `process` by that device, at one instant. */
  lemma {:induction false} DrainIsActions(l: Link, s: System, toConsumer: bool, run: seq<Action>, inbox: seq<Inbound>)
    requires IsRun(l, s, run) && Feeds(l, s, toConsumer, run, inbox)
    ensures var s' := After(l, s, run);
      && s'.now == s.now
      && (if toConsumer then s'.p == s.p && s'.c == Drain(l.c, l.setupC, s.c, inbox, ClockC(l, s))
          else s'.c == s.c && s'.p == Drain(l.p, l.setupP, s.p, inbox, ClockP(l, s)))
    decreases |run|
  {
    hide Receive, Timely, Next, Enabled, Received, Drain;
    if run == [] {
      DrainNothing(l.p, l.setupP, s.p, ClockP(l, s));
      DrainNothing(l.c, l.setupC, s.c, ClockC(l, s));
    } else {
      var s1 := Next(l, s, run[0]);
      OneReceived(l, s, toConsumer, run[0]);
      DrainIsActions(l, s1, toConsumer, run[1..], inbox[1..]);
      assert inbox == [inbox[0]] + inbox[1..];
      if toConsumer {
        DrainFirst(l.c, l.setupC, s.c, inbox, ClockC(l, s));
      } else {
        DrainFirst(l.p, l.setupP, s.p, inbox, ClockP(l, s));
      }
    }
  }

  lemma DrainNothing(cfg: NodeConfig, setup: Setup, n: NodeState, now: u32)
    ensures Drain(cfg, setup, n, [], now) == n
  {
  }

  lemma OneReceived(l: Link, s: System, toConsumer: bool, a: Action)
    requires Enabled(l, s, a) && IsReceive(toConsumer, a)
    ensures var s' := Next(l, s, a);
      var f := Received(l, s, a);
      && s'.now == s.now
      && (if toConsumer then s'.p == s.p && s'.c == Receive(l.c, l.setupC, s.c, f.source, f.frame, ClockC(l, s))
          else s'.c == s.c && s'.p == Receive(l.p, l.setupP, s.p, f.source, f.frame, ClockP(l, s)))
  {
    hide Receive, BenignToP, BenignToC;
  }

  lemma {:induction false} DrainFirst(cfg: NodeConfig, setup: Setup, n: NodeState, inbox: seq<Inbound>, now: u32)
    requires inbox != []
    ensures Drain(cfg, setup, n, inbox, now)
         == Drain(cfg, setup, Receive(cfg, setup, n, inbox[0].source, inbox[0].frame, now), inbox[1..], now)
    decreases |inbox|
  {
    hide Receive;
    var n1 := Receive(cfg, setup, n, inbox[0].source, inbox[0].frame, now);
    var k := |inbox| - 1;
    if k == 0 {
      assert Drain(cfg, setup, n, inbox[..0], now) == n;
      assert Drain(cfg, setup, n1, inbox[1..], now) == n1;
    } else {
      DrainFirst(cfg, setup, n, inbox[..k], now);
      assert inbox[..k][1..] == inbox[1..][..k - 1];
    }
  }

  /** The housekeeping action of one device. */
  function Cycle(l: Link, s: System, toConsumer: bool): System {
    if toConsumer then Next(l, s, HousekeepC) else Next(l, s, HousekeepP)
  }

  /** `s'` is `s` after one call of `process` by one device, which had `inbox` in its queue. */
  ghost predicate Processed(l: Link, s: System, s': System, toConsumer: bool, inbox: seq<Inbound>) {
    && s'.now == s.now
    && (if toConsumer then s'.p == s.p && s'.c == Process(l.c, l.setupC, s.c, inbox, ClockC(l, s)) && s'.cycleC == s.now
        else s'.c == s.c && s'.p == Process(l.p, l.setupP, s.p, inbox, ClockP(l, s)) && s'.cycleP == s.now)
  }

  lemma {:induction false} CycleIsActions(l: Link, s: System, toConsumer: bool, run: seq<Action>, inbox: seq<Inbound>)
    requires IsRun(l, s, run) && Feeds(l, s, toConsumer, run, inbox)
    requires |inbox| <= (if toConsumer then l.c.maxReceiveQueue else l.p.maxReceiveQueue)
    ensures Processed(l, s, Cycle(l, After(l, s, run), toConsumer), toConsumer, inbox)
  {
    hide Housekeeping, Drain, IsRun, Feeds, After;
    DrainIsActions(l, s, toConsumer, run, inbox);
  }

  // ------------------------------------------------------------- why the order matters

  lemma FreshLease(now: u32, ttl: u16)
    ensures !TimeAfter(now, Wrap32(now + 1000 * ttl))
  {
    ClockComparison(now, now + 1000 * (ttl as int));
  }

  /** The queue is drained before leases are judged: an offer that waits in the queue keeps
      the service, and nothing is reported lost, however long the lease has been over. */
  lemma QueuedOfferCounts(l: Link, n: NodeState, offer: Bytes, now: u32)
    requires Usable(l) && !l.sub && ConsumerOk(l, n) && l.ttl > 0 && IsOffer(l, offer) && l.c.maxReceiveQueue > 0
    ensures var n' := Process(l.c, l.setupC, n, [Inbound(l.addrP, offer)], now);
      ProviderOf(n'.sd.consumers, l.sid) == Some(l.addrP) && NoLoss(l, n, n')
  {
    hide Receive, Housekeeping, Seen, Wrap32, TimeAfter, SendsGoodToP;
    var inbox := [Inbound(l.addrP, offer)];
    var n1 := Receive(l.c, l.setupC, n, l.addrP, offer, now);
    assert inbox[..0] == [];
    assert Drain(l.c, l.setupC, n, inbox, now) == n1;
    ConsumerReceives(l, n, l.addrP, offer, now);
    FreshLease(now, l.ttl);
    ConsumerCycle(l, n1, now);
  }
}
