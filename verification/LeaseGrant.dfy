/** The subscription's lease on every run from power-on: the application subscribes, the
message goes out once, and the provider grants the lease, which then never ends, or refuses it. */
module LeaseGrant {
  import opened Words
  import opened SdMessages
  import opened DiscoverySpec
  import opened DiscoveryLog
  import opened Node
  import opened NodeEffects
  import opened Subscriptions
  import opened LeaseSystem
  import opened LeaseProvider
  import opened LeaseConsumer
  import opened Leases
  import opened LeaseBefore
  import opened LeaseJoin
  import EM = EventManager

  // ------------------------------------------------------- the course of the service

  /** The same link without regard to the subscription, at the provider's first boot. */
  function Free(l: Link): Link {
    l.(sub := false, before := None)
  }

  /** What may happen with regard to the subscription may happen without it. */
  lemma FreeAction(l: Link, s: System, a: Action)
    requires Enabled(l, s, a)
    ensures Enabled(Free(l), s, a) && Next(Free(l), s, a) == Next(l, s, a)
  {
    hide Seen, Receive, Housekeeping, SdStep;
  }

  lemma FreeLink(l: Link, s: System)
    ensures Usable(Free(l)) == Usable(l) && Timely(Free(l), s) == Timely(l, s) && (Bounds(l) ==> Bounds(Free(l)))
  {
  }

  ghost predicate Found(l: Link, s: System) {
    ProviderOf(s.c.sd.consumers, l.sid).Some?
  }

  /** The course of the service goes on, and once found it stays found. */
  lemma CourseKeeps(l: Link, s: System, a: Action, g: Times) returns (g': Times)
    requires !l.sub && l.before == None && OnCourse(l, s, g) && Enabled(l, s, a) && Timely(l, Next(l, s, a))
    ensures OnCourse(l, Next(l, s, a), g') && (Found(l, s) ==> Inv(l, Next(l, s, a), g') && Found(l, Next(l, s, a)))
  {
    hide OnCourse, Inv, Timely, Next, Enabled;
    if Found(l, s) {
      FoundIsLeased(l, s, g);
      CommonOf(l, s, g);
      UnderLease(l, s, a, g);
      LeaseStep(l, s, a, g);
      g' := NextTimes(l, s, a, g);
      InvFound(l, Next(l, s, a), g');
    } else {
      g' := CourseStep(l, s, a, g);
    }
  }

  lemma CommonOf(l: Link, s: System, g: Times)
    requires OnCourse(l, s, g)
    ensures Common(l, s) && NetGood(l, s.net)
  {
    hide NotOffered, NotHeard, Inv, NetGood;
  }

  /** The course does not look at the subscription's times. */
  lemma CourseTimes(l: Link, s: System, g: Times, sent: nat, end: nat)
    requires !l.sub
    ensures OnCourse(l, s, g) ==> OnCourse(l, s, g.(subscribed := sent, leaseEnd := end))
    ensures Inv(l, s, g) ==> Inv(l, s, g.(subscribed := sent, leaseEnd := end))
  {
    hide Common, Offering, Following, NetGood, Usable, Bounds, NotOffered, OfferLease, Timely;
  }

  // ------------------------------------------------------------------------- phases

  ghost function Tracked(l: Link, s: System): Option<SubTracker> {
    TrackerOf(s.c.sd, l.sid, l.eid)
  }

  ghost predicate RefusalPacket(l: Link, f: InFlight) {
    f.toConsumer && f.source == l.addrP && Refusal(l, f.frame)
  }

  ghost predicate RefusalComing(l: Link, net: seq<InFlight>, end: nat) {
    exists f :: f in net && RefusalPacket(l, f) && f.sentAt + l.delay <= end
  }

  ghost predicate Packets(l: Link, s: System, asking: nat, answering: nat) {
    Count(l, Asking, s.net) == asking && Count(l, Answering, s.net) == answering
  }

  /** Nothing was sent for the subscription. */
  ghost predicate Unsent(l: Link, s: System) {
    Packets(l, s, 0, 0) && (Tracked(l, s).Some? ==> Fresh(l, Tracked(l, s).value))
  }

  /** The subscribe message went out at `sent`. */
  ghost predicate WasSent(l: Link, s: System, sent: nat) {
    && Found(l, s) && Tracked(l, s).Some? && Holding(l, Tracked(l, s).value) && Tracked(l, s).value.grantedTtl == 0
    && Tracked(l, s).value.lastSentMs == Wrap32(sent + l.offC) && sent <= s.now && s.cycleC <= sent + 500 * Granted(l)
  }

  ghost predicate Awaiting(l: Link, s: System, sent: nat) {
    WasSent(l, s, sent) && Packets(l, s, 1, 0) && SubscribeComing(l, s.net, sent + l.delay)
  }

  ghost predicate Refused(l: Link, s: System, sent: nat) {
    WasSent(l, s, sent) && Packets(l, s, 0, 1) && RefusalComing(l, s.net, sent + 2 * l.delay)
  }

  /** The refusal was heard: the subscription is inactive. */
  ghost predicate Left(l: Link, s: System) {
    Found(l, s) && Packets(l, s, 0, 0) && Tracked(l, s).Some? && !Tracked(l, s).value.active
      && Tracked(l, s).value.grantedTtl == 0
  }

  ghost predicate Phase(l: Link, s: System, sent: nat) {
    Unsent(l, s) || Awaiting(l, s, sent) || Refused(l, s, sent) || Left(l, s)
  }

  /** Every state before the provider grants the lease. */
  ghost predicate Joining(l: Link, s: System, g: Times) {
    && Usable(l) && Bounds(l) && l.sub && OnCourse(Free(l), s, g)
    && NoLease(l, s.p.events) && Distinct(s.c.sd) && Phase(l, s, g.subscribed)
  }

  // ------------------------------------------------- moves that do not matter

  lemma KindsOfPackets(l: Link, f: InFlight)
    ensures SubscribePacket(l, f) ==> IsKind(l, Asking, f)
    ensures RefusalPacket(l, f) ==> IsKind(l, Answering, f)
  {
    hide Seen;
  }

  /** Every packet about the subscription is still there, and no new one. */
  ghost predicate SamePackets(l: Link, net: seq<InFlight>, net': seq<InFlight>) {
    && Count(l, Asking, net') == Count(l, Asking, net) && Count(l, Answering, net') == Count(l, Answering, net)
    && forall f :: f in net && (IsKind(l, Asking, f) || IsKind(l, Answering, f)) ==> f in net'
  }

  lemma ComingKept(l: Link, net: seq<InFlight>, net': seq<InFlight>, end: nat)
    requires SamePackets(l, net, net')
    ensures SubscribeComing(l, net, end) ==> SubscribeComing(l, net', end)
    ensures RefusalComing(l, net, end) ==> RefusalComing(l, net', end)
  {
    hide SubscribePacket, RefusalPacket, IsKind, Count;
    if SubscribeComing(l, net, end) {
      var f :| f in net && SubscribePacket(l, f) && f.sentAt + l.delay <= end;
      KindsOfPackets(l, f);
      assert f in net';
    }
    if RefusalComing(l, net, end) {
      var f :| f in net && RefusalPacket(l, f) && f.sentAt + l.delay <= end;
      KindsOfPackets(l, f);
      assert f in net';
    }
  }

  lemma PhaseKept(l: Link, s: System, s': System, sent: nat)
    requires Phase(l, s, sent) && SamePackets(l, s.net, s'.net) && s.now <= s'.now && s'.cycleC == s.cycleC
    requires Tracked(l, s') == Tracked(l, s) && (Found(l, s) ==> Found(l, s'))
    ensures Phase(l, s', sent)
  {
    hide SubscribeComing, RefusalComing, Count, Tracked, Found, Fresh, Holding;
    ComingKept(l, s.net, s'.net, sent + l.delay);
    ComingKept(l, s.net, s'.net, sent + 2 * l.delay);
  }

  /** A packet that is not about the subscription leaves the network. */
  lemma OtherGone(l: Link, net: seq<InFlight>, i: nat)
    requires i < |net| && !IsKind(l, Asking, net[i]) && !IsKind(l, Answering, net[i])
    ensures SamePackets(l, net, Without(net, i))
  {
    hide IsKind, Count;
    CountWithout(l, Asking, net, i);
    CountWithout(l, Answering, net, i);
    StillIn(net, i);
  }

  lemma StillIn(net: seq<InFlight>, i: nat)
    requires i < |net|
    ensures forall f :: f in net && f != net[i] ==> f in Without(net, i)
  {
    forall f | f in net && f != net[i]
      ensures f in Without(net, i)
    {
      var k :| 0 <= k < |net| && net[k] == f;
      assert k < i ==> Without(net, i)[k] == f;
      assert k > i ==> Without(net, i)[k - 1] == f;
    }
  }

  lemma SameTrans(l: Link, a: seq<InFlight>, b: seq<InFlight>, c: seq<InFlight>)
    requires SamePackets(l, a, b) && SamePackets(l, b, c)
    ensures SamePackets(l, a, c)
  {
    hide IsKind, Count;
  }

  lemma SentP(l: Link, s: System, p': NodeState, net: seq<InFlight>)
    requires NoAcks(l, s.p, p')
    ensures SamePackets(l, net, MoveP(l, s, p', net).net)
  {
    hide IsKind, Count, NoAcks;
    CountsP(l, s, p', net);
  }

  lemma SentC(l: Link, s: System, c': NodeState, net: seq<InFlight>)
    requires NoAsks(l, s.c, c')
    ensures SamePackets(l, net, MoveC(l, s, c', net).net)
  {
    hide IsKind, Count, NoAsks;
    CountsC(l, s, c', net);
  }

  // ------------------------------------------------------------ one action at a time

  lemma JoinCourse(l: Link, s: System, a: Action, g: Times) returns (g': Times)
    requires Joining(l, s, g) && Enabled(l, s, a) && Timely(l, Next(l, s, a))
    ensures OnCourse(Free(l), Next(l, s, a), g') && g'.subscribed == g.subscribed
    ensures Found(l, s) ==> Found(l, Next(l, s, a)) && Inv(Free(l), Next(l, s, a), g')
  {
    hide OnCourse, Inv, Timely, Next, Enabled, Phase, NoLease, Distinct;
    FreeAction(l, s, a);
    FreeLink(l, Next(l, s, a));
    var g1 := CourseKeeps(Free(l), s, a, g);
    CourseTimes(Free(l), Next(l, s, a), g1, g.subscribed, g1.leaseEnd);
    g' := g1.(subscribed := g.subscribed);
  }

  lemma StillJoining(l: Link, s: System, s': System, g: Times, g': Times)
    requires Joining(l, s, g) && OnCourse(Free(l), s', g') && g'.subscribed == g.subscribed
      && (Found(l, s) ==> Found(l, s'))
    requires SamePackets(l, s.net, s'.net) && s.now <= s'.now && s'.cycleC == s.cycleC
    requires Tracked(l, s') == Tracked(l, s) && Distinct(s'.c.sd) && NoLease(l, s'.p.events)
    ensures Joining(l, s', g')
  {
    hide OnCourse, Phase, NoLease, Distinct, Usable, Bounds, SamePackets, Tracked, Found;
    PhaseKept(l, s, s', g.subscribed);
  }

  lemma AllSame(l: Link, net: seq<InFlight>)
    ensures SamePackets(l, net, net)
  {
  }

  /** Time passes, or the provider's application registers an event. */
  lemma PassiveJoins(l: Link, s: System, a: Action, g: Times) returns (g': Times)
    requires Joining(l, s, g) && Enabled(l, s, a) && Timely(l, Next(l, s, a)) && (a.Tick? || a.RegisterP?)
    ensures Joining(l, Next(l, s, a), g')
  {
    hide OnCourse, Inv, Timely, Phase, Distinct, Usable, Bounds, SamePackets, EM.WellFormed, EM.Lease, EM.Register;
    g' := JoinCourse(l, s, a, g);
    AllSame(l, s.net);
    if a.RegisterP? {
      EM.RegisterKeeps(s.p.events, l.p.limits, a.sid, a.eid);
    }
    StillJoining(l, s, Next(l, s, a), g, g');
  }

  lemma MovedJoinsP(l: Link, s: System, p': NodeState, net: seq<InFlight>, s': System, g: Times, g': Times)
    requires Joining(l, s, g) && OnCourse(Free(l), s', g') && g'.subscribed == g.subscribed
    requires s'.p == p' && s'.c == s.c && s'.net == MoveP(l, s, p', net).net && s'.now == s.now && s'.cycleC == s.cycleC
    requires NoLease(l, p'.events) && NoAcks(l, s.p, p') && SamePackets(l, s.net, net)
    ensures Joining(l, s', g')
  {
    hide OnCourse, Phase, Usable, Bounds, SamePackets, NoLease, NoAcks, MoveP, Distinct;
    SentP(l, s, p', net);
    SameTrans(l, s.net, net, s'.net);
    StillJoining(l, s, s', g, g');
  }

  /** The provider does anything but handle the subscribe message. */
  lemma ProviderJoins(l: Link, s: System, a: Action, g: Times) returns (g': Times)
    requires Joining(l, s, g) && Enabled(l, s, a) && Timely(l, Next(l, s, a))
    requires a.DeliverToP? || a.ForeignToP? || a.HousekeepP? || a.CallP?
    requires a.DeliverToP? ==> !IsKind(l, Asking, s.net[a.i])
    ensures Joining(l, Next(l, s, a), g')
  {
    hide OnCourse, Inv, Timely, Phase, Usable, Bounds, SamePackets, NoLease, NoAcks, MoveP, Distinct, AnySub,
      BenignToP, Receive, Housekeeping, SdStep;
    g' := JoinCourse(l, s, a, g);
    AllSame(l, s.net);
    match a
    case DeliverToP(i) =>
      var f := s.net[i];
      FromConsumer(l, s, i, g);
      OtherGone(l, s.net, i);
      var p' := Receive(l.p, l.setupP, s.p, f.source, f.frame, ClockP(l, s));
      JoinReceivesP(l, s.p, f.source, f.frame, ClockP(l, s));
      MoveFrame(l, s, p', s.c, Without(s.net, i));
      MovedJoinsP(l, s, p', Without(s.net, i), Next(l, s, a), g, g');
    case ForeignToP(source, frame) =>
      var p' := Receive(l.p, l.setupP, s.p, source, frame, ClockP(l, s));
      JoinReceivesP(l, s.p, source, frame, ClockP(l, s));
      MoveFrame(l, s, p', s.c, s.net);
      MovedJoinsP(l, s, p', s.net, Next(l, s, a), g, g');
    case HousekeepP =>
      var p' := Housekeeping(l.p, s.p, ClockP(l, s));
      JoinCycleP(l, s.p, ClockP(l, s));
      MoveFrame(l, s, p', s.c, s.net);
      MovedJoinsP(l, s, p', s.net, Next(l, s, a), g, g');
    case CallP(e) =>
      var p' := SdStep(l.p, s.p, e, ClockP(l, s));
      JoinCallP(l, s.p, e, ClockP(l, s));
      MoveFrame(l, s, p', s.c, s.net);
      MovedJoinsP(l, s, p', s.net, Next(l, s, a), g, g');
    case _ =>
  }

  lemma FromConsumer(l: Link, s: System, i: nat, g: Times)
    requires Joining(l, s, g) && i < |s.net|
    ensures s.net[i].source == (if s.net[i].toConsumer then l.addrP else l.addrC)
  {
    hide OnCourse, NetGood, Phase, NoLease, Distinct;
    CommonOf(Free(l), s, g);
    FrameGood(Free(l), s.net, i);
  }

  // ------------------------------------------------------------ the consumer's actions

  lemma MovedJoinsC(l: Link, s: System, c': NodeState, net: seq<InFlight>, g: Times, g': Times)
    requires Joining(l, s, g) && OnCourse(Free(l), MoveC(l, s, c', net), g') && g'.subscribed == g.subscribed
    requires Found(l, s) ==> Found(l, MoveC(l, s, c', net))
    requires NoAsks(l, s.c, c') && SamePackets(l, s.net, net) && Distinct(c'.sd)
    requires TrackerOf(c'.sd, l.sid, l.eid) == Tracked(l, s)
      || (Unsent(l, s) && TrackerOf(c'.sd, l.sid, l.eid).Some? && Fresh(l, TrackerOf(c'.sd, l.sid, l.eid).value))
    ensures Joining(l, MoveC(l, s, c', net), g')
  {
    hide OnCourse, Usable, Bounds, NoLease, NoAsks, MoveC, Distinct, WasSent, Count, IsKind, TrackerOf, Fresh,
      SubscribeComing, RefusalComing;
    var s' := MoveC(l, s, c', net);
    SentC(l, s, c', net);
    SameTrans(l, s.net, net, s'.net);
    MoveFrame(l, s, s.p, c', net);
    if Tracked(l, s') == Tracked(l, s) {
      StillJoining(l, s, s', g, g');
    } else {
      assert Unsent(l, s');
    }
  }

  lemma CallJoins(l: Link, s: System, e: Event, g: Times) returns (g': Times)
    requires Joining(l, s, g) && Enabled(l, s, CallC(e)) && Timely(l, Next(l, s, CallC(e)))
    ensures Joining(l, Next(l, s, CallC(e)), g')
  {
    hide OnCourse, Inv, Timely, Usable, Bounds, SamePackets, NoLease, MoveC, Distinct, SdStep, Fresh, WasSent,
      KindPacket, Packets, SubscribeComing, RefusalComing;
    g' := JoinCourse(l, s, CallC(e), g);
    AllSame(l, s.net);
    var c' := SdStep(l.c, s.c, e, ClockC(l, s));
    JoinCallC(l, s.c, e, ClockC(l, s));
    if Tracked(l, s).None? {
      OnlyUnsent(l, s, g.subscribed);
    }
    MovedJoinsC(l, s, c', s.net, g, g');
  }

  /** An offer, a find message and another subscription's answer: before the service is
      found the subscription stays to be sent, afterwards it stays as it is. */
  lemma TellsKeeps(l: Link, sd: Sd, e: Option<Event>, now: u32)
    requires Distinct(sd)
    requires e.Some? ==> Trusted(l, e.value) && (e.value.RxOffer? || e.value.RxFind? || e.value.RxAck?)
    requires e.Some? && e.value.RxAck? ==> !(e.value.sid == l.sid && e.value.eid == l.eid)
    ensures Following(Free(l), sd) ==> ToldTracker(l, sd, e, now) == TrackerOf(sd, l.sid, l.eid)
    ensures TrackerOf(sd, l.sid, l.eid).None? ==> ToldTracker(l, sd, e, now).None?
    ensures TrackerOf(sd, l.sid, l.eid).Some? && Fresh(l, TrackerOf(sd, l.sid, l.eid).value) ==>
      ToldTracker(l, sd, e, now).Some? && Fresh(l, ToldTracker(l, sd, e, now).value)
  {
    TrackerHasKey(sd, l.sid, l.eid);
  }

  /** The consumer hears a frame that does not answer the subscription. */
  lemma HearsJoins(l: Link, s: System, source: Address, frame: Bytes, net: seq<InFlight>, s': System, g: Times,
                   g': Times)
    requires Joining(l, s, g) && OnCourse(Free(l), s', g') && g'.subscribed == g.subscribed
      && (Found(l, s) ==> Found(l, s'))
    requires s' == MoveC(l, s, Receive(l.c, l.setupC, s.c, source, frame, ClockC(l, s)), net)
      && SamePackets(l, s.net, net)
    requires var e := CausedBy(l.c, l.setupC, source, frame); e.Some? ==> Trusted(l, e.value) && !AnswersUs(l, e.value)
    ensures Joining(l, s', g')
  {
    hide OnCourse, Usable, Bounds, NoLease, MoveC, Distinct, Receive, Seen, Trusted, WasSent, SamePackets, KindPacket,
      TrackerOf, Fresh, Packets, SubscribeComing, RefusalComing, ToldTracker, Following;
    var c' := Receive(l.c, l.setupC, s.c, source, frame, ClockC(l, s));
    JoinReceivesC(l, s.c, source, frame, ClockC(l, s));
    CausedKinds(l, source, frame);
    TellsKeeps(l, s.c.sd, CausedBy(l.c, l.setupC, source, frame), ClockC(l, s));
    if Found(l, s) {
      FollowsWhenFound(l, s, g);
    } else {
      OnlyUnsent(l, s, g.subscribed);
    }
    MovedJoinsC(l, s, c', net, g, g');
  }

  lemma OnlyUnsent(l: Link, s: System, sent: nat)
    requires Phase(l, s, sent) && (!Found(l, s) || Tracked(l, s).None?)
    ensures Unsent(l, s)
  {
  }

  lemma FollowsWhenFound(l: Link, s: System, g: Times)
    requires OnCourse(Free(l), s, g) && Found(l, s)
    ensures Following(Free(l), s.c.sd) && Inv(Free(l), s, g) && ProviderOf(s.c.sd.consumers, l.sid) == Some(l.addrP)
  {
    hide OnCourse;
    FoundIsLeased(Free(l), s, g);
    InvFound(Free(l), s, g);
  }

  predicate AnswersUs(l: Link, e: Event) {
    e.RxAck? && e.sid == l.sid && e.eid == l.eid
  }

  lemma CausedKinds(l: Link, source: Address, frame: Bytes)
    ensures var e := CausedBy(l.c, l.setupC, source, frame); e.Some? ==>
      e.value.RxOffer? || e.value.RxFind? || e.value.RxAck?
    ensures source == l.addrP && !AnyAck(l, frame) ==>
      (CausedBy(l.c, l.setupC, source, frame).Some? ==> !AnswersUs(l, CausedBy(l.c, l.setupC, source, frame).value))
    ensures l.sub && BenignToC(l, source, frame) ==>
      (CausedBy(l.c, l.setupC, source, frame).Some? ==> !AnswersUs(l, CausedBy(l.c, l.setupC, source, frame).value))
  {
    hide Seen;
  }

  lemma HearJoins(l: Link, s: System, a: Action, g: Times) returns (g': Times)
    requires Joining(l, s, g) && Enabled(l, s, a) && Timely(l, Next(l, s, a)) && (a.DeliverToC? || a.ForeignToC?)
    requires a.DeliverToC? ==> !IsKind(l, Answering, s.net[a.i])
    ensures Joining(l, Next(l, s, a), g')
  {
    hide OnCourse, Inv, Timely, Phase, Usable, Bounds, SamePackets, NoLease, MoveC, Distinct, AnyAck, BenignToC,
      Receive, CausedBy, Trusted, NetGood;
    g' := JoinCourse(l, s, a, g);
    AllSame(l, s.net);
    match a
    case DeliverToC(i) =>
      var f := s.net[i];
      FromConsumer(l, s, i, g);
      OtherGone(l, s.net, i);
      CommonOf(Free(l), s, g);
      NetTrusted(Free(l), s, i);
      SameTrust(l, CausedBy(l.c, l.setupC, f.source, f.frame));
      CausedKinds(l, f.source, f.frame);
      HearsJoins(l, s, f.source, f.frame, Without(s.net, i), Next(l, s, a), g, g');
    case ForeignToC(source, frame) =>
      ForeignTrusted(l, source, frame);
      CausedKinds(l, source, frame);
      HearsJoins(l, s, source, frame, s.net, Next(l, s, a), g, g');
    case _ =>
  }

  lemma SameTrust(l: Link, e: Option<Event>)
    ensures e.Some? ==> (Trusted(Free(l), e.value) <==> Trusted(l, e.value))
  {
  }

  /** Of one packet about the subscription, its removal leaves none. */
  lemma OnlyOne(l: Link, k: Kind, net: seq<InFlight>, i: nat, f: InFlight)
    requires i < |net| && IsKind(l, k, net[i]) && Count(l, k, net) <= 1 && f in net && IsKind(l, k, f)
    ensures Count(l, k, Without(net, i)) == 0 && f == net[i]
  {
    hide IsKind, Count;
    CountWithout(l, k, net, i);
    CountNone(l, k, Without(net, i));
    StillIn(net, i);
  }

  lemma SomeKind(l: Link, k: Kind, net: seq<InFlight>, i: nat)
    requires i < |net| && IsKind(l, k, net[i])
    ensures Count(l, k, net) >= 1
  {
    hide IsKind, Count;
    CountWithout(l, k, net, i);
  }

  lemma KindsApart(l: Link, f: InFlight)
    ensures !(IsKind(l, Asking, f) && IsKind(l, Answering, f))
  {
    hide AnySub, AnyAck;
  }

  /** The refusal is heard: the subscription ends. */
  lemma RefusalJoins(l: Link, s: System, i: nat, g: Times) returns (g': Times)
    requires Joining(l, s, g) && Enabled(l, s, DeliverToC(i)) && Timely(l, Next(l, s, DeliverToC(i)))
      && IsKind(l, Answering, s.net[i])
    ensures Joining(l, Next(l, s, DeliverToC(i)), g')
  {
    hide OnCourse, Inv, Timely, Usable, Bounds, NoLease, MoveC, Distinct, Receive, CausedBy, NetGood, Count, IsKind,
      AnyAck, TrackerOf, NoAsks, SubscribeComing, Found, RefusalPacket, ToldTracker;
    var f := s.net[i];
    g' := JoinCourse(l, s, DeliverToC(i), g);
    SomeKind(l, Answering, s.net, i);
    var x :| x in s.net && RefusalPacket(l, x) && x.sentAt + l.delay <= g.subscribed + 2 * l.delay;
    KindsOfPackets(l, x);
    OnlyOne(l, Answering, s.net, i, x);
    KindsApart(l, f);
    CountWithout(l, Asking, s.net, i);
    var c' := Receive(l.c, l.setupC, s.c, f.source, f.frame, ClockC(l, s));
    JoinReceivesC(l, s.c, f.source, f.frame, ClockC(l, s));
    RefusalTold(l, s.c.sd, f, ClockC(l, s));
    CountsC(l, s, c', Without(s.net, i));
    MoveFrame(l, s, s.p, c', Without(s.net, i));
    assert Left(l, Next(l, s, DeliverToC(i)));
  }

  lemma RefusalTold(l: Link, sd: Sd, f: InFlight, now: u32)
    requires RefusalPacket(l, f) && TrackerOf(sd, l.sid, l.eid).Some? && TrackerOf(sd, l.sid, l.eid).value.active
    requires TrackerOf(sd, l.sid, l.eid).value.grantedTtl == 0
    ensures var t := ToldTracker(l, sd, CausedBy(l.c, l.setupC, f.source, f.frame), now);
      t.Some? && !t.value.active && t.value.grantedTtl == 0
  {
    hide Seen;
    TrackerHasKey(sd, l.sid, l.eid);
  }

  // -------------------------------------------------------------- the consumer's cycle

  /** Until the answer the subscription is not sent again. */
  lemma NotDue(l: Link, s: System, sent: nat)
    requires Bounds(l) && l.sub && WasSent(l, s, sent) && s.now <= sent + 2 * l.delay
    ensures !TimeAfterOrEq(ClockC(l, s), Wrap32(Tracked(l, s).value.lastSentMs + 1000 * l.c.sd.subscriptionTtl))
    ensures s.now <= sent + 500 * Granted(l)
  {
    hide Holding, Found, Tracked, Wrap32, TimeAfterOrEq, TimeAfter;
    Deadline(Tracked(l, s).value.lastSentMs, sent, l.offC, 1000 * l.c.sd.subscriptionTtl, s.now);
  }

  lemma ComingBounds(l: Link, s: System, end: nat)
    requires Timely(l, s) && (SubscribeComing(l, s.net, end) || RefusalComing(l, s.net, end))
    ensures s.now <= end
  {
    hide SubscribePacket, RefusalPacket;
    if SubscribeComing(l, s.net, end) {
      var f :| f in s.net && SubscribePacket(l, f) && f.sentAt + l.delay <= end;
      Leases.Pending(l, s, f);
    } else {
      var f :| f in s.net && RefusalPacket(l, f) && f.sentAt + l.delay <= end;
      Leases.Pending(l, s, f);
    }
  }

  /** The waiting subscription can be sent. */
  ghost predicate Goes(l: Link, s: System) {
    Found(l, s) && Tracked(l, s).Some? && Tracked(l, s).value.active && Tracked(l, s).value.needsSend
  }

  /** A cycle sends the waiting subscription once the service is found, and nothing else. */
  ghost function Cycled(l: Link, s: System): Option<(SubTracker, seq<Output>)> {
    match Tracked(l, s)
    case None => None
    case Some(t) =>
      if Goes(l, s) then Some((t.(needsSend := false, lastSentMs := ClockC(l, s)),
                               [Unicast(l.addrP, SubscribeEvent(l.sid, l.eid, l.requested))]))
      else Some((t, []))
  }

  lemma RenewedInPhase(l: Link, s: System, g: Times)
    requires Joining(l, s, g) && Timely(l, s)
    ensures Renewed(l, s.c.sd, ClockC(l, s)) == Cycled(l, s)
  {
    hide OnCourse, Timely, Usable, Bounds, NoLease, Distinct, Count, TimeAfterOrEq, Wrap32, SubscribeComing,
      RefusalComing, Granted;
    TrackerHasKey(s.c.sd, l.sid, l.eid);
    if Found(l, s) {
      FollowsWhenFound(l, s, g);
    }
    if Awaiting(l, s, g.subscribed) {
      ComingBounds(l, s, g.subscribed + l.delay);
      NotDue(l, s, g.subscribed);
    } else if Refused(l, s, g.subscribed) {
      ComingBounds(l, s, g.subscribed + 2 * l.delay);
      NotDue(l, s, g.subscribed);
    }
  }

  lemma CycleJoins(l: Link, s: System, g: Times) returns (g': Times)
    requires Joining(l, s, g) && Timely(l, Next(l, s, HousekeepC))
    ensures Joining(l, Next(l, s, HousekeepC), g')
  {
    hide OnCourse, Inv, Timely, Usable, Bounds, NoLease, MoveC, Distinct, Housekeeping, CycledTracker, Renewed,
      Unsent, Awaiting, Refused, Left, KindPackets, SentSubscribe, Found;
    TimelyNow(l, s, g);
    var g1 := JoinCourse(l, s, HousekeepC, g);
    var c', s' := Housekeeping(l.c, s.c, ClockC(l, s)), Next(l, s, HousekeepC);
    JoinCycleC(l, s.c, ClockC(l, s));
    RenewedInPhase(l, s, g);
    MoveFrame(l, s, s.p, c', s.net);
    if Goes(l, s) {
      CourseTimes(Free(l), s', g1, s.now, g1.leaseEnd);
      g' := g1.(subscribed := s.now);
      OnlyUnsentGoes(l, s, g.subscribed);
      GoesOut(l, s, c', s');
    } else {
      g' := g1;
      NothingGoes(l, s, c', s', g);
    }
  }

  lemma TimelyNow(l: Link, s: System, g: Times)
    requires Joining(l, s, g)
    ensures Timely(l, s)
  {
    hide NotOffered, NotHeard, Inv, NetGood;
  }

  /** `s'` is `s` after the consumer's cycle, which leads it to `c'`. */
  ghost predicate CycledTo(l: Link, s: System, c': NodeState, s': System) {
    && s'.c == c' && s'.net == MoveC(l, s, c', s.net).net && s'.now == s.now && s'.cycleC == s.now
    && (Found(l, s) ==> Found(l, s'))
    && s.c.wire <= c'.wire && CycledTracker(l, s.c.sd, c'.sd, ClockC(l, s))
    && Renewed(l, s.c.sd, ClockC(l, s)) == Cycled(l, s)
  }

  lemma OnlyUnsentGoes(l: Link, s: System, sent: nat)
    requires Phase(l, s, sent) && Goes(l, s)
    ensures Unsent(l, s)
  {
  }

  /** The subscribe message goes out. */
  lemma GoesOut(l: Link, s: System, c': NodeState, s': System)
    requires l.sub && Bounds(l) && Unsent(l, s) && Goes(l, s) && CycledTo(l, s, c', s')
    requires KindPackets(l, Asking, false, l.addrP, NewPackets(s.c, c')) <= 1
    requires exists i :: |s.c.wire| <= i < |c'.wire| && SentSubscribe(l, c'.wire[i])
    ensures Awaiting(l, s', s.now)
  {
    hide Bounds, MoveC, Renewed, KindPackets, TrackerOf, Wrap32, Count, Found, SentSubscribe, SubscribeComing;
    AskOut(l, s, c', s'.net);
  }

  /** One packet asks for the subscription, and it is on its way. */
  lemma AskOut(l: Link, s: System, c': NodeState, net: seq<InFlight>)
    requires Packets(l, s, 0, 0) && net == MoveC(l, s, c', s.net).net && s.c.wire <= c'.wire
    requires KindPackets(l, Asking, false, l.addrP, NewPackets(s.c, c')) <= 1
    requires exists i :: |s.c.wire| <= i < |c'.wire| && SentSubscribe(l, c'.wire[i])
    ensures Count(l, Asking, net) == 1 && Count(l, Answering, net) == 0 && SubscribeComing(l, net, s.now + l.delay)
  {
    hide MoveC, Count, KindPackets, IsSubscribe, IsKind;
    var i :| |s.c.wire| <= i < |c'.wire| && SentSubscribe(l, c'.wire[i]);
    SentByC(l, s, c', s.net, i);
    var f := InFlight(false, l.addrC, c'.wire[i].frame, s.now);
    assert f in net && SubscribePacket(l, f);
    KindsOfPackets(l, f);
    CountNone(l, Asking, net);
    CountsC(l, s, c', s.net);
  }

  lemma NothingGoes(l: Link, s: System, c': NodeState, s': System, g: Times)
    requires Joining(l, s, g) && Timely(l, s) && !Goes(l, s) && CycledTo(l, s, c', s')
    requires KindPackets(l, Asking, false, l.addrP, NewPackets(s.c, c')) == 0
    ensures Phase(l, s', g.subscribed)
  {
    hide OnCourse, Usable, Bounds, NoLease, MoveC, Distinct, Renewed, Count, KindPackets, Found, Timely, Granted,
      Wrap32, SubscribeComing, RefusalComing, Holding, Fresh;
    CountsC(l, s, c', s.net);
    NetGrows(l, s, c');
    assert SamePackets(l, s.net, s'.net);
    ComingKept(l, s.net, s'.net, g.subscribed + l.delay);
    ComingKept(l, s.net, s'.net, g.subscribed + 2 * l.delay);
    if Awaiting(l, s, g.subscribed) {
      ComingBounds(l, s, g.subscribed + l.delay);
      NotDue(l, s, g.subscribed);
    } else if Refused(l, s, g.subscribed) {
      ComingBounds(l, s, g.subscribed + 2 * l.delay);
      NotDue(l, s, g.subscribed);
    }
  }

  lemma NetGrows(l: Link, s: System, c': NodeState)
    ensures forall f :: f in s.net ==> f in MoveC(l, s, c', s.net).net
  {
  }

  // ------------------------------------------------- the provider hears the subscription

  /** The one subscribe message arrives: the lease begins, or the refusal is on its way. */
  lemma AskHeard(l: Link, s: System, i: nat, g: Times) returns (g': Times)
    requires Joining(l, s, g) && Enabled(l, s, DeliverToP(i)) && Timely(l, Next(l, s, DeliverToP(i)))
      && IsKind(l, Asking, s.net[i])
    ensures Joining(l, Next(l, s, DeliverToP(i)), g') || Inv(l, Next(l, s, DeliverToP(i)), g')
  {
    hide OnCourse, Inv, Timely, Usable, Bounds, NoLease, MoveP, Distinct, Receive, Count, Holding, Found, IsKind,
      LeaseStarts, IsAck, Refusal, IsSubscribe;
    TimelyNow(l, s, g);
    var g1 := JoinCourse(l, s, DeliverToP(i), g);
    SomeKind(l, Asking, s.net, i);
    var f :| f in s.net && SubscribePacket(l, f) && f.sentAt + l.delay <= g.subscribed + l.delay;
    KindsOfPackets(l, f);
    OnlyOne(l, Asking, s.net, i, f);
    KindsApart(l, f);
    CountWithout(l, Answering, s.net, i);
    Leases.Pending(l, s, f);
    FirstSubscribe(l, s.p, f.frame, ClockP(l, s));
    var p' := Receive(l.p, l.setupP, s.p, l.addrC, f.frame, ClockP(l, s));
    AnswerOut(l, s, p', Without(s.net, i));
    MoveFrame(l, s, p', s.c, Without(s.net, i));
    var answer := InFlight(true, l.addrP, p'.wire[|s.p.wire|].frame, s.now);
    if NoLease(l, p'.events) && Refusal(l, answer.frame) {
      g' := g1;
      RefusalOut(l, s, Next(l, s, DeliverToP(i)), Without(s.net, i), answer, g.subscribed);
    } else {
      CourseTimes(Free(l), Next(l, s, DeliverToP(i)), g1, g.subscribed, s.now + 1000 * Granted(l));
      g' := g1.(leaseEnd := s.now + 1000 * Granted(l));
      LeaseBegins(l, s, Next(l, s, DeliverToP(i)), Without(s.net, i), answer, g.subscribed, g');
    }
  }

  lemma AnswerOut(l: Link, s: System, p': NodeState, net: seq<InFlight>)
    requires |p'.wire| == |s.p.wire| + 1 && p'.wire[..|s.p.wire|] == s.p.wire
    requires p'.wire[|s.p.wire|].sent && p'.wire[|s.p.wire|].dest == Some(l.addrC)
    ensures MoveP(l, s, p', net).net == net + [InFlight(true, l.addrP, p'.wire[|s.p.wire|].frame, s.now)]
  {
    var packet := p'.wire[|s.p.wire|];
    assert NewPackets(s.p, p') == [packet] && [packet][..0] == [];
    assert Routed(true, l.addrC, l.addrP, [], s.now) == [];
    assert Routed(true, l.addrC, l.addrP, [packet], s.now) == [InFlight(true, l.addrP, packet.frame, s.now)];
  }

  lemma RefusalOut(l: Link, s: System, s': System, net: seq<InFlight>, answer: InFlight, sent: nat)
    requires WasSent(l, s, sent) && Found(l, s') && s'.c == s.c && s'.now == s.now && s'.cycleC == s.cycleC
      && s'.net == net + [answer]
    requires Count(l, Asking, net) == 0 && Count(l, Answering, net) == 0
    requires RefusalPacket(l, answer) && answer.sentAt == s.now && s.now <= sent + l.delay
    ensures Refused(l, s', sent)
  {
    hide Count, IsKind, RefusalPacket, Holding, Found;
    KindsOfPackets(l, answer);
    KindsApart(l, answer);
    CountConcat(l, Asking, net, [answer]);
    CountConcat(l, Answering, net, [answer]);
    CountOne(l, Asking, answer);
    CountOne(l, Answering, answer);
    assert answer in s'.net;
  }

  /** A packet good for the service and not about the subscription is good for both. */
  lemma GoodForBoth(l: Link, f: InFlight)
    requires Good(Free(l), f) && ((!IsKind(l, Asking, f) && !IsKind(l, Answering, f)) || AckPacket(l, f))
    ensures Good(l, f)
  {
    hide Seen;
  }

  lemma LeaseBegins(l: Link, s: System, s': System, net: seq<InFlight>, answer: InFlight, sent: nat, g: Times)
    requires Usable(l) && Bounds(l) && l.sub && WasSent(l, s, sent) && Distinct(s.c.sd) && Inv(Free(l), s', g)
      && Timely(l, s')
    requires s'.c == s.c && s'.now == s.now && s'.cycleC == s.cycleC && s'.net == net + [answer]
    requires Count(l, Asking, net) == 0 && Count(l, Answering, net) == 0 && AckPacket(l, answer)
      && answer.sentAt == s.now
    requires LeaseStarts(l, s'.p.events, l.addrC, ClockP(l, s)) && s.now <= sent + l.delay
    requires g.subscribed == sent && g.leaseEnd == s.now + 1000 * Granted(l)
    ensures Inv(l, s', g)
  {
    hide IsKind, Count, Good, AckPacket, Usable, Bounds, Timely, SubInv, WasSent, Found, Leasing, Distinct, Offering,
      Following, LeaseStarts;
    CountNone(l, Asking, net);
    CountNone(l, Answering, net);
    forall f | f in s'.net
      ensures Good(l, f)
    {
      assert Good(Free(l), f);
      GoodForBoth(l, f);
    }
    SameOffer(l, s', g);
    SubBegins(l, s, s', answer, sent, g);
  }

  /** The offer lease with regard to the subscription, but for the packets. */
  lemma SameOffer(l: Link, s: System, g: Times)
    requires Inv(Free(l), s, g) && NetGood(l, s.net) && Usable(l) && Bounds(l) && Timely(l, s)
    ensures OfferInv(l, s, g)
  {
    hide Seen, NetGood, Wrap32, Usable, Bounds, Timely;
    if OfferComing(Free(l), s.net, g.offerEnd) {
      var f :| f in s.net && OfferPacket(Free(l), f) && f.sentAt + l.delay <= g.offerEnd;
      assert OfferPacket(l, f);
    }
  }

  lemma SubBegins(l: Link, s: System, s': System, answer: InFlight, sent: nat, g: Times)
    requires WasSent(l, s, sent) && Distinct(s.c.sd) && s'.c == s.c && s'.now == s.now && s'.cycleC == s.cycleC
    requires answer in s'.net && AckPacket(l, answer) && answer.sentAt == s.now
    requires LeaseStarts(l, s'.p.events, l.addrC, ClockP(l, s)) && s.now <= sent + l.delay
    requires g.subscribed == sent && g.leaseEnd == s.now + 1000 * Granted(l)
    ensures SubInv(l, s', g)
  {
    hide AckPacket, Wrap32, Found, Leasing, LeaseP;
    WrapSum(s.now + l.offP, 1000 * Granted(l));
    assert AckComing(l, s'.net, sent + 2 * l.delay);
  }

  // ------------------------------------------------------------------ over whole runs

  /** Every state of a run from power-on: before the lease, or under it. */
  ghost predicate Subscribing(l: Link, s: System, g: Times) {
    Joining(l, s, g) || (l.sub && Inv(l, s, g))
  }

  lemma GrantStep(l: Link, s: System, a: Action, g: Times) returns (g': Times)
    requires Subscribing(l, s, g) && Enabled(l, s, a) && Timely(l, Next(l, s, a))
    ensures Subscribing(l, Next(l, s, a), g')
  {
    hide Joining, Inv, Timely, Next, IsKind;
    if Inv(l, s, g) && l.sub {
      LeaseStep(l, s, a, g);
      g' := NextTimes(l, s, a, g);
    } else {
      match a
      case DeliverToP(i) =>
        if IsKind(l, Asking, s.net[i]) {
          g' := AskHeard(l, s, i, g);
          SubLink(l, s, g);
        } else {
          g' := ProviderJoins(l, s, a, g);
        }
      case DeliverToC(i) =>
        if IsKind(l, Answering, s.net[i]) {
          g' := RefusalJoins(l, s, i, g);
        } else {
          g' := HearJoins(l, s, a, g);
        }
      case ForeignToC(_, _) => g' := HearJoins(l, s, a, g);
      case CallC(e) => g' := CallJoins(l, s, e, g);
      case HousekeepC => g' := CycleJoins(l, s, g);
      case Tick(_) => g' := PassiveJoins(l, s, a, g);
      case RegisterP(_, _) => g' := PassiveJoins(l, s, a, g);
      case _ => g' := ProviderJoins(l, s, a, g);
    }
  }

  lemma SubLink(l: Link, s: System, g: Times)
    requires Joining(l, s, g)
    ensures l.sub
  {
  }

  lemma {:induction false} GrantRun(l: Link, s: System, run: seq<Action>, g: Times) returns (g': Times)
    requires Subscribing(l, s, g) && IsRun(l, s, run)
    ensures Subscribing(l, After(l, s, run), g')
    decreases |run|
  {
    hide Subscribing, Timely, Next, Enabled;
    g' := g;
    if run != [] {
      var g1 := GrantStep(l, s, run[0], g);
      g' := GrantRun(l, Next(l, s, run[0]), run[1..], g1);
    }
  }

  lemma PowerOnSubscribing(l: Link, t: nat, slotsP: nat, slotsC: nat)
    requires Usable(l) && Bounds(l) && l.sub
    ensures Subscribing(l, PowerOn(l, t, slotsP, slotsC), Times(0, 0, 0, 0))
  {
    PowerOnCourse(Free(l), t, slotsP, slotsC);
    assert PowerOn(Free(l), t, slotsP, slotsC) == PowerOn(l, t, slotsP, slotsC);
    assert Unsent(l, PowerOn(l, t, slotsP, slotsC));
  }

  ghost predicate Leased(l: Link, s: System) {
    EM.Lease(s.p.events, l.sid, l.eid, l.c.sd.clientId).Some?
  }

  /** The two ends agree: the provider holds the subscriber's lease only for an active
      subscription and with time left to run, a granted subscription is held, and an active
      one waits for its answer no longer than two packets take. */
  ghost predicate EndsAgree(l: Link, s: System) {
    && (Leased(l, s) ==> SubscriberHeld(l, s))
    && (Tracked(l, s).Some? && Tracked(l, s).value.grantedTtl > 0 ==> Leased(l, s))
    && (Tracked(l, s).Some? && WaitsForAnswer(Tracked(l, s).value) ==>
          Wrap32(ClockC(l, s) - Tracked(l, s).value.lastSentMs) <= 2 * l.delay)
  }

  predicate WaitsForAnswer(t: SubTracker) {
    t.active && !t.needsSend && t.grantedTtl == 0
  }

  lemma SubscribingAgrees(l: Link, s: System, g: Times)
    requires Subscribing(l, s, g)
    ensures EndsAgree(l, s) && (Leased(l, s) ==> Inv(l, s, g))
  {
    hide OnCourse, Inv, Count, SubscriberHeld, Found, Wrap32, Distinct, EM.WellFormed, Usable, Bounds, TrackerOf,
      SubscribeComing, RefusalComing;
    if Joining(l, s, g) {
      if Tracked(l, s).Some? && WaitsForAnswer(Tracked(l, s).value) {
        WaitIsShort(l, s, g);
      }
    } else {
      HeldAgrees(l, s, g);
    }
  }

  lemma WaitIsShort(l: Link, s: System, g: Times)
    requires Joining(l, s, g) && Tracked(l, s).Some? && WaitsForAnswer(Tracked(l, s).value)
    ensures Wrap32(ClockC(l, s) - Tracked(l, s).value.lastSentMs) <= 2 * l.delay
  {
    hide OnCourse, Count, Found, Wrap32, Distinct, NoLease, Usable, TrackerOf, SubscribeComing, RefusalComing;
    TimelyNow(l, s, g);
    if Awaiting(l, s, g.subscribed) {
      ComingBounds(l, s, g.subscribed + l.delay);
    } else {
      ComingBounds(l, s, g.subscribed + 2 * l.delay);
    }
    WrapDifference(s.now + l.offC, g.subscribed + l.offC);
    SmallWrap(s.now - g.subscribed);
  }

  lemma HeldAgrees(l: Link, s: System, g: Times)
    requires l.sub && Inv(l, s, g)
    ensures EndsAgree(l, s)
  {
    hide OfferInv, SubscribeComing, AckComing, EM.WellFormed, EM.Lease, Wrap32, SubscriberHeld, Usable;
    BasicFacts(l, s, g);
    SubscriberThere(l, s, g);
    SubRuns(l, s, g);
    WrapDifference(s.now + l.offC, g.subscribed + l.offC);
    if Tracked(l, s).value.grantedTtl == 0 {
      SmallWrap(s.now - g.subscribed);
    }
  }

  /** On every timely run from power-on the two ends agree. */
  lemma AgreedFromPowerOn(l: Link, t: nat, slotsP: nat, slotsC: nat, run: seq<Action>)
    requires Usable(l) && Bounds(l) && l.sub && IsRun(l, PowerOn(l, t, slotsP, slotsC), run)
    ensures EndsAgree(l, After(l, PowerOn(l, t, slotsP, slotsC), run))
  {
    hide IsRun, After, Subscribing, EndsAgree, PowerOn, Inv;
    PowerOnSubscribing(l, t, slotsP, slotsC);
    var g := GrantRun(l, PowerOn(l, t, slotsP, slotsC), run, Times(0, 0, 0, 0));
    SubscribingAgrees(l, After(l, PowerOn(l, t, slotsP, slotsC), run), g);
  }

  /** The subscription lease on every timely run from power-on, across wrap of both clocks:
      once the provider has entered the subscriber it holds it, with time left to run, for the
      rest of the run, and the consumer keeps the service. */
  lemma OnceLeasedKept(l: Link, t: nat, slotsP: nat, slotsC: nat, before: seq<Action>, after: seq<Action>)
    requires Usable(l) && Bounds(l) && l.sub && IsRun(l, PowerOn(l, t, slotsP, slotsC), before)
    requires Leased(l, After(l, PowerOn(l, t, slotsP, slotsC), before))
    requires IsRun(l, After(l, PowerOn(l, t, slotsP, slotsC), before), after)
    ensures var s := After(l, PowerOn(l, t, slotsP, slotsC), before);
      var s' := After(l, s, after);
      && SubscriberHeld(l, s) && SubscriberHeld(l, s')
      && ProviderOf(s'.c.sd.consumers, l.sid) == Some(l.addrP)
      && s.c.app <= s'.c.app && Discovered(LostCallback(l.sid)) !in s'.c.app[|s.c.app|..]
  {
    hide IsRun, After, Subscribing, EndsAgree, PowerOn, Inv, SubscriberHeld;
    PowerOnSubscribing(l, t, slotsP, slotsC);
    var g := GrantRun(l, PowerOn(l, t, slotsP, slotsC), before, Times(0, 0, 0, 0));
    var s := After(l, PowerOn(l, t, slotsP, slotsC), before);
    SubscribingAgrees(l, s, g);
    SubscriberThere(l, s, g);
    SubscriptionLeaseHolds(l, s, after, g);
    OfferLeaseHolds(l, s, after, g);
  }
}
