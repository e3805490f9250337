/** Before the subscription's lease: from the application's call to the first subscribe message
the provider grants, or refuses. */
module LeaseJoin {
  import opened Words
  import opened SdMessages
  import opened DiscoverySpec
  import opened DiscoveryLog
  import opened Node
  import opened NodeEffects
  import opened NodeOutputs
  import opened Subscriptions
  import opened LeaseSystem
  import opened LeaseProvider
  import opened LeaseConsumer
  import opened Leases
  import opened LeaseBefore
  import EM = EventManager

  // -------------------------------------------------- packets about the subscription

  /** The packets that concern the subscription: messages of the consumer, and answers. */
  datatype Kind = Asking | Answering

  ghost predicate AnySub(l: Link, frame: Bytes) {
    match Seen(l.p, l.setupP, l.addrC, frame)
    case None => false
    case Some(x) => (x.m.SubscribeEvent? || x.m.Unsubscribe?) && x.m.serviceId == l.sid && x.m.eventId == l.eid
  }

  ghost predicate AnyAck(l: Link, frame: Bytes) {
    match Seen(l.c, l.setupC, l.addrP, frame)
    case None => false
    case Some(x) => x.m.SubscribeAck? && x.m.serviceId == l.sid && x.m.eventId == l.eid
  }

  ghost predicate Refusal(l: Link, frame: Bytes) {
    match Seen(l.c, l.setupC, l.addrP, frame)
    case None => false
    case Some(x) => x.m.SubscribeAck? && x.m.serviceId == l.sid && x.m.eventId == l.eid && x.result != 0
  }

  ghost predicate IsKind(l: Link, k: Kind, f: InFlight) {
    match k
    case Asking => !f.toConsumer && AnySub(l, f.frame)
    case Answering => f.toConsumer && AnyAck(l, f.frame)
  }

  ghost function Count(l: Link, k: Kind, net: seq<InFlight>): nat {
    if net == [] then 0 else Count(l, k, net[..|net| - 1]) + (if IsKind(l, k, net[|net| - 1]) then 1 else 0)
  }

  lemma {:induction false} CountConcat(l: Link, k: Kind, a: seq<InFlight>, b: seq<InFlight>)
    ensures Count(l, k, a + b) == Count(l, k, a) + Count(l, k, b)
    decreases |b|
  {
    hide IsKind;
    if b == [] {
      assert a + b == a;
    } else {
      assert (a + b)[..|a + b| - 1] == a + b[..|b| - 1];
      CountConcat(l, k, a, b[..|b| - 1]);
    }
  }

  lemma CountOne(l: Link, k: Kind, f: InFlight)
    ensures Count(l, k, [f]) == if IsKind(l, k, f) then 1 else 0
  {
    hide IsKind;
    assert [f][..0] == [] && Count(l, k, []) == 0;
  }

  lemma CountWithout(l: Link, k: Kind, net: seq<InFlight>, i: nat)
    requires i < |net|
    ensures Count(l, k, Without(net, i)) + (if IsKind(l, k, net[i]) then 1 else 0) == Count(l, k, net)
  {
    hide IsKind, Count;
    assert net == net[..i] + ([net[i]] + net[i + 1..]);
    CountConcat(l, k, net[..i], [net[i]] + net[i + 1..]);
    CountConcat(l, k, [net[i]], net[i + 1..]);
    CountConcat(l, k, net[..i], net[i + 1..]);
    CountOne(l, k, net[i]);
  }

  lemma {:induction false} CountNone(l: Link, k: Kind, net: seq<InFlight>)
    ensures Count(l, k, net) == 0 <==> forall f :: f in net ==> !IsKind(l, k, f)
    decreases |net|
  {
    hide IsKind;
    if net != [] {
      var n := |net| - 1;
      CountNone(l, k, net[..n]);
      assert forall f :: f in net <==> f in net[..n] || f == net[n];
    }
  }

  /** What a device sends towards the other end adds nothing of the other kind. */
  lemma {:induction false} RoutedKinds(l: Link, k: Kind, toConsumer: bool, to: Address, from: Address,
                                       packets: seq<Packet>, now: nat)
    ensures Count(l, k, Routed(toConsumer, to, from, packets, now)) <= KindPackets(l, k, toConsumer, to, packets)
    decreases |packets|
  {
    hide IsKind, AnySub, AnyAck;
    if packets != [] {
      var n := |packets| - 1;
      var last := packets[n];
      RoutedKinds(l, k, toConsumer, to, from, packets[..n], now);
      var more := if last.sent && (last.dest == None || last.dest == Some(to))
        then [InFlight(toConsumer, from, last.frame, now)] else [];
      CountConcat(l, k, Routed(toConsumer, to, from, packets[..n], now), more);
      OneRouted(l, k, toConsumer, to, from, last, now);
      if more == [] {
        assert Count(l, k, more) == 0;
      } else {
        CountOne(l, k, more[0]);
      }
    }
  }

  lemma OneRouted(l: Link, k: Kind, toConsumer: bool, to: Address, from: Address, p: Packet, now: nat)
    ensures IsKind(l, k, InFlight(toConsumer, from, p.frame, now)) && (p.dest == None || p.dest == Some(to)) ==>
      KindPacket(l, k, toConsumer, to, p)
  {
    hide AnySub, AnyAck;
  }

  ghost predicate KindPacket(l: Link, k: Kind, toConsumer: bool, to: Address, p: Packet) {
    (p.dest == None || p.dest == Some(to))
    && (if k.Asking? then !toConsumer && AnySub(l, p.frame) else toConsumer && AnyAck(l, p.frame))
  }

  ghost function KindPackets(l: Link, k: Kind, toConsumer: bool, to: Address, packets: seq<Packet>): nat {
    if packets == [] then 0
    else
      KindPackets(l, k, toConsumer, to, packets[..|packets| - 1])
      + (if KindPacket(l, k, toConsumer, to, packets[|packets| - 1]) then 1 else 0)
  }

  lemma {:induction false} NoKindPackets(l: Link, k: Kind, toConsumer: bool, to: Address, packets: seq<Packet>)
    requires forall i :: 0 <= i < |packets| ==> !KindPacket(l, k, toConsumer, to, packets[i])
    ensures KindPackets(l, k, toConsumer, to, packets) == 0
    decreases |packets|
  {
    hide KindPacket;
    if packets != [] {
      NoKindPackets(l, k, toConsumer, to, packets[..|packets| - 1]);
    }
  }

  lemma {:induction false} KindPacketsConcat(l: Link, k: Kind, toConsumer: bool, to: Address, a: seq<Packet>,
                                             b: seq<Packet>)
    ensures KindPackets(l, k, toConsumer, to, a + b) == KindPackets(l, k, toConsumer, to, a)
      + KindPackets(l, k, toConsumer, to, b)
    decreases |b|
  {
    hide KindPacket;
    if b == [] {
      assert a + b == a;
    } else {
      assert (a + b)[..|a + b| - 1] == a + b[..|b| - 1];
      KindPacketsConcat(l, k, toConsumer, to, a, b[..|b| - 1]);
    }
  }

  /** No new packet to the consumer answers the subscription. */
  ghost predicate NoAcks(l: Link, n: NodeState, n': NodeState) {
    n.wire <= n'.wire && forall i :: |n.wire| <= i < |n'.wire| ==> !KindPacket(l, Answering, true, l.addrC, n'.wire[i])
  }

  /** No new packet to the provider asks for the subscription. */
  ghost predicate NoAsks(l: Link, n: NodeState, n': NodeState) {
    n.wire <= n'.wire && forall i :: |n.wire| <= i < |n'.wire| ==> !KindPacket(l, Asking, false, l.addrP, n'.wire[i])
  }

  lemma CountsP(l: Link, s: System, p': NodeState, net: seq<InFlight>)
    ensures Count(l, Asking, MoveP(l, s, p', net).net) == Count(l, Asking, net)
    ensures NoAcks(l, s.p, p') ==> Count(l, Answering, MoveP(l, s, p', net).net) == Count(l, Answering, net)
  {
    hide AnySub, AnyAck, Count, KindPackets;
    var packets := NewPackets(s.p, p');
    var r := Routed(true, l.addrC, l.addrP, packets, s.now);
    CountConcat(l, Asking, net, r);
    CountConcat(l, Answering, net, r);
    RoutedKinds(l, Asking, true, l.addrC, l.addrP, packets, s.now);
    RoutedKinds(l, Answering, true, l.addrC, l.addrP, packets, s.now);
    NoKindPackets(l, Asking, true, l.addrC, packets);
    if NoAcks(l, s.p, p') {
      forall i | 0 <= i < |packets|
        ensures !KindPacket(l, Answering, true, l.addrC, packets[i])
      {
        assert packets[i] == p'.wire[|s.p.wire| + i];
      }
      NoKindPackets(l, Answering, true, l.addrC, packets);
    }
  }

  lemma CountsC(l: Link, s: System, c': NodeState, net: seq<InFlight>)
    ensures Count(l, Answering, MoveC(l, s, c', net).net) == Count(l, Answering, net)
    ensures Count(l, Asking, net) <= Count(l, Asking, MoveC(l, s, c', net).net) <= Count(l, Asking, net)
      + KindPackets(l, Asking, false, l.addrP, NewPackets(s.c, c'))
    ensures NoAsks(l, s.c, c') ==> Count(l, Asking, MoveC(l, s, c', net).net) == Count(l, Asking, net)
  {
    hide AnySub, AnyAck, Count, KindPackets;
    var packets := NewPackets(s.c, c');
    var r := Routed(false, l.addrP, l.addrC, packets, s.now);
    CountConcat(l, Asking, net, r);
    CountConcat(l, Answering, net, r);
    RoutedKinds(l, Asking, false, l.addrP, l.addrC, packets, s.now);
    RoutedKinds(l, Answering, false, l.addrP, l.addrC, packets, s.now);
    NoKindPackets(l, Answering, false, l.addrP, packets);
    if NoAsks(l, s.c, c') {
      forall i | 0 <= i < |packets|
        ensures !KindPacket(l, Asking, false, l.addrP, packets[i])
      {
        assert packets[i] == c'.wire[|s.c.wire| + i];
      }
      NoKindPackets(l, Asking, false, l.addrP, packets);
    }
  }

  // ------------------------------------------------------------- the provider's side

  /** No lease is held for the subscription. */
  ghost predicate NoLease(l: Link, events: seq<EM.EventSlot>) {
    EM.WellFormed(events, l.p.limits) && EM.Lease(events, l.sid, l.eid, l.c.sd.clientId) == None
  }

  /** Discovery itself never sends an acknowledgement. */
  ghost predicate NeverAcks(out: seq<Output>) {
    forall o :: o in out && (o.Broadcast? || o.Unicast?) ==> !o.msg.SubscribeAck?
  }

  lemma StepNeverAcks(cfg: SdConfig, sd: Sd, e: Event, now: u32)
    ensures NeverAcks(Step(cfg, sd, e, now).1)
  {
    hide OffersOutput, RenewalsOutput, TtlsOutput, FindsOutput, FindReplies, TimeAfterOrEq, FlagResubscribe,
      SessionId, Reboot;
    var out := Step(cfg, sd, e, now).1;
    forall o | o in out && (o.Broadcast? || o.Unicast?)
      ensures !o.msg.SubscribeAck?
    {
      if e.ProcessOffers? {
        OffersFrom(sd.providers, sd.localAddr, now, o);
      } else if e.ProcessRenewals? {
        RenewalsFrom(cfg, sd.consumers, sd.trackers, now, o);
      } else if e.ProcessTtls? {
        TtlsFrom(sd.consumers, now, o);
      } else if e.ProcessFinds? {
        FindsFrom(cfg, sd.consumers, now, o);
      } else if e.RxFind? {
        RepliesFrom(sd.providers, sd.localAddr, e.sid, e.source, o);
      }
    }
  }

  lemma SentNoAck(l: Link, p: Packet, out: seq<Output>)
    requires SentFrom(l.p, p, out) && NeverAcks(out)
    ensures !KindPacket(l, Answering, true, l.addrC, p)
  {
    hide Seen, Carries;
    var k :| 0 <= k < |out| && Carries(l.p, p, out[k]);
    assert out[k] in out;
    CarriedShows(l.c, l.setupC, l.addrP, l.p, p, out[k]);
  }

  lemma EmitsNoAck(l: Link, n: NodeState, n': NodeState, out: seq<Output>)
    requires Emits(l.p, n, n', out) && NeverAcks(out)
    ensures NoAcks(l, n, n')
  {
    hide SentFrom, Reached, Sendable, KindPacket, NeverAcks;
    forall i | |n.wire| <= i < |n'.wire|
      ensures !KindPacket(l, Answering, true, l.addrC, n'.wire[i])
    {
      SentNoAck(l, n'.wire[i], out);
    }
  }

  /** A cycle, a call and a registration grant nothing. */
  lemma JoinCycleP(l: Link, n: NodeState, now: u32)
    requires NoLease(l, n.events)
    ensures NoLease(l, Housekeeping(l.p, n, now).events) && NoAcks(l, n, Housekeeping(l.p, n, now))
  {
    hide Housekeeping, Emits, Step, EM.Evict, EM.Lease, EM.WellFormed, NoAcks;
    HousekeepingEmits(l.p, n, now);
    EM.EvictAllRefines(n.events, l.p.limits, now);
    PassesNeverAck(l.p.sd, n.sd, now);
    EmitsNoAck(l, n, Housekeeping(l.p, n, now), FourPasses(l.p.sd, n.sd, now).1);
  }

  lemma PassesNeverAck(cfg: SdConfig, sd: Sd, now: u32)
    ensures NeverAcks(FourPasses(cfg, sd, now).1)
  {
    hide Step;
    var (sd1, o1) := Step(cfg, sd, ProcessOffers, now);
    var (sd2, o2) := Step(cfg, sd1, ProcessRenewals, now);
    var (sd3, o3) := Step(cfg, sd2, ProcessTtls, now);
    StepNeverAcks(cfg, sd, ProcessOffers, now);
    StepNeverAcks(cfg, sd1, ProcessRenewals, now);
    StepNeverAcks(cfg, sd2, ProcessTtls, now);
    StepNeverAcks(cfg, sd3, ProcessFinds, now);
    var o4 := Step(cfg, sd3, ProcessFinds, now).1;
    forall o | o in o1 + o2 + o3 + o4
      ensures o in o1 || o in o2 || o in o3 || o in o4
    {
    }
  }

  lemma JoinCallP(l: Link, n: NodeState, e: Event, now: u32)
    ensures SdStep(l.p, n, e, now).events == n.events && NoAcks(l, n, SdStep(l.p, n, e, now))
  {
    hide SdStep, Step, Emits, NoAcks;
    SdStepEmits(l.p, n, e, now);
    StepNeverAcks(l.p.sd, n.sd, e, now);
    EmitsNoAck(l, n, SdStep(l.p, n, e, now), Step(l.p.sd, n.sd, e, now).1);
  }

  /** Receiving anything but the consumer's own message about the subscription. */
  lemma JoinReceivesP(l: Link, n: NodeState, source: Address, d: Bytes, now: u32)
    requires l.sub && NoLease(l, n.events)
    requires (source == l.addrC && !AnySub(l, d)) || BenignToP(l, source, d)
    ensures var n' := Receive(l.p, l.setupP, n, source, d, now);
      NoLease(l, n'.events) && NoAcks(l, n, n')
  {
    hide Receive, Seen, HandleMessage, EM.Lease, EM.WellFormed, Step, SentFrom, NotDiscovery, KindPacket;
    ReceiveIsHandle(l.p, l.setupP, n, source, d, now);
    var n' := Receive(l.p, l.setupP, n, source, d, now);
    match Seen(l.p, l.setupP, source, d)
    case None =>
      forall i | |n.wire| <= i < |n'.wire|
        ensures !KindPacket(l, Answering, true, l.addrC, n'.wire[i])
      {
        UnseenNoAck(l, n'.wire[i]);
      }
    case Some(x) =>
      if x.m.SubscribeEvent? {
        OtherSubscribes(l, n, source, d, x, now);
      } else if x.m.Unsubscribe? {
        OtherUnsubscribes(l, n, source, d, x, now);
      } else {
        HandlesAsStep(l.p, n, source, x, now);
        StepNeverAcks(l.p.sd, n.sd, Caused(source, x).value, now);
        forall i | |n.wire| <= i < |n'.wire|
          ensures !KindPacket(l, Answering, true, l.addrC, n'.wire[i])
        {
          SentNoAck(l, n'.wire[i], Step(l.p.sd, n.sd, Caused(source, x).value, now).1);
        }
      }
  }

  lemma UnseenNoAck(l: Link, p: Packet)
    requires NotDiscovery(p.frame)
    ensures !KindPacket(l, Answering, true, l.addrC, p)
  {
    hide Seen, NotDiscovery;
    NotDiscoveryUnseen(l.c, l.setupC, l.addrP, p.frame);
  }

  lemma OtherSubscribes(l: Link, n: NodeState, source: Address, d: Bytes, x: SdSeen, now: u32)
    requires l.sub && NoLease(l, n.events) && Seen(l.p, l.setupP, source, d) == Some(x) && x.m.SubscribeEvent?
    requires (source == l.addrC && !AnySub(l, d)) || BenignToP(l, source, d)
    ensures var n' := HandleMessage(l.p, n, source, x.client, x.result, x.m, now);
      NoLease(l, n'.events) && NoAcks(l, n, n')
  {
    hide Seen, EM.Lease, EM.WellFormed, EM.Subscribe, SdFrame, Payload;
    var sid, eid := x.m.serviceId, x.m.eventId;
    EM.SubscribeRefines(n.events, l.p.limits, sid, eid, x.client, source, x.m.ttl, now);
    var n' := HandleMessage(l.p, n, source, x.client, x.result, x.m, now);
    var (events', r) := EM.Subscribe(n.events, l.p.limits, sid, eid, x.client, source, x.m.ttl, now);
    var m := SubscribeAck(sid, eid, if r.Accepted? then EM.GrantedTtl(x.m.ttl, l.p.limits) else 0);
    var rc := if r.Accepted? then E_OK else E_NOT_OK;
    assert n'.wire == n.wire + [Packet(Some(source), SdFrame(l.p.sd.clientId, m, rc, n.sdSeq), l.p.linkUp(|n.wire|))];
    FrameShows(l.c, l.setupC, l.addrP, l.p.sd.clientId, m, rc, n.sdSeq);
  }

  lemma OtherUnsubscribes(l: Link, n: NodeState, source: Address, d: Bytes, x: SdSeen, now: u32)
    requires l.sub && NoLease(l, n.events) && Seen(l.p, l.setupP, source, d) == Some(x) && x.m.Unsubscribe?
    ensures var n' := HandleMessage(l.p, n, source, x.client, x.result, x.m, now);
      NoLease(l, n'.events) && NoAcks(l, n, n')
  {
    hide Seen, EM.Lease, EM.WellFormed, EM.Unsubscribe;
    EM.UnsubscribeRefines(n.events, l.p.limits, x.m.serviceId, x.m.eventId, x.client);
  }

  /** The first subscribe message: the lease starts and is acknowledged, or it is refused. */
  lemma FirstSubscribe(l: Link, n: NodeState, d: Bytes, now: u32)
    requires Usable(l) && l.sub && NoLease(l, n.events) && IsSubscribe(l, d)
    ensures var n' := Receive(l.p, l.setupP, n, l.addrC, d, now);
      && |n'.wire| == |n.wire| + 1 && n'.wire[..|n.wire|] == n.wire && n'.wire[|n.wire|].sent
      && n'.wire[|n.wire|].dest == Some(l.addrC)
      && (|| (LeaseStarts(l, n'.events, l.addrC, now) && IsAck(l, n'.wire[|n.wire|].frame))
          || (NoLease(l, n'.events) && Refusal(l, n'.wire[|n.wire|].frame)))
  {
    hide Receive, Seen, EM.Lease, EM.WellFormed, EM.Subscribe, SdFrame, Payload;
    ReceiveIsHandle(l.p, l.setupP, n, l.addrC, d, now);
    var n' := Receive(l.p, l.setupP, n, l.addrC, d, now);
    EM.SubscribeRefines(n.events, l.p.limits, l.sid, l.eid, l.c.sd.clientId, l.addrC, l.requested, now);
    var (events', r) := EM.Subscribe(n.events, l.p.limits, l.sid, l.eid, l.c.sd.clientId, l.addrC, l.requested, now);
    var m := SubscribeAck(l.sid, l.eid, if r.Accepted? then EM.GrantedTtl(l.requested, l.p.limits) else 0);
    var rc := if r.Accepted? then E_OK else E_NOT_OK;
    assert n'.wire == n.wire + [Packet(Some(l.addrC), SdFrame(l.p.sd.clientId, m, rc, n.sdSeq), l.p.linkUp(|n.wire|))];
    PayloadSize(m);
    SdFrameSeen(l.c, l.setupC, l.addrP, l.p.sd.clientId, m, rc, n.sdSeq);
  }

  // ------------------------------------------------------------- the consumer's side

  ghost predicate IsAsk(m: SdMessage) {
    m.SubscribeEvent? || m.Unsubscribe?
  }

  /** Only the renewal pass asks for a subscription, and it asks the provider directly. */
  ghost predicate NeverAsks(out: seq<Output>) {
    forall o :: o in out && (o.Broadcast? || o.Unicast?) ==> !IsAsk(o.msg)
  }

  ghost predicate AsksDirectly(out: seq<Output>) {
    forall o :: o in out && o.Broadcast? ==> !IsAsk(o.msg)
  }

  lemma StepNeverAsks(cfg: SdConfig, sd: Sd, e: Event, now: u32)
    requires !e.ProcessRenewals?
    ensures NeverAsks(Step(cfg, sd, e, now).1)
  {
    hide OffersOutput, TtlsOutput, FindsOutput, FindReplies, FlagResubscribe, SessionId, Reboot;
    var out := Step(cfg, sd, e, now).1;
    forall o | o in out && (o.Broadcast? || o.Unicast?)
      ensures !IsAsk(o.msg)
    {
      if e.ProcessOffers? {
        OffersFrom(sd.providers, sd.localAddr, now, o);
      } else if e.ProcessTtls? {
        TtlsFrom(sd.consumers, now, o);
      } else if e.ProcessFinds? {
        FindsFrom(cfg, sd.consumers, now, o);
      } else if e.RxFind? {
        RepliesFrom(sd.providers, sd.localAddr, e.sid, e.source, o);
      }
    }
  }

  lemma StepAsksDirectly(cfg: SdConfig, sd: Sd, e: Event, now: u32)
    ensures AsksDirectly(Step(cfg, sd, e, now).1)
  {
    hide Step, RenewalsOutput, TimeAfterOrEq;
    if e.ProcessRenewals? {
      forall o | o in RenewalsOutput(cfg, sd.consumers, sd.trackers, now)
        ensures o.Unicast?
      {
        RenewalsFrom(cfg, sd.consumers, sd.trackers, now, o);
      }
      RenewalsOut(cfg, sd, now);
    } else {
      StepNeverAsks(cfg, sd, e, now);
    }
  }

  lemma RenewalsOut(cfg: SdConfig, sd: Sd, now: u32)
    ensures Step(cfg, sd, ProcessRenewals, now).1 == RenewalsOutput(cfg, sd.consumers, sd.trackers, now)
  {
  }

  /** The messages about the subscription among the outputs. */
  ghost function Asks(l: Link, out: seq<Output>): nat {
    |Select(out, Subscribes(l.sid, l.eid))| + |Select(out, Unsubscribes(l.sid, l.eid))|
  }

  /** Carrying outputs out puts at most as many on the wire. */
  lemma {:induction false} CarriedAsks(l: Link, n: NodeState, out: seq<Output>)
    requires AsksDirectly(out)
    ensures var n' := CarryAll(l.c, n, out);
      n.wire <= n'.wire && KindPackets(l, Asking, false, l.addrP, NewPackets(n, n')) <= Asks(l, out)
    decreases |out|
  {
    hide KindPackets, Concerns, Carries, KindPacket, Carry;
    if out == [] {
      assert NewPackets(n, n) == [] && KindPackets(l, Asking, false, l.addrP, [])
        == 0 by { NoKindPackets(l, Asking, false, l.addrP, []); }
    } else {
      var k := |out| - 1;
      var n1 := CarryAll(l.c, n, out[..k]);
      CarriedAsks(l, n, out[..k]);
      var n' := Carry(l.c, n1, out[k]);
      CarryOne(l.c, n1, out[k]);
      OneAsk(l, n1, n', out[k]);
      PacketsAdd(l, n, n1, n');
      AsksLast(l, out);
    }
  }

  lemma AsksLast(l: Link, out: seq<Output>)
    requires out != []
    ensures var o := out[|out| - 1];
      Asks(l, out) == Asks(l, out[..|out| - 1])
        + (if Concerns(o, Subscribes(l.sid, l.eid)) || Concerns(o, Unsubscribes(l.sid, l.eid)) then 1 else 0)
  {
  }

  lemma PacketsAdd(l: Link, n: NodeState, n1: NodeState, n2: NodeState)
    requires n.wire <= n1.wire && n1.wire <= n2.wire
    ensures KindPackets(l, Asking, false, l.addrP, NewPackets(n, n2))
         == KindPackets(l, Asking, false, l.addrP, NewPackets(n, n1))
           + KindPackets(l, Asking, false, l.addrP, NewPackets(n1, n2))
  {
    hide KindPackets;
    assert NewPackets(n, n2) == NewPackets(n, n1) + NewPackets(n1, n2);
    KindPacketsConcat(l, Asking, false, l.addrP, NewPackets(n, n1), NewPackets(n1, n2));
  }

  lemma OneAsk(l: Link, n: NodeState, n': NodeState, o: Output)
    requires CarriedOne(l.c, n, n', o) && (o.Broadcast? ==> !IsAsk(o.msg))
    ensures KindPackets(l, Asking, false, l.addrP, NewPackets(n, n'))
         <= (if Concerns(o, Subscribes(l.sid, l.eid)) || Concerns(o, Unsubscribes(l.sid, l.eid)) then 1 else 0)
  {
    hide Seen, Carries, Sendable;
    var packets := NewPackets(n, n');
    if packets != [] {
      assert packets == [n'.wire[|n.wire|]] && packets[..0] == [];
      CarriedShows(l.p, l.setupP, l.addrC, l.c, packets[0], o);
    }
  }

  /** One pass of the consumer's cycle. */
  lemma PassAsks(l: Link, n: NodeState, e: Event, now: u32)
    ensures var n' := SdStep(l.c, n, e, now);
      && n.wire <= n'.wire && n'.sd == Step(l.c.sd, n.sd, e, now).0
      && KindPackets(l, Asking, false, l.addrP, NewPackets(n, n')) <= Asks(l, Step(l.c.sd, n.sd, e, now).1)
      && (!e.ProcessRenewals? ==> Asks(l, Step(l.c.sd, n.sd, e, now).1) == 0)
  {
    hide Step, KindPackets, Select, CarryAll;
    StepAsksDirectly(l.c.sd, n.sd, e, now);
    CarriedAsks(l, n.(sd := Step(l.c.sd, n.sd, e, now).0), Step(l.c.sd, n.sd, e, now).1);
    SdStepCarries(l.c, n, e, now);
    if !e.ProcessRenewals? {
      DiscoveryLog.Silent(l.c.sd, n.sd, e, now, Subscribes(l.sid, l.eid));
      DiscoveryLog.Silent(l.c.sd, n.sd, e, now, Unsubscribes(l.sid, l.eid));
    }
  }

  /** A cycle of the consumer asks at most what the renewal pass asks. */
  lemma CycleAsks(l: Link, n: NodeState, now: u32)
    ensures var n' := Housekeeping(l.c, n, now);
      && n.wire <= n'.wire
      && KindPackets(l, Asking, false, l.addrP, NewPackets(n, n'))
         <= Asks(l, Step(l.c.sd, Step(l.c.sd, n.sd, ProcessOffers, now).0, ProcessRenewals, now).1)
  {
    hide Step, SdStep, KindPackets, Asks, EM.Evict;
    var n1 := EvictRequests(n, now);
    var n2 := n1.(events := EM.Evict(n1.events, now));
    var n3 := SdStep(l.c, n2, ProcessOffers, now);
    var n4 := SdStep(l.c, n3, ProcessRenewals, now);
    var n5 := SdStep(l.c, n4, ProcessTtls, now);
    var n6 := SdStep(l.c, n5, ProcessFinds, now);
    PassAsks(l, n2, ProcessOffers, now);
    PassAsks(l, n3, ProcessRenewals, now);
    PassAsks(l, n4, ProcessTtls, now);
    PassAsks(l, n5, ProcessFinds, now);
    PacketsAdd(l, n2, n3, n4);
    PacketsAdd(l, n2, n4, n5);
    PacketsAdd(l, n2, n5, n6);
    assert NewPackets(n, n6) == NewPackets(n2, n6);
  }

  /** What a cycle does to the subscription. */
  ghost function Renewed(l: Link, sd: Sd, now: u32): Option<(SubTracker, seq<Output>)> {
    match TrackerOf(sd, l.sid, l.eid)
    case None => None
    case Some(t) => Some(RenewStep(l.c.sd, sd.consumers, t, now))
  }

  ghost predicate CycledTracker(l: Link, sd: Sd, sd': Sd, now: u32) {
    match Renewed(l, sd, now)
    case None => TrackerOf(sd', l.sid, l.eid) == None
    case Some(x) => TrackerOf(sd', l.sid, l.eid) == Some(x.0)
  }

  lemma CycleTracker(l: Link, sd: Sd, now: u32)
    requires Distinct(sd)
    ensures var (sd', out) := FourPasses(l.c.sd, sd, now);
      && Distinct(sd') && CycledTracker(l, sd, sd', now)
      && Asks(l, Step(l.c.sd, Step(l.c.sd, sd, ProcessOffers, now).0, ProcessRenewals, now).1)
         == (match Renewed(l, sd, now) case None => 0 case Some(x) => |x.1|)
      && (Renewed(l, sd, now).Some? ==> forall o :: o in Renewed(l, sd, now).value.1 ==> o in out)
  {
    hide Step, RenewStep, Distinct, TrackerOf, Select;
    var sd1 := Step(l.c.sd, sd, ProcessOffers, now).0;
    var sd2 := Step(l.c.sd, sd1, ProcessRenewals, now).0;
    var sd3 := Step(l.c.sd, sd2, ProcessTtls, now).0;
    PassTracker(l, sd, ProcessOffers, now);
    PassTracker(l, sd1, ProcessRenewals, now);
    PassTracker(l, sd2, ProcessTtls, now);
    PassTracker(l, sd3, ProcessFinds, now);
    OffersLeaveConsumers(l, sd, now);
    TrackerAsks(l, sd1, now);
  }

  lemma OffersLeaveConsumers(l: Link, sd: Sd, now: u32)
    ensures Step(l.c.sd, sd, ProcessOffers, now).0.consumers == sd.consumers
  {
  }

  lemma PassTracker(l: Link, sd: Sd, e: Event, now: u32)
    requires Distinct(sd) && (e.ProcessOffers? || e.ProcessRenewals? || e.ProcessTtls? || e.ProcessFinds?)
    ensures var sd' := Step(l.c.sd, sd, e, now).0;
      && Distinct(sd')
      && (if e.ProcessRenewals? then CycledTracker(l, sd, sd', now)
        else TrackerOf(sd', l.sid, l.eid) == TrackerOf(sd, l.sid, l.eid))
  {
    hide Step, Distinct, TrackerOf, RenewStep;
    DistinctParts(sd);
    StepDistinct(l.c.sd, sd, e, now);
    DistinctWhole(Step(l.c.sd, sd, e, now).0);
    TrackerStepIs(l.c.sd, sd, e, now, l.sid, l.eid);
  }

  lemma TrackerAsks(l: Link, sd: Sd, now: u32)
    requires Distinct(sd)
    ensures var out := Step(l.c.sd, sd, ProcessRenewals, now).1;
      && Asks(l, out) == (match Renewed(l, sd, now) case None => 0 case Some(x) => |x.1|)
      && (Renewed(l, sd, now).Some? ==> forall o :: o in Renewed(l, sd, now).value.1 ==> o in out)
  {
    hide Step, Distinct, RenewStep, Select;
    RenewalSends(l.c.sd, sd, now, l.sid, l.eid, Subscribes(l.sid, l.eid));
    RenewalSends(l.c.sd, sd, now, l.sid, l.eid, Unsubscribes(l.sid, l.eid));
    RenewalsOut(l.c.sd, sd, now);
    if Renewed(l, sd, now).Some? {
      var i := TrackerIndex(sd.trackers, l.sid, l.eid);
      RenewIsAsk(l, sd, now);
      RenewTopics(l.c.sd, sd.consumers, sd.trackers[i], now);
      forall o | o in Renewed(l, sd, now).value.1
        ensures o in Step(l.c.sd, sd, ProcessRenewals, now).1
      {
        RenewalAmong(l.c.sd, sd.consumers, sd.trackers, now, i, o);
      }
    }
  }

  lemma RenewIsAsk(l: Link, sd: Sd, now: u32)
    requires Renewed(l, sd, now).Some?
    ensures forall o :: o in Renewed(l, sd, now).value.1 ==> o.Unicast? && IsAsk(o.msg)
  {
    hide TimeAfterOrEq;
  }

  /** The renewal step sends the subscribe message to the provider. */
  ghost predicate SendsFirst(l: Link, sd: Sd, now: u32) {
    Renewed(l, sd, now).Some? && Unicast(l.addrP, SubscribeEvent(l.sid, l.eid, l.requested)) in Renewed(l, sd,
      now).value.1
  }

  /** A cycle of the consumer: the subscription's renewal step, and the packets of it. */
  lemma JoinCycleC(l: Link, n: NodeState, now: u32)
    requires Usable(l) && Distinct(n.sd)
    ensures var n' := Housekeeping(l.c, n, now);
      && Distinct(n'.sd) && n.wire <= n'.wire && CycledTracker(l, n.sd, n'.sd, now)
      && KindPackets(l, Asking, false, l.addrP, NewPackets(n, n'))
        <= (match Renewed(l, n.sd, now) case None => 0 case Some(x) => |x.1|)
      && (SendsFirst(l, n.sd, now) ==> exists i :: |n.wire| <= i < |n'.wire| && SentSubscribe(l, n'.wire[i]))
  {
    hide Housekeeping, FourPasses, CycledTracker, Renewed, KindPackets, Asks, Step, Distinct, Carries, Payload, Seen;
    var n' := Housekeeping(l.c, n, now);
    HousekeepingEmits(l.c, n, now);
    CycleAsks(l, n, now);
    CycleTracker(l, n.sd, now);
    if SendsFirst(l, n.sd, now) {
      var o := Unicast(l.addrP, SubscribeEvent(l.sid, l.eid, l.requested));
      var out := FourPasses(l.c.sd, n.sd, now).1;
      assert o in out;
      var k :| 0 <= k < |out| && out[k] == o;
      PayloadSize(o.msg);
      assert Sendable(l.c, out[k]);
      assert Reached(l.c, n, n', out[k]);
      var i :| |n.wire| <= i < |n'.wire| && Carries(l.c, n'.wire[i], out[k]);
      CarriedSeenByP(l, n'.wire[i], out[k]);
      CarriesUnicast(l.c, n'.wire[i], out[k]);
      assert SentSubscribe(l, n'.wire[i]);
    }
  }

  /** The subscription waits to be sent. */
  ghost predicate Fresh(l: Link, t: SubTracker) {
    t.active && t.needsSend && !t.needsUnsubscribe && t.requestedTtl == l.requested && t.grantedTtl == 0
  }

  /** A call leaves the subscription alone, or is the application's first call for it. */
  lemma JoinCallC(l: Link, n: NodeState, e: Event, now: u32)
    requires Distinct(n.sd) && IsCall(e) && !(e.UnsubscribeCall? && e.sid == l.sid && e.eid == l.eid)
    requires IsSubscribeCall(e, l.sid, l.eid) ==> TrackerOf(n.sd, l.sid, l.eid) == None && e.ttl == l.requested
    ensures var n' := SdStep(l.c, n, e, now);
      && Distinct(n'.sd) && n'.wire == n.wire
      && (|| TrackerOf(n'.sd, l.sid, l.eid) == TrackerOf(n.sd, l.sid, l.eid)
          || (TrackerOf(n.sd, l.sid, l.eid).None? && TrackerOf(n'.sd, l.sid, l.eid).Some?
              && Fresh(l, TrackerOf(n'.sd, l.sid, l.eid).value)))
  {
    hide SdStep, Emits, Step, Distinct, TrackerOf, Fresh;
    SdStepEmits(l.c, n, e, now);
    CallSaysNothing(l.c.sd, n.sd, e, now);
    NothingSent(l.c, n, SdStep(l.c, n, e, now), Step(l.c.sd, n.sd, e, now).1);
    DistinctParts(n.sd);
    StepDistinct(l.c.sd, n.sd, e, now);
    DistinctWhole(Step(l.c.sd, n.sd, e, now).0);
    if IsSubscribeCall(e, l.sid, l.eid) {
      FirstCall(l, n.sd, e, now);
    } else {
      TrackerStepIs(l.c.sd, n.sd, e, now, l.sid, l.eid);
      TrackerHasKey(n.sd, l.sid, l.eid);
    }
  }

  lemma CallSaysNothing(cfg: SdConfig, sd: Sd, e: Event, now: u32)
    requires IsCall(e)
    ensures Step(cfg, sd, e, now).1 == []
  {
    hide SessionId;
  }

  lemma FirstCall(l: Link, sd: Sd, e: Event, now: u32)
    requires Distinct(sd) && IsSubscribeCall(e, l.sid, l.eid) && TrackerOf(sd, l.sid, l.eid) == None
      && e.ttl == l.requested
    ensures var sd' := Step(l.c.sd, sd, e, now).0;
      TrackerOf(sd', l.sid, l.eid) == None
        || (TrackerOf(sd', l.sid, l.eid).Some? && Fresh(l, TrackerOf(sd', l.sid, l.eid).value))
  {
    var s, s' := sd.trackers, Step(l.c.sd, sd, e, now).0.trackers;
    if |s'| > |s| {
      assert s' == s + [Subscribed(NEW_TRACKER, l.sid, l.eid, l.requested, now)];
      TrackersDistinct(l.c.sd, sd, e, now);
      TrackerIndexIs(s', l.sid, l.eid, |s|);
    }
  }

  /** What a received frame does to the subscription. */
  ghost function ToldTracker(l: Link, sd: Sd, e: Option<Event>, now: u32): Option<SubTracker> {
    if e.None? || TrackerOf(sd, l.sid, l.eid).None? then TrackerOf(sd, l.sid, l.eid)
    else Some(TrackerStep(l.c.sd, sd, TrackerOf(sd, l.sid, l.eid).value, e.value, now))
  }

  lemma JoinReceivesC(l: Link, n: NodeState, source: Address, d: Bytes, now: u32)
    requires Distinct(n.sd)
    ensures var n' := Receive(l.c, l.setupC, n, source, d, now);
      && Distinct(n'.sd) && NoAsks(l, n, n')
      && TrackerOf(n'.sd, l.sid, l.eid) == ToldTracker(l, n.sd, CausedBy(l.c, l.setupC, source, d), now)
  {
    hide Receive, Seen, Step, Distinct, TrackerOf, SentFrom, NotDiscovery, IsAnswer, KindPacket, NeverAsks;
    ReceivesAsStep(l.c, l.setupC, n, source, d, now);
    var e := CausedBy(l.c, l.setupC, source, d);
    var n' := Receive(l.c, l.setupC, n, source, d, now);
    if e.Some? {
      StepNeverAsks(l.c.sd, n.sd, e.value, now);
      DistinctParts(n.sd);
      StepDistinct(l.c.sd, n.sd, e.value, now);
      DistinctWhole(Step(l.c.sd, n.sd, e.value, now).0);
      TrackerStepIs(l.c.sd, n.sd, e.value, now, l.sid, l.eid);
    }
    var out := OutAfter(l.c.sd, n.sd, e, now);
    assert NeverAsks(out) by { NothingNeverAsks(); }
    forall i | |n.wire| <= i < |n'.wire|
      ensures !KindPacket(l, Asking, false, l.addrP, n'.wire[i])
    {
      NoAskPacket(l, n'.wire[i], source, d, out);
    }
  }

  lemma NothingNeverAsks()
    ensures NeverAsks([])
  {
  }

  lemma NoAskPacket(l: Link, p: Packet, source: Address, d: Bytes, out: seq<Output>)
    requires NotDiscovery(p.frame) || SentFrom(l.c, p, out) || IsAnswer(l.c, l.setupC, p, source, d)
    requires NeverAsks(out)
    ensures !KindPacket(l, Asking, false, l.addrP, p)
  {
    hide Seen, NotDiscovery, Carries, SdFrame, Payload;
    if NotDiscovery(p.frame) {
      NotDiscoveryUnseen(l.p, l.setupP, l.addrC, p.frame);
    } else if SentFrom(l.c, p, out) {
      var k :| 0 <= k < |out| && Carries(l.c, p, out[k]);
      assert out[k] in out;
      CarriedShows(l.p, l.setupP, l.addrC, l.c, p, out[k]);
    } else {
      var x := Seen(l.c, l.setupC, source, d).value;
      var granted: u16, rc: u8, s: u8 :| p.frame
        == SdFrame(l.c.sd.clientId, SubscribeAck(x.m.serviceId, x.m.eventId, granted), rc, s);
      FrameShows(l.p, l.setupP, l.addrC, l.c.sd.clientId, SubscribeAck(x.m.serviceId, x.m.eventId, granted), rc, s);
    }
  }
}
