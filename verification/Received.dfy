/** What discovery messages that change the tables of others do when their frames arrive: a
subscription ends, and a sequence number starts over. */
module Received {
  import opened Words
  import opened Wire
  import opened SdMessages
  import opened DiscoverySpec
  import opened DiscoveryLog
  import opened Frame
  import opened Node
  import opened NodeEffects
  import opened NodeTheorems
  import opened Calls
  import Hmac
  import E2E = E2EProtection
  import EM = EventManager

  // -------------------------------------------------------- what a frame is received as

  /** A discovery frame is received as its message. */
  lemma ReceivedAs(cfg: NodeConfig, setup: Setup, n: NodeState, source: Address, client: u16, m: SdMessage,
                   result: u8, sequence: u8, now: u32)
    requires client != 0 && ShortAddress(m) && |Payload(m)| <= cfg.maxPayloadSize
      && (m.OfferService? ==> |m.provider| == cfg.addressSize)
    ensures Receive(cfg, setup, n, source, SdFrame(client, m, result, sequence), now)
         == HandleMessage(cfg, n, source, client, result, m, now)
  {
    hide SdFrame, Receive, HandleMessage, Payload, Seen;
    SdFrameSeen(cfg, setup, source, client, m, result, sequence);
    ReceiveIsHandle(cfg, setup, n, source, SdFrame(client, m, result, sequence), now);
  }

  /** A discovery frame with an unknown method, or a payload too short for its method, leaves the
      device as it was: not even a counter tells of it. */
  lemma MalformedIgnored(cfg: NodeConfig, setup: Setup, n: NodeState, source: Address, d: Bytes, now: u32)
    requires CheckFrame(cfg.maxPayloadSize, d).Passed? && |d| >= HEADER_SIZE && |d| >= ExpectedSize(ParseHeader(d))
    requires ParseHeader(d).serviceId == 0xFFFF && Authentic(setup, source, ParseHeader(d), d)
    requires var h := ParseHeader(d);
      !(1 <= h.methodEventId <= 5 && h.payloadLength >= [8 + cfg.addressSize, 4, 8, 8, 8][h.methodEventId - 1])
    ensures Receive(cfg, setup, n, source, d, now) == n
  {
    hide CheckFrame, Authentic, ParseHeader, ParsePayload, HandleMessage;
    PassedFits(cfg.maxPayloadSize, d);
    LongEnough(ParseHeader(d).methodEventId, PayloadOf(ParseHeader(d), d), [], cfg.addressSize);
  }

  // -------------------------------------------------------------------- unsubscribing

  /** Of all leases, only that of `client` on the event is gone. */
  ghost predicate OnlyLeaseGone(before: seq<EM.EventSlot>, after: seq<EM.EventSlot>, sid: u16, eid: u16, client: u16) {
    && EM.Lease(after, sid, eid, client) == None
    && forall s: u16, e: u16, c: u16 :: !(s == sid && e == eid && c == client) ==>
         EM.Lease(after, s, e, c) == EM.Lease(before, s, e, c)
  }

  /** Client `c` holds a lease on the event from the address of the packet. */
  predicate HeldFrom(events: seq<EM.EventSlot>, sid: u16, eid: u16, c: u16, p: Packet) {
    EM.Lease(events, sid, eid, c).Some? && p.dest == Some(EM.Lease(events, sid, eid, c).value.addr)
  }

  /** The packets go to the holders of leases on the event other than `except`: each of them
      gets one, and nobody else does. */
  ghost predicate ToHolders(events: seq<EM.EventSlot>, sent: seq<Packet>, sid: u16, eid: u16, except: Option<u16>) {
    && (forall i :: 0 <= i < |sent| ==> ToSome(events, sid, eid, except, sent[i]))
    && (forall c: u16 :: except != Some(c) && EM.Lease(events, sid, eid, c).Some? ==>
        GetsOne(events, sent, sid, eid, c))
  }

  ghost predicate ToSome(events: seq<EM.EventSlot>, sid: u16, eid: u16, except: Option<u16>, p: Packet) {
    exists c: u16 :: except != Some(c) && HeldFrom(events, sid, eid, c, p)
  }

  ghost predicate GetsOne(events: seq<EM.EventSlot>, sent: seq<Packet>, sid: u16, eid: u16, c: u16) {
    exists i :: 0 <= i < |sent| && HeldFrom(events, sid, eid, c, sent[i])
  }

  /** What a notification puts on the wire. */
  function Notifications(cfg: NodeConfig, setup: Setup, n: NodeState, sid: u16, eid: u16, payload: Bytes): seq<Packet> {
    var n' := Notify(cfg, setup, n, sid, eid, payload).0;
    if |n.wire| <= |n'.wire| then n'.wire[|n.wire|..] else []
  }

  /** The frame of an SD_UNSUBSCRIBE ends exactly the lease of its sender on that event, and
      changes nothing else on the device. The next notification goes to each of the other
      subscribers and to nobody else. */
  lemma UnsubscribeEnds(cfg: NodeConfig, setup: Setup, n: NodeState, source: Address, client: u16, sid: u16, eid: u16,
                        result: u8, sequence: u8, payload: Bytes, now: u32)
    requires client != 0 && cfg.maxPayloadSize >= 8 && EM.WellFormed(n.events, cfg.limits)
    ensures var n' := Receive(cfg, setup, n, source, SdFrame(client, Unsubscribe(sid, eid), result, sequence), now);
      && n' == n.(events := n'.events) && EM.WellFormed(n'.events, cfg.limits)
      && OnlyLeaseGone(n.events, n'.events, sid, eid, client)
      && ToHolders(n.events, Notifications(cfg, setup, n', sid, eid, payload), sid, eid, Some(client))
  {
    hide Receive, SdFrame, EM.Unsubscribe, EM.WellFormed, EM.Lease, Notifications, ToHolders;
    ReceivedAs(cfg, setup, n, source, client, Unsubscribe(sid, eid), result, sequence, now);
    EM.UnsubscribeRefines(n.events, cfg.limits, sid, eid, client);
    var n' := n.(events := EM.Unsubscribe(n.events, sid, eid, client));
    NotifiesLessees(cfg, setup, n', sid, eid, payload);
    OthersRemain(n.events, n'.events, Notifications(cfg, setup, n', sid, eid, payload), sid, eid, client);
  }

  lemma OthersRemain(before: seq<EM.EventSlot>, after: seq<EM.EventSlot>, sent: seq<Packet>, sid: u16, eid: u16,
                     client: u16)
    requires OnlyLeaseGone(before, after, sid, eid, client) && ToHolders(after, sent, sid, eid, None)
    ensures ToHolders(before, sent, sid, eid, Some(client))
  {
    hide EM.Lease, HeldFrom;
    forall c: u16 | c != client
      ensures EM.Lease(before, sid, eid, c) == EM.Lease(after, sid, eid, c)
      ensures forall p: Packet :: HeldFrom(before, sid, eid, c, p) <==> HeldFrom(after, sid, eid, c, p)
    {
      SameHolder(before, after, sid, eid, c);
    }
    forall i | 0 <= i < |sent|
      ensures ToSome(before, sid, eid, Some(client), sent[i])
    {
      assert ToSome(after, sid, eid, None, sent[i]);
      var c: u16 :| HeldFrom(after, sid, eid, c, sent[i]);
      GoneHolds(after, sid, eid, client, sent[i]);
    }
    forall c: u16 | Some(client) != Some(c) && EM.Lease(before, sid, eid, c).Some?
      ensures GetsOne(before, sent, sid, eid, c)
    {
      assert GetsOne(after, sent, sid, eid, c);
    }
  }

  lemma SameHolder(before: seq<EM.EventSlot>, after: seq<EM.EventSlot>, sid: u16, eid: u16, c: u16)
    requires EM.Lease(before, sid, eid, c) == EM.Lease(after, sid, eid, c)
    ensures forall p: Packet :: HeldFrom(before, sid, eid, c, p) <==> HeldFrom(after, sid, eid, c, p)
  {
  }

  lemma GoneHolds(events: seq<EM.EventSlot>, sid: u16, eid: u16, c: u16, p: Packet)
    requires EM.Lease(events, sid, eid, c) == None
    ensures !HeldFrom(events, sid, eid, c, p)
  {
  }

  /** A notification sends to the holder of each lease, and to no other. */
  lemma NotifiesLessees(cfg: NodeConfig, setup: Setup, n: NodeState, sid: u16, eid: u16, payload: Bytes)
    requires EM.WellFormed(n.events, cfg.limits)
    ensures ToHolders(n.events, Notifications(cfg, setup, n, sid, eid, payload), sid, eid, None)
  {
    hide NotifyAll, EM.WellFormed, ToHolders, Frame.Build, Hmac.Lookup, EM.SubsOf;
    var subs := EM.SubsOf(n.events, sid, eid);
    NotifiesEach(cfg, setup, n, subs, sid, eid, payload);
    SubsDistinct(n.events, cfg.limits, sid, eid);
    var sent := Notifications(cfg, setup, n, sid, eid, payload);
    forall i | 0 <= i < |subs|
      ensures sent[i].dest == Some(subs[i].addr)
    {
      assert sent[i] == Notify(cfg, setup, n, sid, eid, payload).0.wire[|n.wire| + i];
    }
    PacketsToHolders(n.events, sid, eid, sent);
  }

  /** Without a lease on the event nothing is sent; the caller learns whether there was one. */
  lemma NobodyTold(cfg: NodeConfig, setup: Setup, n: NodeState, sid: u16, eid: u16, payload: Bytes)
    requires EM.WellFormed(n.events, cfg.limits)
    ensures var (n', told) := Notify(cfg, setup, n, sid, eid, payload);
      && (told <==> exists c: u16 :: EM.Lease(n.events, sid, eid, c).Some?)
      && (!told ==> n' == n)
  {
    hide EM.WellFormed, EM.Distinct;
    var subs := EM.SubsOf(n.events, sid, eid);
    if subs != [] {
      SubsDistinct(n.events, cfg.limits, sid, eid);
      EM.LeaseAt(subs, 0);
      assert EM.Lease(n.events, sid, eid, subs[0].clientId).Some?;
    }
  }

  lemma PacketsToHolders(events: seq<EM.EventSlot>, sid: u16, eid: u16, sent: seq<Packet>)
    requires var subs := EM.SubsOf(events, sid, eid);
      EM.Distinct(subs) && |sent| == |subs| && forall i :: 0 <= i < |subs| ==> sent[i].dest == Some(subs[i].addr)
    ensures ToHolders(events, sent, sid, eid, None)
  {
    hide EM.SubsOf, EM.Distinct;
    var subs := EM.SubsOf(events, sid, eid);
    forall i | 0 <= i < |sent|
      ensures ToSome(events, sid, eid, None, sent[i])
    {
      EM.LeaseAt(subs, i);
      assert HeldFrom(events, sid, eid, subs[i].clientId, sent[i]);
    }
    forall c: u16 | EM.Lease(events, sid, eid, c).Some?
      ensures GetsOne(events, sent, sid, eid, c)
    {
      assert HeldFrom(events, sid, eid, c, sent[EM.SubIndex(subs, c)]);
    }
  }

  lemma SubsDistinct(events: seq<EM.EventSlot>, limits: EM.Limits, sid: u16, eid: u16)
    requires EM.WellFormed(events, limits)
    ensures EM.Distinct(EM.SubsOf(events, sid, eid))
  {
    var i := EM.EventIndex(events, sid, eid);
    if i < |events| {
      assert EM.WellFormedEvent(events[i], limits);
    }
  }

  // ---------------------------------------------------------------------- subscribing

  /** The frame of an SD_SUBSCRIBE_EVENT enters exactly the lease of its sender from its source,
      for the requested time or the default, and the source is told so with code 0; without the
      event or room for the client it is told with code 1, and no lease changes. */
  lemma SubscribeHeard(cfg: NodeConfig, setup: Setup, n: NodeState, source: Address, client: u16, sid: u16, eid: u16,
                       ttl: u16, result: u8, sequence: u8, now: u32) returns (granted: u16, rc: u8)
    requires client != 0 && cfg.maxPayloadSize >= 8 && EM.WellFormed(n.events, cfg.limits)
    ensures rc == (if EM.HasRoom(n.events, cfg.limits, sid, eid, client) then 0 else 1)
    ensures granted == (if rc == 1 then 0 else if ttl > 0 then ttl else cfg.limits.defaultTtl)
    ensures var d := SdFrame(client, SubscribeEvent(sid, eid, ttl), result, sequence);
      var n' := Receive(cfg, setup, n, source, d, now);
      var lease := EM.Subscriber(client, source, Wrap32(now + 1000 * granted));
      && n'.wire == n.wire + [Packet(Some(source),
                                     SdFrame(cfg.sd.clientId, SubscribeAck(sid, eid, granted), rc, n.sdSeq),
                                     cfg.linkUp(|n.wire|))]
      && n'.sd == n.sd && n'.requests == n.requests && n'.peers == n.peers && n'.app == n.app
      && EM.Lease(n'.events, sid, eid, client) == (if rc == 0 then Some(lease) else None)
      && (forall s: u16, e: u16, c: u16 :: !(s == sid && e == eid && c == client) ==>
            EM.Lease(n'.events, s, e, c) == EM.Lease(n.events, s, e, c))
  {
    hide Receive, SdFrame, EM.WellFormed, SubscribeRequest, EM.Lease;
    ReceivedAs(cfg, setup, n, source, client, SubscribeEvent(sid, eid, ttl), result, sequence, now);
    granted, rc := AckTellsLease(cfg, n, source, client, sid, eid, ttl, now);
  }

  /** The subscription as an acknowledgement leaves it: a code other than 0 ends it. */
  function Acknowledged(t: SubTracker, result: u8, granted: u16): SubTracker {
    if !t.active then t else if result == 0 then t.(grantedTtl := granted) else t.(active := false)
  }

  /** The frame of an SD_SUBSCRIBE_ACK, from whomever, changes at most the subscription it names,
      and is reported to the application in any case. */
  lemma AckHeard(cfg: NodeConfig, setup: Setup, n: NodeState, source: Address, client: u16, sid: u16, eid: u16,
                 granted: u16, result: u8, sequence: u8, now: u32)
    requires client != 0 && cfg.maxPayloadSize >= 8 && DistinctTrackers(n.sd.trackers)
    ensures var n' := Receive(cfg, setup, n, source,
                              SdFrame(client, SubscribeAck(sid, eid, granted), result, sequence), now);
      && n' == n.(sd := n.sd.(trackers := n'.sd.trackers),
                  app := n.app + [Discovered(AckCallback(sid, eid, result, granted))])
      && |n'.sd.trackers| == |n.sd.trackers|
      && (forall i :: 0 <= i < |n.sd.trackers| ==>
            var t := n.sd.trackers[i];
            n'.sd.trackers[i] == if t.serviceId == sid && t.eventId == eid then Acknowledged(t, result, granted) else t)
  {
    hide Receive, SdFrame, TrackerIndex;
    ReceivedAs(cfg, setup, n, source, client, SubscribeAck(sid, eid, granted), result, sequence, now);
    var o := AckCallback(sid, eid, result, granted);
    var sd' := n.sd.(trackers := HandleAck(n.sd.trackers, sid, eid, result, granted));
    assert [o][..0] == [];
    assert CarryAll(cfg, n.(sd := sd'), [o][..0]) == n.(sd := sd');
    assert CarryAll(cfg, n.(sd := sd'), [o]) == n.(sd := sd', app := n.app + [Discovered(o)]);
    var i := TrackerIndex(n.sd.trackers, sid, eid);
    assert forall j :: 0 <= j < |n.sd.trackers| && IsTracker(n.sd.trackers[j], sid, eid) ==> j == i;
  }

  // ------------------------------------------------------------- sequence state forgotten

  /** The peer table of a device: at most its capacity, no address twice. */
  ghost predicate PeersValid(cfg: NodeConfig, n: NodeState) {
    E2E.Distinct(n.peers) && |n.peers| <= cfg.maxTrackedPeers
  }

  /** The sequence check stops no next message of `peer`, whatever it carries, and knows of
      all other peers what it knew. */
  ghost predicate StartsOver(cfg: NodeConfig, n: NodeState, n': NodeState, peer: Address) {
    && PeersValid(cfg, n') && (forall sequence: u8 :: Fresh(cfg, n', peer, sequence))
    && (forall a: Address :: a != peer ==> E2E.Tracked(n'.peers, a) == E2E.Tracked(n.peers, a))
  }

  lemma ResetStartsOver(cfg: NodeConfig, n: NodeState, n': NodeState, peer: Address)
    requires PeersValid(cfg, n) && n'.peers == E2E.ResetPeer(n.peers, peer)
    ensures StartsOver(cfg, n, n', peer)
  {
    hide E2E.Distinct, E2E.Tracked, E2E.Validate;
    ResetFits(n.peers, peer);
    E2E.ResetForgets(n.peers, peer);
    forall sequence: u8
      ensures Fresh(cfg, n', peer, sequence)
    {
      E2E.AfterReset(n.peers, cfg.maxTrackedPeers, cfg.window, peer, sequence);
    }
  }

  lemma ResetFits(peers: seq<E2E.Peer>, peer: Address)
    ensures |E2E.ResetPeer(peers, peer)| <= |peers|
  {
  }

  // ------------------------------------------------------------------ a find is answered

  /** The answer to a find about the service of `pe`. */
  function AnswerWith(pe: ProviderEntry, addr: Address, source: Address): Output {
    Unicast(source, OfferService(pe.serviceId, pe.major, pe.minor, pe.ttl, pe.session, addr))
  }

  /** The find asks for everything, or for this service, and the service is offered. */
  predicate Asked(pe: ProviderEntry, sid: u16) {
    pe.offered && (sid == 0xFFFF || sid == pe.serviceId)
  }

  /** The packets carry answers to the find: one for each offered service it asks for (that is
      not too long to be sent), and no others. */
  ghost predicate FindAnswered(cfg: NodeConfig, sd: Sd, sent: seq<Packet>, sid: u16, source: Address) {
    && (forall k :: 0 <= k < |sd.providers| && Asked(sd.providers[k], sid) ==>
          AnsweredWith(cfg, sent, AnswerWith(sd.providers[k], sd.localAddr, source)))
    && (forall i :: 0 <= i < |sent| ==> AnswerOfSome(cfg, sd, sent[i], sid, source))
  }

  ghost predicate AnsweredWith(cfg: NodeConfig, sent: seq<Packet>, o: Output) {
    Sendable(cfg, o) ==> exists i :: 0 <= i < |sent| && Carries(cfg, sent[i], o)
  }

  ghost predicate AnswerOfSome(cfg: NodeConfig, sd: Sd, p: Packet, sid: u16, source: Address) {
    exists k :: 0 <= k < |sd.providers| && Asked(sd.providers[k], sid)
      && Carries(cfg, p, AnswerWith(sd.providers[k], sd.localAddr, source))
  }

  /** The frame of an SD_FIND: the sender's sequence state is forgotten, and it gets an offer
      of each offered service it asks for, and nothing else; no table but that of the peers
      changes. */
  lemma FindHeard(cfg: NodeConfig, setup: Setup, n: NodeState, source: Address, client: u16, sid: u16, result: u8,
                  sequence: u8, now: u32)
    requires client != 0 && cfg.maxPayloadSize >= 4 && PeersValid(cfg, n)
    ensures var n' := Receive(cfg, setup, n, source, SdFrame(client, FindService(sid), result, sequence), now);
      && StartsOver(cfg, n, n', source)
      && n'.sd == n.sd && n'.events == n.events && n'.requests == n.requests && n'.txSeq == n.txSeq && n'.app == n.app
      && n.wire <= n'.wire && FindAnswered(cfg, n.sd, n'.wire[|n.wire|..], sid, source)
  {
    hide SdFrame, Receive, Carried, PeersValid, StartsOver, FindReplies, CarryAll, E2E.ResetPeer, FindAnswered;
    ReceivedAs(cfg, setup, n, source, client, FindService(sid), result, sequence, now);
    var n0 := n.(peers := E2E.ResetPeer(n.peers, source));
    var out := FindReplies(n.sd.providers, n.sd.localAddr, sid, source);
    var n' := CarryAll(cfg, n0, out);
    assert n0.(sd := n.sd) == n0;
    RepliesAre(n.sd.providers, n.sd.localAddr, sid, source);
    RepliesCarried(cfg, n0, n.sd, sid, source);
    ResetStartsOver(cfg, n, n', source);
  }

  lemma RepliesCarried(cfg: NodeConfig, n: NodeState, sd: Sd, sid: u16, source: Address)
    ensures var n' := CarryAll(cfg, n, FindReplies(sd.providers, sd.localAddr, sid, source));
      && n' == n.(sdSeq := n'.sdSeq, wire := n'.wire, counters := n'.counters)
      && n.wire <= n'.wire && FindAnswered(cfg, sd, n'.wire[|n.wire|..], sid, source)
  {
    hide Carried, Carries, Sendable, FindReplies, FindAnswered, Asked;
    var out := FindReplies(sd.providers, sd.localAddr, sid, source);
    RepliesAre(sd.providers, sd.localAddr, sid, source);
    CarryKeeps(cfg, n, out);
    CarryAllCarries(cfg, n, out);
    CarriedReplies(cfg, n, CarryAll(cfg, n, out), sd, sid, source);
  }

  /** Sending leaves all tables alone. */
  lemma {:induction false} CarryKeeps(cfg: NodeConfig, n: NodeState, out: seq<Output>)
    requires forall i :: 0 <= i < |out| ==> out[i].Unicast?
    ensures var n' := CarryAll(cfg, n, out);
      n' == n.(sdSeq := n'.sdSeq, wire := n'.wire, counters := n'.counters)
    decreases |out|
  {
    hide SdFrame, Bump;
    if out != [] {
      CarryKeeps(cfg, n, out[..|out| - 1]);
    }
  }

  lemma CarriedReplies(cfg: NodeConfig, n: NodeState, n': NodeState, sd: Sd, sid: u16, source: Address)
    requires var out := FindReplies(sd.providers, sd.localAddr, sid, source);
      && Carried(cfg, n, n', out) && Replies(sd.providers, sd.localAddr, sid, source, out)
    ensures n.wire <= n'.wire && FindAnswered(cfg, sd, n'.wire[|n.wire|..], sid, source)
  {
    hide Carries, Sendable, FindReplies, Asked, AnswerWith;
    var out := FindReplies(sd.providers, sd.localAddr, sid, source);
    var sent := n'.wire[|n.wire|..];
    forall k | 0 <= k < |sd.providers| && Asked(sd.providers[k], sid)
      ensures AnsweredWith(cfg, sent, AnswerWith(sd.providers[k], sd.localAddr, source))
    {
      var o := AnswerWith(sd.providers[k], sd.localAddr, source);
      var j :| 0 <= j < |out| && out[j] == o;
      if Sendable(cfg, o) {
        var i :| |n.wire| <= i < |n'.wire| && Carries(cfg, n'.wire[i], out[j]);
        assert Carries(cfg, sent[i - |n.wire|], o);
      }
    }
    forall i | 0 <= i < |sent|
      ensures AnswerOfSome(cfg, sd, sent[i], sid, source)
    {
      assert sent[i] == n'.wire[|n.wire| + i];
      var j :| 0 <= j < |out| && Carries(cfg, n'.wire[|n.wire| + i], out[j]);
      assert ReplyOfSome(sd.providers, sd.localAddr, sid, source, out[j]);
    }
  }

  /** The outputs are answers with the services asked for. */
  ghost predicate Replies(s: seq<ProviderEntry>, addr: Address, sid: u16, source: Address, out: seq<Output>) {
    && (forall k :: 0 <= k < |s| && Asked(s[k], sid) ==> AnswerWith(s[k], addr, source) in out)
    && (forall j :: 0 <= j < |out| ==> out[j].Unicast? && ReplyOfSome(s, addr, sid, source, out[j]))
  }

  ghost predicate ReplyOfSome(s: seq<ProviderEntry>, addr: Address, sid: u16, source: Address, o: Output) {
    exists k :: 0 <= k < |s| && Asked(s[k], sid) && o == AnswerWith(s[k], addr, source)
  }

  lemma {:induction false} RepliesAre(s: seq<ProviderEntry>, addr: Address, sid: u16, source: Address)
    ensures Replies(s, addr, sid, source, FindReplies(s, addr, sid, source))
    decreases |s|
  {
    if s != [] {
      var n := |s| - 1;
      RepliesAre(s[..n], addr, sid, source);
      var out := FindReplies(s, addr, sid, source);
      var rest := FindReplies(s[..n], addr, sid, source);
      forall j | 0 <= j < |out|
        ensures out[j].Unicast? && ReplyOfSome(s, addr, sid, source, out[j])
      {
        if j < |rest| {
          var k :| 0 <= k < n && Asked(s[..n][k], sid) && rest[j] == AnswerWith(s[..n][k], addr, source);
          assert s[..n][k] == s[k];
        } else {
          assert Asked(s[n], sid) && out[j] == AnswerWith(s[n], addr, source);
        }
      }
      forall k | 0 <= k < |s| && Asked(s[k], sid)
        ensures AnswerWith(s[k], addr, source) in out
      {
        if k < n {
          assert s[..n][k] == s[k];
        }
      }
    }
  }

  // ------------------------------------------------------------- an offer after a reboot

  /** The first entry of the service is FOUND, with a session other than `session`. */
  predicate OtherSession(s: seq<ConsumerEntry>, i: nat, sid: u16, session: u16) {
    && i < |s| && s[i].serviceId == sid && s[i].state == FOUND && s[i].sessionValid && s[i].session != session
    && forall j :: 0 <= j < i ==> s[j].serviceId != sid
  }

  /** The frame of an SD_OFFER: if the service is FOUND with another session, the sequence
      state of the offered address is forgotten; otherwise no sequence state changes. Nothing
      is sent. */
  lemma OfferHeard(cfg: NodeConfig, setup: Setup, n: NodeState, source: Address, client: u16, sid: u16, major: u8,
                   minor: u8, ttl: u16, session: u16, provider: Address, result: u8, sequence: u8, now: u32)
    requires client != 0 && |provider| == cfg.addressSize < TWO_16 && 8 + |provider| <= cfg.maxPayloadSize
    requires PeersValid(cfg, n)
    ensures var m := OfferService(sid, major, minor, ttl, session, provider);
      var n' := Receive(cfg, setup, n, source, SdFrame(client, m, result, sequence), now);
      && n' == n.(sd := n'.sd, peers := n'.peers, app := n'.app)
      && (Superseded(n.sd.consumers, sid, session) ==> StartsOver(cfg, n, n', provider))
      && (!Superseded(n.sd.consumers, sid, session) ==> n'.peers == n.peers)
  {
    hide SdFrame, Receive, StartsOver, PeersValid, HandleOffer, CarryAll, E2E.ResetPeer;
    var m := OfferService(sid, major, minor, ttl, session, provider);
    ReceivedAs(cfg, setup, n, source, client, m, result, sequence, now);
    var reboot := DetectReboot(n.sd.consumers, sid, session);
    var n0 := if reboot then n.(peers := E2E.ResetPeer(n.peers, provider)) else n;
    var (sd', out) := HandleOffer(n.sd, sid, major, ttl, session, provider, now);
    var n' := CarryAll(cfg, n0.(sd := sd'), out);
    OnlyCallbacks(n.sd, sid, major, ttl, session, provider, now);
    ToldOnly(cfg, n0.(sd := sd'), out);
    RebootIs(n.sd.consumers, sid, session);
    if reboot {
      ResetStartsOver(cfg, n, n', provider);
    }
  }

  ghost predicate Superseded(s: seq<ConsumerEntry>, sid: u16, session: u16) {
    exists i :: OtherSession(s, i, sid, session)
  }

  lemma RebootIs(s: seq<ConsumerEntry>, sid: u16, session: u16)
    ensures DetectReboot(s, sid, session) <==> Superseded(s, sid, session)
  {
    if DetectReboot(s, sid, session) {
      assert OtherSession(s, ConsumerIndex(s, sid), sid, session);
    }
  }

  predicate IsCallback(o: Output) {
    o.FoundCallback? || o.LostCallback? || o.AckCallback?
  }

  lemma OnlyCallbacks(sd: Sd, sid: u16, major: u8, ttl: u16, session: u16, provider: Address, now: u32)
    ensures var out := HandleOffer(sd, sid, major, ttl, session, provider, now).1;
      forall i :: 0 <= i < |out| ==> IsCallback(out[i])
  {
  }

  lemma {:induction false} ToldOnly(cfg: NodeConfig, n: NodeState, out: seq<Output>)
    requires forall i :: 0 <= i < |out| ==> IsCallback(out[i])
    ensures var n' := CarryAll(cfg, n, out); n' == n.(app := n'.app)
    decreases |out|
  {
    if out != [] {
      ToldOnly(cfg, n, out[..|out| - 1]);
      assert IsCallback(out[|out| - 1]);
    }
  }

  // --------------------------------------------------------- a provider that has expired

  /** Some FOUND entry at address `a` is past its lease. */
  ghost predicate ExpiredAt(s: seq<ConsumerEntry>, a: Address, now: u32) {
    exists i :: 0 <= i < |s| && s[i].state == FOUND && s[i].addr == a && TimeAfter(now, s[i].ttlExpiryMs)
  }

  /** The peer table forgot exactly the addresses in `gone`. */
  ghost predicate Forgot(cfg: NodeConfig, n: NodeState, n': NodeState, gone: iset<Address>) {
    && PeersValid(cfg, n')
    && forall a: Address :: E2E.Tracked(n'.peers, a) == if a in gone then None else E2E.Tracked(n.peers, a)
  }

  ghost function AddressesIn(out: seq<Output>): iset<Address> {
    iset o | o in out && o.PeerExpired? :: o.addr
  }

  lemma {:induction false} CarryForgets(cfg: NodeConfig, n: NodeState, out: seq<Output>)
    requires PeersValid(cfg, n)
    ensures Forgot(cfg, n, CarryAll(cfg, n, out), AddressesIn(out))
    decreases |out|
  {
    hide PeersValid, E2E.Tracked, Carry;
    if out != [] {
      var n1 := CarryAll(cfg, n, out[..|out| - 1]);
      CarryForgets(cfg, n, out[..|out| - 1]);
      OneForgets(cfg, n1, out[|out| - 1]);
      assert out == out[..|out| - 1] + [out[|out| - 1]];
    }
  }

  lemma OneForgets(cfg: NodeConfig, n: NodeState, o: Output)
    requires PeersValid(cfg, n)
    ensures var n' := Carry(cfg, n, o);
      && PeersValid(cfg, n')
      && forall a: Address ::
        E2E.Tracked(n'.peers, a) == if o.PeerExpired? && o.addr == a then None else E2E.Tracked(n.peers, a)
  {
    hide SdFrame, E2E.Distinct, E2E.Tracked, E2E.ResetPeer;
    if o.PeerExpired? {
      ResetFits(n.peers, o.addr);
      E2E.ResetForgets(n.peers, o.addr);
    }
  }

  lemma {:induction false} ExpiredAddresses(s: seq<ConsumerEntry>, now: u32, a: Address)
    ensures a in AddressesIn(TtlsOutput(s, now)) <==> ExpiredAt(s, a, now)
    decreases |s|
  {
    hide TimeAfter;
    if s != [] {
      var n := |s| - 1;
      ExpiredAddresses(s[..n], now, a);
      var out, last := TtlsOutput(s[..n], now), TtlStep(s[n], now).1;
      assert a in AddressesIn(out + last) <==> a in AddressesIn(out) || a in AddressesIn(last);
      if ExpiredAt(s[..n], a, now) {
        var i :| 0 <= i < n && s[..n][i].state == FOUND && s[..n][i].addr == a && TimeAfter(now, s[..n][i].ttlExpiryMs);
        assert s[i] == s[..n][i];
      }
    }
  }

  /** A lease pass: the sequence state of each provider whose lease is over is forgotten, so that
      its next message is stopped by no sequence check; all other peers stay as they are. */
  lemma ExpiredForgotten(cfg: NodeConfig, n: NodeState, now: u32, a: Address, sequence: u8)
    requires PeersValid(cfg, n)
    ensures var n' := SdStep(cfg, n, ProcessTtls, now);
      && PeersValid(cfg, n')
      && (ExpiredAt(n.sd.consumers, a, now) ==> Fresh(cfg, n', a, sequence))
      && (!ExpiredAt(n.sd.consumers, a, now) ==> E2E.Tracked(n'.peers, a) == E2E.Tracked(n.peers, a))
  {
    hide E2E.Distinct, CarryAll, TtlsOutput, ExpiredAt;
    var out := TtlsOutput(n.sd.consumers, now);
    var n0 := n.(sd := Step(cfg.sd, n.sd, ProcessTtls, now).0);
    CarryForgets(cfg, n0, out);
    ExpiredAddresses(n.sd.consumers, now, a);
  }

  // -------------------------------------------------------------------------- the queue

  /** Up to `k` frames of the queue, one after the other, the oldest first. */
  ghost function Handled(cfg: NodeConfig, setup: Setup, n: NodeState, inbox: seq<Inbound>, k: nat,
                         now: u32): NodeState
    decreases k
  {
    if k == 0 || inbox == [] then n
    else
      Handled(cfg, setup, Receive(cfg, setup, n, inbox[0].source, inbox[0].frame, now), inbox[1..], k - 1, now)
  }

  /** A process cycle handles the oldest frames of the queue in their order, at most as many as
      configured, before everything else. */
  lemma OldestFirst(cfg: NodeConfig, setup: Setup, n: NodeState, inbox: seq<Inbound>, now: u32)
    ensures Process(cfg, setup, n, inbox, now)
         == Housekeeping(cfg, Handled(cfg, setup, n, inbox, cfg.maxReceiveQueue, now), now)
  {
    hide Receive, Housekeeping;
    var taken := Taken(cfg, inbox);
    DrainsInOrder(cfg, setup, n, taken, now);
    HandledTaken(cfg, setup, n, inbox, cfg.maxReceiveQueue, now);
    HandledTaken(cfg, setup, n, taken, |taken|, now);
    assert taken[..|taken|] == taken;
  }

  lemma {:induction false} DrainsInOrder(cfg: NodeConfig, setup: Setup, n: NodeState, inbox: seq<Inbound>, now: u32)
    ensures Drain(cfg, setup, n, inbox, now) == Handled(cfg, setup, n, inbox, |inbox|, now)
    decreases |inbox|
  {
    hide Receive;
    if |inbox| == 1 {
      assert inbox[..0] == [] && inbox[1..] == [];
      assert Drain(cfg, setup, n, inbox[..0], now) == n;
    } else if inbox != [] {
      DrainFirst(cfg, setup, n, inbox, now);
      DrainsInOrder(cfg, setup, Receive(cfg, setup, n, inbox[0].source, inbox[0].frame, now), inbox[1..], now);
    }
  }

  lemma {:induction false} DrainFirst(cfg: NodeConfig, setup: Setup, n: NodeState, inbox: seq<Inbound>, now: u32)
    requires inbox != []
    ensures Drain(cfg, setup, n, inbox, now)
         == Drain(cfg, setup, Receive(cfg, setup, n, inbox[0].source, inbox[0].frame, now), inbox[1..], now)
    decreases |inbox|
  {
    hide Receive;
    var k := |inbox| - 1;
    var n1 := Receive(cfg, setup, n, inbox[0].source, inbox[0].frame, now);
    if k == 0 {
      assert inbox[..0] == [] && inbox[1..] == [];
      assert Drain(cfg, setup, n, inbox[..0], now) == n && Drain(cfg, setup, n1, inbox[1..], now) == n1;
    } else {
      DrainFirst(cfg, setup, n, inbox[..k], now);
      assert inbox[..k][1..] == inbox[1..][..k - 1] && inbox[1..][k - 1] == inbox[k];
    }
  }

  lemma {:induction false} HandledTaken(cfg: NodeConfig, setup: Setup, n: NodeState, inbox: seq<Inbound>, k: nat,
                                        now: u32)
    ensures Handled(cfg, setup, n, inbox, k, now)
         == Handled(cfg, setup, n, if |inbox| <= k then inbox else inbox[..k], if |inbox| <= k then |inbox| else k, now)
    decreases k
  {
    hide Receive;
    if k > 0 && inbox != [] {
      var n1 := Receive(cfg, setup, n, inbox[0].source, inbox[0].frame, now);
      HandledTaken(cfg, setup, n1, inbox[1..], k - 1, now);
      if |inbox| > k {
        assert inbox[..k][1..] == inbox[1..][..k - 1];
      }
    }
  }
}
