/** What one device promises about the frames it gets and the requests it makes. */
module NodeTheorems {
  import opened Words
  import opened Wire
  import opened SdMessages
  import opened Frame
  import opened Node
  import opened NodeOutputs
  import opened DiscoverySpec
  import Crc16
  import Hmac
  import EM = EventManager
  import RT = RequestTracker
  import RequestRuns

  // ------------------------------------------------------------------ rejected frames

  /** Bumping touches one counter, and that one saturates. */
  lemma BumpOne(counters: Counters, c: Counter, d: Counter)
    ensures Bump(counters, c)[IndexOf(d)] ==
      if d == c && counters[IndexOf(c)] < TWO_32 - 1 then counters[IndexOf(c)] + 1 else counters[IndexOf(d)]
  {
    IndexInjective(c, d);
  }

  lemma IndexInjective(c: Counter, d: Counter)
    ensures IndexOf(c) == IndexOf(d) <==> c == d
  {
  }

  /** A frame that fails a check before the sequence counter bumps the counter of the first
      check it fails, and changes nothing else on the device. */
  lemma RejectedFrame(cfg: NodeConfig, setup: Setup, n: NodeState, source: Address, d: Bytes, now: u32, k: nat)
    requires k < 8 && Fails(k, cfg.maxPayloadSize, d) && forall j :: 0 <= j < k ==> !Fails(j, cfg.maxPayloadSize, d)
    ensures Receive(cfg, setup, n, source, d, now) == n.(counters := Bump(n.counters, CounterOf(k)))
  {
    hide CheckFrame, Fails, Dispatch, Authentic;
    FirstFailureDecides(cfg.maxPayloadSize, d, k);
  }

  /** The tables of a device: everything but its counters. */
  predicate SameTables(n: NodeState, n': NodeState) {
    n' == n.(counters := n'.counters)
  }

  /** A frame stopped by the sequence counter or by authentication changes only counters and
      the sequence state of its sender. */
  lemma StoppedLate(cfg: NodeConfig, setup: Setup, n: NodeState, source: Address, d: Bytes, now: u32)
    requires CheckFrame(cfg.maxPayloadSize, d).Passed?
    requires var h := ParseHeader(d);
      !SequenceCheck(cfg, n, source, h).1 || (|d| >= ExpectedSize(h) && !Authentic(setup, source, h, d))
    ensures var n' := Receive(cfg, setup, n, source, d, now);
      && SameTables(n.(peers := n'.peers), n')
      && (ParseHeader(d).serviceId == SD_SERVICE_ID ==> n'.peers == n.peers)
  {
    hide CheckFrame, Dispatch, Authentic, ParseHeader;
    PassedFits(cfg.maxPayloadSize, d);
  }

  /** Any frame that carries the AUTH flag is verified, whether or not its service asks for
      it: a wrong tag stops it even when authentication is not required. */
  lemma AuthAlwaysVerified(cfg: NodeConfig, setup: Setup, n: NodeState, source: Address, d: Bytes, now: u32)
    requires CheckFrame(cfg.maxPayloadSize, d).Passed? && HasAuth(ParseHeader(d))
    requires SequenceCheck(cfg, n, source, ParseHeader(d)).1
    requires |d| >= ExpectedSize(ParseHeader(d))
    ensures var h := ParseHeader(d);
      var n1 := SequenceCheck(cfg, n, source, h).0;
      Receive(cfg, setup, n, source, d, now) ==
        if Hmac.Accepts(setup.keys, source, d[..HEADER_SIZE], PayloadOf(h, d), TagOf(h, d))
        then Dispatch(cfg, setup, n1, source, h, PayloadOf(h, d), now)
        else n1.(counters := Bump(n1.counters, AuthFailures))
  {
    hide CheckFrame, Dispatch, ParseHeader;
    PassedFits(cfg.maxPayloadSize, d);
  }

  // --------------------------------------------------------------- delivered frames

  /** Both ends hold the same key for this direction. */
  predicate KeysMatch(senderKeys: seq<Hmac.KeyEntry>, to: Address, receiverKeys: seq<Hmac.KeyEntry>, from: Address) {
    Hmac.Lookup(senderKeys, to).Some? && Hmac.Lookup(senderKeys, to) == Hmac.Lookup(receiverKeys, from)
  }

  /** The service refuses frames without authentication. */
  predicate AuthMissing(setup: Setup, h: Header) {
    !HasAuth(h) && h.serviceId != SD_SERVICE_ID && h.serviceId in setup.services
      && setup.services[h.serviceId].authRequired
  }

  /** A built frame is dispatched with the identical header and payload, unless the sequence
      counter stops it or the service asks for authentication it does not carry. */
  lemma DeliveredIntact(cfg: NodeConfig, setup: Setup, n: NodeState, keys: seq<Hmac.KeyEntry>, to: Address,
                        from: Address,
                        h: Header, payload: Bytes, auth: bool, now: u32)
    requires WellFormed(h, payload, auth) && |payload| <= cfg.maxPayloadSize
    requires auth ==> KeysMatch(keys, to, setup.keys, from)
    ensures var d := Build(cfg.maxPayloadSize, keys, to, h, payload, auth);
      var (n1, goesOn) := SequenceCheck(cfg, n, from, h);
      Receive(cfg, setup, n, from, d, now) ==
        if !goesOn then n1
        else if AuthMissing(setup, h) then n1.(counters := Bump(n1.counters, AuthFailures))
        else Dispatch(cfg, setup, n1, from, h, payload, now)
  {
    hide CheckFrame, Dispatch, ParseHeader, HeaderBytes, Build, TagBytes, Hmac.Accepts;
    BuildRoundTrip(cfg.maxPayloadSize, keys, to, h, payload, auth);
    if auth {
      TagAccepted(keys, setup.keys, from, to, h, payload);
    }
  }

  /** A built frame damaged in two adjacent bytes, wherever they lie, is dropped as a checksum
      error by any device, and leaves its tables alone. */
  lemma DamagedFrameDropped(cfg: NodeConfig, setup: Setup, n: NodeState, from: Address, keys: seq<Hmac.KeyEntry>,
                            to: Address,
                            h: Header, payload: Bytes, auth: bool, damaged: Bytes, i: nat, now: u32)
    requires |payload| <= cfg.maxPayloadSize
    requires var d := Build(cfg.maxPayloadSize, keys, to, h, payload, auth);
      |damaged| == |d| && damaged != d && forall k :: 0 <= k < |d| && k != i && k != i + 1 ==> d[k] == damaged[k]
    ensures Receive(cfg, setup, n, from, damaged, now) == n.(counters := Bump(n.counters, CrcErrors))
  {
    hide HeaderBytes, Crc16.Valid, Crc16.Sealed, TagBytes, Dispatch, Crc16.Crc;
    var body := HeaderBytes(h) + payload + TagBytes(keys, to, h, payload, auth);
    var d := Crc16.Sealed(body);
    Crc16.SealedIsValid(body);
    Crc16.AdjacentBytesDetected(d, damaged, i);
    assert |damaged| >= MIN_MESSAGE_SIZE;
  }

  // ------------------------------------------------------------------------ requests

  /** The application got exactly one more event: this callback. */
  predicate CalledBack(n: NodeState, n': NodeState, callback: nat, rc: u8, payload: Bytes) {
    && |n'.app| == |n.app| + 1 && n'.app[..|n.app|] == n.app && n'.app[|n.app|].RequestDone?
    && var c := n'.app[|n.app|].completion; c.entry.callback == Some(callback) && c.rc == rc && c.payload == payload
  }

  lemma OneCompletion(c: RT.Completion)
    ensures Completions([c]) == if c.entry.callback.Some? then [RequestDone(c)] else []
  {
    assert [c][..0] == [];
  }

  /** A request whose send fails: the callback gets E_NOT_OK, the caller gets no identifier,
      and the table is as if the request had come and gone. */
  lemma FailedSend(cfg: NodeConfig, setup: Setup, n: NodeState, target: Address, sid: u16, mid: u16, payload: Bytes,
                   callback: Option<nat>, timeoutMs: u32, now: u32)
    requires !cfg.linkUp(|n.wire|)
    requires RT.FreeSlot(n.requests.entries) < |n.requests.entries| <= TWO_32
    ensures var (n', id) := RequestTo(cfg, setup, n, target, sid, mid, payload, callback, timeoutMs, now);
      var slot := RT.FreeSlot(n.requests.entries);
      && id == None
      && n'.requests.entries == n.requests.entries[slot := RT.FREE]
      && n'.counters == Bump(n.counters, DroppedMessages)
      && (callback == None ==> n'.app == n.app)
      && (callback.Some? ==> CalledBack(n, n', callback.value, 1, []))
  {
    hide Build, RT.Deadline, RT.Probe, RT.ActiveIds, RT.SlotOf, Bump, Hmac.Lookup;
    var t := n.requests;
    var slot := RT.FreeSlot(t.entries);
    var entry := RT.PendingEntry(0, sid, mid, RT.Deadline(timeoutMs, cfg.requestTimeoutMs, now), callback, true);
    var (t', rid) := RT.AllocateIn(t, entry);
    var k := RequestRuns.FreshId(t);
    SlotOfNew(t.entries, slot, entry.(requestId := rid.value, active := true), rid.value);
    OneCompletion(RT.Completion(t'.entries[slot], E_NOT_OK, []));
  }

  lemma SlotOfNew(entries: seq<RT.PendingEntry>, slot: nat, e: RT.PendingEntry, id: u32)
    requires slot < |entries| && e.active && e.requestId == id && id !in RT.ActiveIds(entries) && !entries[slot].active
    ensures RT.SlotOf(entries[slot := e], id) == slot
  {
    hide RT.ActiveIds;
    var s := entries[slot := e];
    forall k | 0 <= k < slot
      ensures !(s[k].active && s[k].requestId == id)
    {
      assert s[k] == entries[k];
      if s[k].active {
        ActiveIdIn(entries, k);
      }
    }
    assert s[slot].active && s[slot].requestId == id;
    var i := RT.SlotOf(s, id);
    assert i <= slot;
  }

  lemma {:induction false} ActiveIdIn(entries: seq<RT.PendingEntry>, k: nat)
    requires k < |entries| && entries[k].active
    ensures entries[k].requestId in RT.ActiveIds(entries)
    decreases |entries|
  {
    if k < |entries| - 1 {
      ActiveIdIn(entries[..|entries| - 1], k);
    }
  }

  /** A request with an oversized payload still takes a slot and a sequence number: an empty
      frame is sent, and every receiver drops it. */
  lemma OversizedRequest(cfg: NodeConfig, setup: Setup, n: NodeState, target: Address, sid: u16, mid: u16,
                         payload: Bytes,
                         callback: Option<nat>, timeoutMs: u32, now: u32, peer: NodeConfig, peerSetup: Setup,
                           m: NodeState, from: Address)
    requires cfg.maxPayloadSize < |payload| && cfg.linkUp(|n.wire|)
    requires RT.FreeSlot(n.requests.entries) < |n.requests.entries|
    ensures var (n', id) := RequestTo(cfg, setup, n, target, sid, mid, payload, callback, timeoutMs, now);
      && id.Some? && n'.wire == n.wire + [Packet(Some(target), [], true)] && n'.txSeq == (n.txSeq + 1) % 256
      && n'.requests.entries[RT.FreeSlot(n.requests.entries)].active && n'.app == n.app
      && Receive(peer, peerSetup, m, from, n'.wire[|n.wire|].frame, now)
        == m.(counters := Bump(m.counters, DroppedMessages))
  {
    hide RT.Deadline, RT.Probe, Dispatch, RT.ActiveIds;
  }

  // ------------------------------------------------------------------ answers in time

  lemma SequenceFrame(cfg: NodeConfig, n: NodeState, source: Address, h: Header)
    ensures var n' := SequenceCheck(cfg, n, source, h).0;
      n'.requests == n.requests && n'.wire == n.wire && n'.app == n.app && n'.txSeq == n.txSeq
  {
  }

  lemma ResponseCompletes(cfg: NodeConfig, setup: Setup, n: NodeState, n0: NodeState, slot: nat, source: Address,
                          r: Header, response: Bytes, now: u32)
    requires r.serviceId != SD_SERVICE_ID && r.messageType in {RESPONSE, ERROR} && slot < |n.requests.entries|
    requires |n0.requests.entries| == |n.requests.entries| && n0.app == n.app
    requires n0.requests.entries == n.requests.entries[slot := n0.requests.entries[slot]]
    requires var e := n0.requests.entries[slot]; e.active && e.requestId == r.requestId && e.callback.Some?
    requires !n.requests.entries[slot].active && r.requestId !in RT.ActiveIds(n.requests.entries)
    ensures var n2 := Dispatch(cfg, setup, n0, source, r, response, now);
      && n2 == n0.(requests := n2.requests, app := n2.app) && n2.requests.next == n0.requests.next
      && n2.requests.entries == n.requests.entries[slot := RT.FREE]
      && CalledBack(n, n2, n0.requests.entries[slot].callback.value, r.returnCode, response)
  {
    SlotOfNew(n.requests.entries, slot, n0.requests.entries[slot], r.requestId);
    OneCompletion(RT.Completion(n0.requests.entries[slot], r.returnCode, response));
  }

  /** The queue is drained before timeouts are judged: an answer that waits in the queue is
      the first thing the application hears, however long the deadline has been over. */
  lemma QueuedAnswerWins(cfg: NodeConfig, setup: Setup, n: NodeState, source: Address, d: Bytes, now: u32)
    requires cfg.maxReceiveQueue > 0 && CheckFrame(cfg.maxPayloadSize, d).Passed? && |d| >= ExpectedSize(ParseHeader(d))
    requires var h := ParseHeader(d);
      && h.serviceId != SD_SERVICE_ID && h.messageType in {RESPONSE, ERROR}
      && SequenceCheck(cfg, n, source, h).1 && Authentic(setup, source, h, d)
      && RT.SlotOf(n.requests.entries, h.requestId) < |n.requests.entries|
      && n.requests.entries[RT.SlotOf(n.requests.entries, h.requestId)].callback.Some?
    ensures var h := ParseHeader(d);
      var entry := n.requests.entries[RT.SlotOf(n.requests.entries, h.requestId)];
      var n' := Process(cfg, setup, n, [Inbound(source, d)], now);
      n.app + [RequestDone(RT.Completion(entry, h.returnCode, PayloadOf(h, d)))] <= n'.app
  {
    hide CheckFrame, Authentic, SequenceCheck, Housekeeping, ParseHeader, FourPasses, Emits;
    PassedFits(cfg.maxPayloadSize, d);
    var h := ParseHeader(d);
    var inbox := [Inbound(source, d)];
    assert inbox[..0] == [];
    SequenceFrame(cfg, n, source, h);
    OneCompletion(RT.Completion(n.requests.entries[RT.SlotOf(n.requests.entries, h.requestId)], h.returnCode,
                                PayloadOf(h, d)));
    var n1 := SequenceCheck(cfg, n, source, h).0;
    assert Drain(cfg, setup, n, inbox[..0], now) == n;
    var drained := CompleteRequest(n1, h.requestId, h.returnCode, PayloadOf(h, d));
    assert Receive(cfg, setup, n, source, d, now) == drained;
    assert Drain(cfg, setup, n, inbox, now) == drained;
    HousekeepingEmits(cfg, drained, now);
    EmitsMore(cfg, drained, Housekeeping(cfg, drained, now), FourPasses(cfg.sd, drained.sd, now).1);
  }

  lemma EmitsMore(cfg: NodeConfig, n: NodeState, n': NodeState, out: seq<Output>)
    requires Emits(cfg, n, n', out)
    ensures n.app <= n'.app
  {
  }

  // ------------------------------------------------------------------- notifications

  /** A notification sends one frame to each subscriber, in table order and with consecutive
      sequence counters, and touches no table. */
  lemma {:induction false} NotifiesEach(cfg: NodeConfig, setup: Setup, n: NodeState, subs: seq<EM.Subscriber>,
                                        sid: u16, eid: u16, payload: Bytes)
    ensures var n' := NotifyAll(cfg, setup, n, subs, sid, eid, payload);
      && |n'.wire| == |n.wire| + |subs| && n.wire <= n'.wire && n'.txSeq == (n.txSeq + |subs|) % 256
      && n'.(wire := n.wire, counters := n.counters, txSeq := n.txSeq) == n
      && forall i :: 0 <= i < |subs| ==>
        n'.wire[|n.wire| + i] == NotificationPacket(cfg, setup, n, i, subs[i].addr, sid, eid, payload)
    decreases |subs|
  {
    hide NotifyOne, NotificationPacket;
    if subs != [] {
      var k := |subs| - 1;
      var n1 := NotifyAll(cfg, setup, n, subs[..k], sid, eid, payload);
      NotifiesEach(cfg, setup, n, subs[..k], sid, eid, payload);
      NotifiesOne(cfg, setup, n, n1, k, subs[k].addr, sid, eid, payload);
      var n' := NotifyOne(cfg, setup, n1, subs[k].addr, sid, eid, payload);
      forall i | 0 <= i < |subs|
        ensures n'.wire[|n.wire| + i] == NotificationPacket(cfg, setup, n, i, subs[i].addr, sid, eid, payload)
      {
        if i < k {
          assert n'.wire[|n.wire| + i] == n1.wire[|n.wire| + i] && subs[i] == subs[..k][i];
        }
      }
    }
  }

  lemma NotifiesOne(cfg: NodeConfig, setup: Setup, n: NodeState, n1: NodeState, k: nat, dest: Address, sid: u16,
                    eid: u16, payload: Bytes)
    requires |n1.wire| == |n.wire| + k && n1.txSeq == (n.txSeq + k) % 256
    ensures var n' := NotifyOne(cfg, setup, n1, dest, sid, eid, payload);
      && n'.wire == n1.wire + [NotificationPacket(cfg, setup, n, k, dest, sid, eid, payload)]
      && n'.txSeq == (n.txSeq + (k + 1)) % 256
      && n'.(wire := n1.wire, counters := n1.counters, txSeq := n1.txSeq) == n1
  {
    hide Build, Hmac.Lookup, Bump;
  }

  function NotificationPacket(cfg: NodeConfig, setup: Setup, n: NodeState, i: nat, dest: Address, sid: u16, eid: u16,
                              payload: Bytes): Packet {
    var auth := Hmac.Lookup(setup.keys, dest).Some?;
    var h := Header(1, 3, 0, if auth then 1 else 0, sid, eid, 0, (n.txSeq + i) % 256, 0, 0, Wrap32(|payload|));
    Packet(Some(dest), Build(cfg.maxPayloadSize, setup.keys, dest, h, payload, auth), cfg.linkUp(|n.wire| + i))
  }

  /** The notification put the `i`-th frame on the wire for `dest`, and the device there runs
      its handler on the very payload, unless the sequence counter stops the frame. */
  ghost predicate NotificationOutcome(a: NodeConfig, setupA: Setup, addrA: Address, n: NodeState, i: nat, dest: Address,
                                      outcome: (NodeState, bool), sid: u16, eid: u16, payload: Bytes,
                                      b: NodeConfig, setupB: Setup, m: NodeState, now: u32) {
    var p := NotificationPacket(a, setupA, n, i, dest, sid, eid, payload);
    var h := NotificationHeader(sid, eid, Hmac.Lookup(setupA.keys, dest).Some?, (n.txSeq + i) % 256, Wrap32(|payload|));
    && outcome.1 && |n.wire| + i < |outcome.0.wire| && outcome.0.wire[|n.wire| + i] == p
    && (SequenceCheck(b, m, addrA, h).1 ==>
        Receive(b, setupB, m, addrA, p.frame, now).app == m.app + [Notified(sid, eid, payload)])
  }

  /** Each subscriber with a handler and the same key hears the very payload, unless the
      sequence counter stops the frame. */
  lemma NotificationHeard(a: NodeConfig, setupA: Setup, addrA: Address, n: NodeState, sid: u16, eid: u16,
                          payload: Bytes, i: nat,
                          b: NodeConfig, setupB: Setup, m: NodeState, now: u32)
    requires |payload| <= a.maxPayloadSize == b.maxPayloadSize && sid != SD_SERVICE_ID && eid >= 0x8000
    requires i < |EM.SubsOf(n.events, sid, eid)|
    requires (sid, eid) in setupB.eventHandlers
    requires var dest := EM.SubsOf(n.events, sid, eid)[i].addr;
      && Hmac.Lookup(setupA.keys, dest) == Hmac.Lookup(setupB.keys, addrA)
      && (sid in setupB.services && setupB.services[sid].authRequired ==> Hmac.Lookup(setupA.keys, dest).Some?)
    ensures var dest := EM.SubsOf(n.events, sid, eid)[i].addr;
      NotificationOutcome(a, setupA, addrA, n, i, dest, Notify(a, setupA, n, sid, eid, payload), sid, eid, payload, b,
                          setupB, m, now)
  {
    hide Build, Hmac.Lookup, SequenceCheck, Receive, EM.SubsOf, NotifyAll, NotificationPacket, NotificationHeader;
    var subs := EM.SubsOf(n.events, sid, eid);
    NotifiesEach(a, setupA, n, subs, sid, eid, payload);
    PacketHeard(a, setupA, addrA, n, i, subs[i].addr, sid, eid, payload, b, setupB, m, now);
  }

  /** One notification at its destination. */
  lemma PacketHeard(a: NodeConfig, setupA: Setup, addrA: Address, n: NodeState, i: nat, dest: Address, sid: u16,
                    eid: u16, payload: Bytes, b: NodeConfig, setupB: Setup, m: NodeState, now: u32)
    requires |payload| <= a.maxPayloadSize == b.maxPayloadSize && sid != SD_SERVICE_ID && eid >= 0x8000
    requires (sid, eid) in setupB.eventHandlers && Hmac.Lookup(setupA.keys, dest) == Hmac.Lookup(setupB.keys, addrA)
    requires sid in setupB.services && setupB.services[sid].authRequired ==> Hmac.Lookup(setupA.keys, dest).Some?
    ensures var p := NotificationPacket(a, setupA, n, i, dest, sid, eid, payload);
      var auth := Hmac.Lookup(setupA.keys, dest).Some?;
      var h := NotificationHeader(sid, eid, auth, (n.txSeq + i) % 256, Wrap32(|payload|));
      SequenceCheck(b, m, addrA, h).1 ==>
        Receive(b, setupB, m, addrA, p.frame, now).app == m.app + [Notified(sid, eid, payload)]
  {
    hide Build, Hmac.Lookup, SequenceCheck, Dispatch, Receive;
    var auth := Hmac.Lookup(setupA.keys, dest).Some?;
    var h := NotificationHeader(sid, eid, auth, (n.txSeq + i) % 256, |payload|);
    DeliveredIntact(b, setupB, m, setupA.keys, dest, addrA, h, payload, auth, now);
    SequenceFrame(b, m, addrA, h);
    HandlerRuns(b, setupB, SequenceCheck(b, m, addrA, h).0, addrA, h, payload, now);
  }

  lemma HandlerRuns(cfg: NodeConfig, setup: Setup, n: NodeState, source: Address, h: Header, payload: Bytes, now: u32)
    requires h.serviceId != SD_SERVICE_ID && h.messageType == NOTIFICATION
      && (h.serviceId, h.methodEventId) in setup.eventHandlers
    ensures Dispatch(cfg, setup, n, source, h, payload, now).app == n.app
      + [Notified(h.serviceId, h.methodEventId, payload)]
  {
  }

  /** An event registered under an identifier without bit 15 can be subscribed to, but no
      device accepts its notifications. */
  lemma MisnumberedEvent(a: NodeConfig, setupA: Setup, n: NodeState, i: nat, dest: Address, sid: u16, eid: u16,
                         payload: Bytes,
                         b: NodeConfig, setupB: Setup, m: NodeState, from: Address, now: u32)
    requires |payload| <= a.maxPayloadSize == b.maxPayloadSize && eid < 0x8000
    ensures var p := NotificationPacket(a, setupA, n, i, dest, sid, eid, payload);
      Receive(b, setupB, m, from, p.frame, now) == m.(counters := Bump(m.counters, TypeIdMismatches))
  {
    hide HeaderBytes, ParseHeader, Crc16.Crc, Crc16.HighByte, Crc16.LowByte, TagBytes, Hmac.Tag, Hmac.Lookup,
      Dispatch, Authentic;
    var auth := Hmac.Lookup(setupA.keys, dest).Some?;
    var h := NotificationHeader(sid, eid, auth, (n.txSeq + i) % 256, |payload|);
    var body := HeaderBytes(h) + payload + TagBytes(setupA.keys, dest, h, payload, auth);
    var d := Crc16.Sealed(body);
    Crc16.SealedIsValid(body);
    assert d == HeaderBytes(h) + (payload + TagBytes(setupA.keys, dest, h, payload, auth) + d[|body|..]);
    HeaderRoundTrip(h, payload + TagBytes(setupA.keys, dest, h, payload, auth) + d[|body|..]);
  }

  // ---------------------------------------------------------------- acknowledged leases

  /** A subscribe request is answered with the lease it recorded: code 0 and the granted time,
      the requested one or the default for zero, exactly when the event is registered and has
      the client already or room for it; the table then holds the subscriber until the end of
      that time. Otherwise code 1 and zero, with the table as it was. No other lease changes. */
  lemma AckTellsLease(cfg: NodeConfig, n: NodeState, source: Address, client: u16, sid: u16, eid: u16, ttl: u16,
                      now: u32)
      returns (granted: u16, rc: u8)
    requires EM.WellFormed(n.events, cfg.limits)
    ensures var n' := SubscribeRequest(cfg, n, source, client, sid, eid, ttl, now);
      && EM.WellFormed(n'.events, cfg.limits)
      && n' == n.(events := n'.events, sdSeq := (n.sdSeq + 1) % 256, wire := n'.wire, counters := n'.counters)
      && n'.wire == n.wire + [Packet(Some(source),
                                     SdFrame(cfg.sd.clientId, SubscribeAck(sid, eid, granted), rc, n.sdSeq),
                                     cfg.linkUp(|n.wire|))]
      && rc == (if EM.HasRoom(n.events, cfg.limits, sid, eid, client) then 0 else 1)
      && granted == (if rc == 1 then 0 else if ttl > 0 then ttl else cfg.limits.defaultTtl)
      && (rc == 0 ==>
            EM.Lease(n'.events, sid, eid, client) == Some(EM.Subscriber(client, source, Wrap32(now + 1000 * granted))))
      && (rc == 1 ==> n'.events == n.events && EM.Lease(n.events, sid, eid, client) == None)
      && (forall s: u16, e: u16, c: u16 :: !(s == sid && e == eid && c == client) ==>
          EM.Lease(n'.events, s, e, c) == EM.Lease(n.events, s, e, c))
  {
    hide EM.Lease, EM.WellFormed, EM.HasRoom, SdFrame, EM.Subscribe;
    var (events', r) := EM.Subscribe(n.events, cfg.limits, sid, eid, client, source, ttl, now);
    EM.SubscribeRefines(n.events, cfg.limits, sid, eid, client, source, ttl, now);
    granted := if r.Accepted? then EM.GrantedTtl(ttl, cfg.limits) else 0;
    rc := if r.Accepted? then 0 else 1;
  }
}
