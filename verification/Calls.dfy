/** Calls through two devices: requests and their answers, one-way calls, and the sequence
check every frame goes through first. The headers are written out. */
module Calls {
  import opened Words
  import opened Wire
  import opened SdMessages
  import opened Frame
  import opened Node
  import opened NodeTheorems
  import opened DiscoverySpec
  import Hmac
  import E2E = E2EProtection
  import RT = RequestTracker
  import RequestRuns

  // ---------------------------------------------------------------- the sequence check

  function Sequenced(cfg: NodeConfig, n: NodeState, source: Address, sequence: u8): (seq<E2E.Peer>, E2E.SeqResult) {
    E2E.Validate(n.peers, cfg.maxTrackedPeers, cfg.window, source, sequence)
  }

  /** The sequence counter of a frame does not stop it. */
  predicate Fresh(cfg: NodeConfig, n: NodeState, source: Address, sequence: u8) {
    var r := Sequenced(cfg, n, source, sequence).1;
    !r.Duplicate? && !r.Stale?
  }

  /** The device after a frame that goes on: its sender is tracked, or, when the table is full,
      the frame is counted as dropped although it is not. */
  function Heard(cfg: NodeConfig, n: NodeState, source: Address, sequence: u8): NodeState {
    var (peers', r) := Sequenced(cfg, n, source, sequence);
    if r.TableFull? then n.(counters := Bump(n.counters, DroppedMessages)) else n.(peers := peers')
  }

  lemma CheckedAs(cfg: NodeConfig, n: NodeState, source: Address, h: Header)
    requires h.serviceId != 0xFFFF
    ensures var (n1, goesOn) := SequenceCheck(cfg, n, source, h);
      && goesOn == Fresh(cfg, n, source, h.sequenceCounter)
      && (goesOn ==> n1 == Heard(cfg, n, source, h.sequenceCounter))
  {
  }

  /** The frame is authentic: then it is dispatched, otherwise counted. */
  function GoesOn(cfg: NodeConfig, setup: Setup, n: NodeState, source: Address, d: Bytes, now: u32): NodeState
    requires |d| >= HEADER_SIZE && |d| >= ExpectedSize(ParseHeader(d))
  {
    var h := ParseHeader(d);
    if Authentic(setup, source, h, d) then Dispatch(cfg, setup, n, source, h, PayloadOf(h, d), now)
    else n.(counters := Bump(n.counters, AuthFailures))
  }

  /** Which counter tells of the sequence check: a duplicate bumps only DuplicateMessages and
      a stale frame only StaleMessages, and both stop there. A frame of an untracked sender
      that finds the table full bumps DroppedMessages and goes on all the same. Discovery
      frames are not looked at. */
  lemma SequenceCounted(cfg: NodeConfig, setup: Setup, n: NodeState, source: Address, d: Bytes, now: u32)
    requires CheckFrame(cfg.maxPayloadSize, d).Passed? && |d| >= HEADER_SIZE && |d| >= ExpectedSize(ParseHeader(d))
    ensures var h := ParseHeader(d);
      var (peers', r) := Sequenced(cfg, n, source, h.sequenceCounter);
      Receive(cfg, setup, n, source, d, now)
      == if h.serviceId == 0xFFFF then GoesOn(cfg, setup, n, source, d, now)
         else if r.Duplicate? then n.(counters := Bump(n.counters, DuplicateMessages))
         else if r.Stale? then n.(counters := Bump(n.counters, StaleMessages))
         else if r.TableFull? then
           GoesOn(cfg, setup, n.(counters := Bump(n.counters, DroppedMessages)), source, d, now)
         else GoesOn(cfg, setup, n.(peers := peers'), source, d, now)
  {
    hide CheckFrame, Dispatch, Authentic, ParseHeader, Bump;
    PassedFits(cfg.maxPayloadSize, d);
  }

  /** `DeliveredIntact`, of a fresh frame that carries what its service asks for. */
  lemma Delivered(cfg: NodeConfig, setup: Setup, n: NodeState, keys: seq<Hmac.KeyEntry>, to: Address, from: Address,
                  h: Header, payload: Bytes, auth: bool, now: u32)
    requires WellFormed(h, payload, auth) && |payload| <= cfg.maxPayloadSize && h.serviceId != 0xFFFF
    requires auth ==> KeysMatch(keys, to, setup.keys, from)
    requires Fresh(cfg, n, from, h.sequenceCounter)
    ensures var m := Heard(cfg, n, from, h.sequenceCounter);
      Receive(cfg, setup, n, from, Build(cfg.maxPayloadSize, keys, to, h, payload, auth), now)
      == if AuthMissing(setup, h) then m.(counters := Bump(m.counters, AuthFailures))
         else Dispatch(cfg, setup, m, from, h, payload, now)
  {
    hide Build, Dispatch, Heard, Fresh, Receive, SequenceCheck;
    DeliveredIntact(cfg, setup, n, keys, to, from, h, payload, auth, now);
    CheckedAs(cfg, n, from, h);
  }

  lemma HeardKeeps(cfg: NodeConfig, n: NodeState, source: Address, sequence: u8)
    ensures var n' := Heard(cfg, n, source, sequence);
      n' == n.(peers := n'.peers, counters := n'.counters)
  {
  }

  // ------------------------------------------------------------- a request, end to end

  function Flag(auth: bool): u8 {
    if auth then 1 else 0
  }

  /** What leaves the caller, the handler's device, and reaches the caller again. The request
      goes out as a REQUEST frame for `addrB`. Unless its sequence counter stops it, the device
      there tells its application `events` and sends back a RESPONSE, or an ERROR for a code
      other than zero, with the request's identifier. Unless its sequence counter stops it,
      that frees the slot of the request and calls back with `rc` and `response`. */
  predicate CallOutcome(a: NodeConfig, setupA: Setup, addrA: Address, n: NodeState, n1: NodeState, id: u32,
                        b: NodeConfig, setupB: Setup, addrB: Address, m: NodeState, sid: u16, mid: u16,
                        payload: Bytes, events: seq<AppEvent>, rc: u8, response: Bytes, callback: nat, now: u32)
    requires |payload| < TWO_32 && |response| < TWO_32
  {
    var auth := Hmac.Lookup(setupA.keys, addrB).Some?;
    var h := Header(1, 0, 0, Flag(auth), sid, mid, a.sd.clientId, n.txSeq, 0, id, |payload|);
    var d := Build(a.maxPayloadSize, setupA.keys, addrB, h, payload, auth);
    && n1 == n.(wire := n.wire + [Packet(Some(addrB), d, true)], txSeq := (n.txSeq + 1) % 256, requests := n1.requests)
    && (Fresh(b, m, addrA, n.txSeq) ==>
          var r := Header(1, if rc == 0 then 2 else 0x80, rc, Flag(auth), sid, mid, a.sd.clientId, m.txSeq, 0, id,
                          |response|);
          var answer := Build(b.maxPayloadSize, setupB.keys, addrA, r, response, auth);
          var served := Receive(b, setupB, m, addrA, d, now);
          && served == Heard(b, m, addrA, n.txSeq).(
                         app := m.app + events, wire := m.wire + [Packet(Some(addrA), answer, true)],
                         txSeq := (m.txSeq + 1) % 256)
          && (Fresh(a, n1, addrB, m.txSeq) ==>
              Answered(n, Heard(a, n1, addrB, m.txSeq), Receive(a, setupA, n1, addrB, answer, now), rc, response,
                       callback)))
  }

  /** From `heard` to `after`, the request made in `n` has left the table, and its callback has
      got the answer. */
  predicate Answered(n: NodeState, heard: NodeState, after: NodeState, rc: u8, response: Bytes, callback: nat) {
    && after == heard.(requests := after.requests, app := after.app) && after.requests.next == heard.requests.next
    && var slot := RT.FreeSlot(n.requests.entries);
      && slot < |n.requests.entries| && after.requests.entries == n.requests.entries[slot := RT.FREE]
      && CalledBack(n, after, callback, rc, response)
  }

  /** Two devices that share the key of this direction, or both have none, with the
      authentication either side asks for. */
  predicate Connected(setupA: Setup, addrA: Address, setupB: Setup, addrB: Address, sid: u16) {
    && Hmac.Lookup(setupA.keys, addrB) == Hmac.Lookup(setupB.keys, addrA)
    && ((sid in setupA.services && setupA.services[sid].authRequired)
        || (sid in setupB.services && setupB.services[sid].authRequired)
        ==> Hmac.Lookup(setupA.keys, addrB).Some?)
  }

  /** A call can leave: the caller has a client identifier and a free slot, both links are up. */
  predicate CanCall(a: NodeConfig, n: NodeState, b: NodeConfig, m: NodeState, sid: u16, mid: u16, payload: Bytes) {
    && a.sd.clientId != 0 && mid < 0x8000 && sid != 0xFFFF && |payload| <= a.maxPayloadSize == b.maxPayloadSize
    && a.linkUp(|n.wire|) && b.linkUp(|m.wire|)
    && RT.FreeSlot(n.requests.entries) < |n.requests.entries| <= TWO_32
  }

  /** What fits the response buffer. */
  function Cut(response: Bytes, limit: nat): (r: Bytes)
    ensures |r| <= limit
  {
    if |response| <= limit then response else response[..limit]
  }

  /** A service call through two devices: the handler of the ready service gets the very
      payload, and its return code and bytes, cut to the buffer, complete exactly this
      request; with a code other than E_OK the bytes stay behind. */
  lemma RequestAnswered(a: NodeConfig, setupA: Setup, addrA: Address, n: NodeState,
                        b: NodeConfig, setupB: Setup, addrB: Address, m: NodeState,
                        sid: u16, mid: u16, payload: Bytes, callback: nat, timeoutMs: u32, now: u32) returns (id: u32)
    requires CanCall(a, n, b, m, sid, mid, payload) && Connected(setupA, addrA, setupB, addrB, sid)
    requires sid in setupB.services && setupB.services[sid].ready
    ensures var (n1, rid) := RequestTo(a, setupA, n, addrB, sid, mid, payload, Some(callback), timeoutMs, now);
      var (rc, bytes) := b.handler(sid, mid, payload);
      && rid == Some(id)
      && CallOutcome(a, setupA, addrA, n, n1, id, b, setupB, addrB, m, sid, mid, payload,
                     [Invoked(sid, mid, payload)], rc, if rc == 0 then Cut(bytes, b.maxPayloadSize) else [],
                     callback, now)
  {
    hide RequestTo, CallOutcome;
    id := AnyCall(a, setupA, addrA, n, b, setupB, addrB, m, sid, mid, payload, callback, timeoutMs, now);
  }

  /** A call to a service the device does not have is answered with code 2, E_UNKNOWN_SERVICE,
      and no bytes; no handler runs. */
  lemma UnknownService(a: NodeConfig, setupA: Setup, addrA: Address, n: NodeState,
                       b: NodeConfig, setupB: Setup, addrB: Address, m: NodeState,
                       sid: u16, mid: u16, payload: Bytes, callback: nat, timeoutMs: u32, now: u32) returns (id: u32)
    requires CanCall(a, n, b, m, sid, mid, payload) && Connected(setupA, addrA, setupB, addrB, sid)
    requires sid !in setupB.services
    ensures var (n1, rid) := RequestTo(a, setupA, n, addrB, sid, mid, payload, Some(callback), timeoutMs, now);
      && rid == Some(id)
      && CallOutcome(a, setupA, addrA, n, n1, id, b, setupB, addrB, m, sid, mid, payload, [], 2, [], callback, now)
  {
    hide RequestTo, CallOutcome;
    id := AnyCall(a, setupA, addrA, n, b, setupB, addrB, m, sid, mid, payload, callback, timeoutMs, now);
  }

  /** A call to a service that is not ready is answered with code 4, E_NOT_READY, and no bytes;
      no handler runs. */
  lemma UnreadyService(a: NodeConfig, setupA: Setup, addrA: Address, n: NodeState,
                       b: NodeConfig, setupB: Setup, addrB: Address, m: NodeState,
                       sid: u16, mid: u16, payload: Bytes, callback: nat, timeoutMs: u32, now: u32) returns (id: u32)
    requires CanCall(a, n, b, m, sid, mid, payload) && Connected(setupA, addrA, setupB, addrB, sid)
    requires sid in setupB.services && !setupB.services[sid].ready
    ensures var (n1, rid) := RequestTo(a, setupA, n, addrB, sid, mid, payload, Some(callback), timeoutMs, now);
      && rid == Some(id)
      && CallOutcome(a, setupA, addrA, n, n1, id, b, setupB, addrB, m, sid, mid, payload, [], 4, [], callback, now)
  {
    hide RequestTo, CallOutcome;
    id := AnyCall(a, setupA, addrA, n, b, setupB, addrB, m, sid, mid, payload, callback, timeoutMs, now);
  }

  /** What the dispatcher does with a request depends on its service and method alone. */
  function AnswerTo(cfg: NodeConfig, setup: Setup, sid: u16, mid: u16, payload: Bytes): (r: (u8, Bytes, bool))
    ensures |r.1| <= cfg.maxPayloadSize
  {
    Answer(cfg, setup, Header(1, 0, 0, 0, sid, mid, 0, 0, 0, 0, 0), payload)
  }

  function Ran(invoked: bool, sid: u16, mid: u16, payload: Bytes): seq<AppEvent> {
    if invoked then [Invoked(sid, mid, payload)] else []
  }

  lemma AnyCall(a: NodeConfig, setupA: Setup, addrA: Address, n: NodeState,
                b: NodeConfig, setupB: Setup, addrB: Address, m: NodeState,
                sid: u16, mid: u16, payload: Bytes, callback: nat, timeoutMs: u32, now: u32) returns (id: u32)
    requires CanCall(a, n, b, m, sid, mid, payload) && Connected(setupA, addrA, setupB, addrB, sid)
    ensures var (n1, rid) := RequestTo(a, setupA, n, addrB, sid, mid, payload, Some(callback), timeoutMs, now);
      var (rc, response, invoked) := AnswerTo(b, setupB, sid, mid, payload);
      && rid == Some(id)
      && CallOutcome(a, setupA, addrA, n, n1, id, b, setupB, addrB, m, sid, mid, payload,
                     Ran(invoked, sid, mid, payload), rc, response, callback, now)
  {
    hide Build, RT.Deadline, RT.Probe, RT.ActiveIds, RT.SlotOf, RT.Next, Receive, Dispatch, AnswerTo, Fresh,
      Hmac.Lookup, RT.FreeSlot, Heard, Bump, CalledBack;
    var (n1, rid) := RequestTo(a, setupA, n, addrB, sid, mid, payload, Some(callback), timeoutMs, now);
    id := rid.value;
    var auth := Hmac.Lookup(setupA.keys, addrB).Some?;
    var h := Header(1, 0, 0, Flag(auth), sid, mid, a.sd.clientId, n.txSeq, 0, id, |payload|);
    if Fresh(b, m, addrA, n.txSeq) {
      Delivered(b, setupB, m, setupA.keys, addrB, addrA, h, payload, auth, now);
      var m0 := Heard(b, m, addrA, n.txSeq);
      HeardKeeps(b, m, addrA, n.txSeq);
      RequestHandled(b, setupB, m0, addrA, h, payload, now);
      var (rc, response, invoked) := AnswerTo(b, setupB, sid, mid, payload);
      var r := Header(1, if rc == 0 then 2 else 0x80, rc, Flag(auth), sid, mid, a.sd.clientId, m.txSeq, 0, id,
                      |response|);
      if Fresh(a, n1, addrB, m.txSeq) {
        Delivered(a, setupA, n1, setupB.keys, addrA, addrB, r, response, auth, now);
        HeardKeeps(a, n1, addrB, m.txSeq);
        var k := RequestRuns.FreshId(n.requests);
        ResponseCompletes(a, setupA, n, Heard(a, n1, addrB, m.txSeq), RT.FreeSlot(n.requests.entries), addrB, r,
                          response, now);
      }
    }
  }

  lemma RequestHandled(cfg: NodeConfig, setup: Setup, n: NodeState, source: Address, h: Header, payload: Bytes,
                       now: u32)
    requires h.serviceId != 0xFFFF && h.messageType == 0 && cfg.linkUp(|n.wire|)
    ensures var n' := Dispatch(cfg, setup, n, source, h, payload, now);
      var (rc, response, invoked) := AnswerTo(cfg, setup, h.serviceId, h.methodEventId, payload);
      var auth := Hmac.Lookup(setup.keys, source).Some?;
      var r := Header(1, if rc == 0 then 2 else 0x80, rc, Flag(auth), h.serviceId, h.methodEventId, h.clientId,
                      n.txSeq, 0, h.requestId, |response|);
      n' == n.(app := n.app + Ran(invoked, h.serviceId, h.methodEventId, payload), txSeq := (n.txSeq + 1) % 256,
               wire := n.wire + [
                 Packet(Some(source), Build(cfg.maxPayloadSize, setup.keys, source, r, response, auth), true)])
  {
    hide Build, Hmac.Lookup;
  }

  /** Without a free slot nothing is sent and nothing changes. */
  lemma NoSlotNoCall(cfg: NodeConfig, setup: Setup, n: NodeState, target: Address, sid: u16, mid: u16, payload: Bytes,
                     callback: Option<nat>, timeoutMs: u32, now: u32)
    requires forall i :: 0 <= i < |n.requests.entries| ==> n.requests.entries[i].active
    ensures RequestTo(cfg, setup, n, target, sid, mid, payload, callback, timeoutMs, now) == (n, None)
  {
  }

  // ---------------------------------------------------------------------- one-way calls

  /** The first entry of the service says FOUND at `dest`. */
  predicate FoundAt(s: seq<ConsumerEntry>, i: nat, sid: u16, dest: Address) {
    && i < |s| && s[i].serviceId == sid && s[i].state == FOUND && s[i].addr == dest
    && forall j :: 0 <= j < i ==> s[j].serviceId != sid
  }

  /** A one-way call goes to the provider, as one REQUEST_NO_RETURN frame, and touches nothing
      else. Unless its sequence counter stops it, a ready service there runs on the very
      payload; one that is not ready does nothing, an unknown one counts a dropped message, and
      one that misses authentication counts that. Nothing is ever sent back. */
  lemma OneWayHeard(a: NodeConfig, setupA: Setup, addrA: Address, n: NodeState, i: nat, dest: Address,
                    sid: u16, mid: u16, payload: Bytes, b: NodeConfig, setupB: Setup, m: NodeState, now: u32)
    requires FoundAt(n.sd.consumers, i, sid, dest)
    requires a.sd.clientId != 0 && mid < 0x8000 && sid != 0xFFFF && |payload| <= a.maxPayloadSize == b.maxPayloadSize
    requires Hmac.Lookup(setupA.keys, dest) == Hmac.Lookup(setupB.keys, addrA)
    ensures var auth := Hmac.Lookup(setupA.keys, dest).Some?;
      var h := Header(1, 1, 0, Flag(auth), sid, mid, a.sd.clientId, n.txSeq, 0, 0, |payload|);
      var d := Build(a.maxPayloadSize, setupA.keys, dest, h, payload, auth);
      var (n', ok) := FireAndForget(a, setupA, n, sid, mid, payload);
      && ok == a.linkUp(|n.wire|) && n'.wire == n.wire + [Packet(Some(dest), d, ok)]
      && n' == n.(wire := n'.wire, txSeq := (n.txSeq + 1) % 256,
                  counters := if ok then n.counters else Bump(n.counters, DroppedMessages))
      && (Fresh(b, m, addrA, n.txSeq) ==>
            OneWayOutcome(setupB, auth, Heard(b, m, addrA, n.txSeq), Receive(b, setupB, m, addrA, d, now), sid, mid,
                          payload))
  {
    hide Build, Dispatch, Heard, Fresh, Receive, Hmac.Lookup, Bump;
    var auth := Hmac.Lookup(setupA.keys, dest).Some?;
    var h := Header(1, 1, 0, Flag(auth), sid, mid, a.sd.clientId, n.txSeq, 0, 0, |payload|);
    assert ProviderOf(n.sd.consumers, sid) == Some(dest);
    if Fresh(b, m, addrA, n.txSeq) {
      Delivered(b, setupB, m, setupA.keys, dest, addrA, h, payload, auth, now);
      OneWayRuns(b, setupB, Heard(b, m, addrA, n.txSeq), addrA, h, payload, now);
    }
  }

  /** What a one-way call does at its destination, from `m` to `m'`. */
  predicate OneWayOutcome(setup: Setup, auth: bool, m: NodeState, m': NodeState, sid: u16, mid: u16, payload: Bytes) {
    if sid !in setup.services then m' == m.(counters := Bump(m.counters, DroppedMessages))
    else if setup.services[sid].authRequired && !auth then m' == m.(counters := Bump(m.counters, AuthFailures))
    else if !setup.services[sid].ready then m' == m
    else m' == m.(app := m.app + [Invoked(sid, mid, payload)])
  }

  lemma OneWayRuns(cfg: NodeConfig, setup: Setup, n: NodeState, source: Address, h: Header, payload: Bytes, now: u32)
    requires h.serviceId != 0xFFFF && h.messageType == 1
    ensures Dispatch(cfg, setup, n, source, h, payload, now)
         == if h.serviceId !in setup.services then n.(counters := Bump(n.counters, DroppedMessages))
            else if !setup.services[h.serviceId].ready then n
            else n.(app := n.app + [Invoked(h.serviceId, h.methodEventId, payload)])
  {
    hide Bump;
  }

  /** Without a FOUND entry a one-way call is refused, and nothing is sent. */
  lemma OneWayNowhere(a: NodeConfig, setup: Setup, n: NodeState, sid: u16, mid: u16, payload: Bytes)
    requires forall i :: 0 <= i < |n.sd.consumers| && n.sd.consumers[i].serviceId == sid ==>
      n.sd.consumers[i].state != FOUND
    ensures FireAndForget(a, setup, n, sid, mid, payload) == (n, false)
  {
  }

  /** A notification nobody here listens to is dropped without a trace. */
  lemma NobodyListens(cfg: NodeConfig, setup: Setup, n: NodeState, keys: seq<Hmac.KeyEntry>, to: Address, from: Address,
                      sid: u16, eid: u16, sequence: u8, payload: Bytes, now: u32)
    requires |payload| <= cfg.maxPayloadSize && sid != 0xFFFF && eid >= 0x8000
    requires (sid, eid) !in setup.eventHandlers && Fresh(cfg, n, from, sequence)
    requires !(sid in setup.services && setup.services[sid].authRequired)
    ensures var h := Header(1, 3, 0, 0, sid, eid, 0, sequence, 0, 0, |payload|);
      Receive(cfg, setup, n, from, Build(cfg.maxPayloadSize, keys, to, h, payload, false), now)
      == Heard(cfg, n, from, sequence)
  {
    hide Build, Heard, Fresh, Receive;
    var h := Header(1, 3, 0, 0, sid, eid, 0, sequence, 0, 0, |payload|);
    Delivered(cfg, setup, n, keys, to, from, h, payload, false, now);
  }

  /** An answer to a request that is not pending leaves no trace but in the sequence state. */
  lemma StrayAnswer(cfg: NodeConfig, setup: Setup, n: NodeState, keys: seq<Hmac.KeyEntry>, to: Address, from: Address,
                    h: Header, payload: Bytes, now: u32)
    requires WellFormed(h, payload, false) && |payload| <= cfg.maxPayloadSize && h.serviceId != 0xFFFF
    requires h.messageType in {2, 0x80} && Fresh(cfg, n, from, h.sequenceCounter) && !AuthMissing(setup, h)
    requires forall i :: 0 <= i < |n.requests.entries| ==>
      !(n.requests.entries[i].active && n.requests.entries[i].requestId == h.requestId)
    ensures Receive(cfg, setup, n, from, Build(cfg.maxPayloadSize, keys, to, h, payload, false), now)
         == Heard(cfg, n, from, h.sequenceCounter)
  {
    hide Build, Heard, Fresh, Receive;
    Delivered(cfg, setup, n, keys, to, from, h, payload, false, now);
    HeardKeeps(cfg, n, from, h.sequenceCounter);
    assert RT.SlotOf(n.requests.entries, h.requestId) == |n.requests.entries|;
    NothingCompleted();
  }

  lemma NothingCompleted()
    ensures Completions([]) == []
  {
  }
}
